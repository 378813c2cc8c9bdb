/**
  The cart's in-memory model: ShoppingCartItem (a mutable record of product,
  quantity and line total) and ShoppingCart (a map from product id to item
  whose total is recomputed on every request).
 */
module Models {
  import opened Results

  const MIN_INT: int := -0x8000_0000
  const MAX_INT: int := 0x7fff_ffff

  /** Java's 32-bit `int`, the type of every quantity. */
  type Int32 = x: int | MIN_INT <= x <= MAX_INT

  /** Java's `q + 1` on `int`: the 32-bit value congruent to q + 1 modulo 2^32. */
  function Plus1(q: Int32): (r: Int32)
    ensures (r - (q + 1)) % 0x1_0000_0000 == 0
    ensures q < MAX_INT ==> r == q + 1
  {
    if q == MAX_INT then MIN_INT else q + 1
  }

  /** A BigDecimal amount, held exactly as a whole number of its smallest unit. */
  type Money = int

  /** The two fields of a product that the cart reads. */
  datatype Product = Product(productId: int, price: Money)

  /** The product that `new Product()` gives a default-constructed item. */
  const DefaultProduct: Product := Product(0, 0)

  /** The field values of one ShoppingCartItem; None stands for a null reference. */
  datatype ItemState = ItemState(product: Option<Product>, quantity: Int32, lineTotal: Option<Money>)

  /** The item built for a stored row: the product, the row's quantity, and price times quantity. */
  function PricedLine(product: Product, quantity: Int32): ItemState
  {
    ItemState(Some(product), quantity, Some(product.price * quantity))
  }

  /** What one line total adds to the cart total: a null line total adds nothing. */
  function Contribution(lineTotal: Option<Money>): Money
  {
    if lineTotal.Some? then lineTotal.value else 0
  }

  /** The entries of m whose keys are in ks. */
  function Restrict<K, V>(m: map<K, V>, ks: set<K>): (r: map<K, V>)
    ensures r.Keys == m.Keys * ks
    ensures forall k | k in r :: r[k] == m[k]
  {
    map k | k in m && k in ks :: m[k]
  }

  /** Restricting to one more key adds that key's entry, if m has one. */
  lemma RestrictOneMore(m: map<int, ItemState>, ks: set<int>, p: int)
    ensures Restrict(m, ks + {p}) == if p in m then Restrict(m, ks)[p := m[p]] else Restrict(m, ks)
  {
  }

  lemma HasKey(m: map<int, ItemState>)
    requires m != map[]
    ensures exists p :: p in m
  {
    if forall p :: p !in m {
      assert false;
    }
  }

  lemma HasElement(s: set<int>)
    requires s != {}
    ensures exists p :: p in s
  {
    if forall p :: p !in s {
      assert false;
    }
  }

  /** The sum of the line totals of a cart's items, taken in no particular order. */
  ghost function SumLineTotals(m: map<int, ItemState>): Money
    decreases |m|
  {
    if m == map[] then 0
    else
      HasKey(m);
      var p :| p in m;
      Contribution(m[p].lineTotal) + SumLineTotals(m - {p})
  }

  /** The sum does not depend on which item is taken first. */
  lemma {:induction false} SumRemove(m: map<int, ItemState>, p: int)
    requires p in m
    ensures SumLineTotals(m) == Contribution(m[p].lineTotal) + SumLineTotals(m - {p})
    decreases |m|
  {
    var q :| q in m && SumLineTotals(m) == Contribution(m[q].lineTotal) + SumLineTotals(m - {q});
    if q != p {
      SumRemove(m - {q}, p);
      SumRemove(m - {p}, q);
      assert m - {q} - {p} == m - {p} - {q};
    }
  }

  /** Storing an item under p replaces p's old contribution to the total by the new item's. */
  lemma SumUpdate(m: map<int, ItemState>, p: int, s: ItemState)
    ensures SumLineTotals(m[p := s]) == SumLineTotals(m - {p}) + Contribution(s.lineTotal)
  {
    SumRemove(m[p := s], p);
    assert m[p := s] - {p} == m - {p};
  }

  /** An item whose line total is null leaves the total as if it were absent. */
  lemma SumSkipsNull(m: map<int, ItemState>, p: int)
    requires p in m && m[p].lineTotal.None?
    ensures SumLineTotals(m) == SumLineTotals(m - {p})
  {
    SumRemove(m, p);
  }

  /** When every line total is present, the total is the plain sum of the line totals; here
      the lines are priced, so it is the sum of price times quantity over the items. */
  lemma {:induction false} SumOfPricedLines(m: map<int, ItemState>)
    requires forall p | p in m :: m[p].product.Some? && m[p] == PricedLine(m[p].product.value, m[p].quantity)
    ensures SumLineTotals(m) == PriceTimesQuantity(m)
    decreases |m|
  {
    if m != map[] {
      var p := PickedBySum(m);
      SumRemove(m, p);
      SumOfPricedLines(m - {p});
    }
  }

  /** The key that PriceTimesQuantity takes first. */
  ghost function PickedBySum(m: map<int, ItemState>): (p: int)
    requires m != map[]
    ensures p in m
  {
    HasKey(m);
    var p :| p in m; p
  }

  /** The sum over the items of product price times quantity (an item without product adds nothing). */
  ghost function PriceTimesQuantity(m: map<int, ItemState>): Money
    decreases |m|
  {
    if m == map[] then 0
    else
      var p := PickedBySum(m);
      (if m[p].product.Some? then m[p].product.value.price * m[p].quantity else 0)
      + PriceTimesQuantity(m - {p})
  }

  /** ShoppingCartItem: a mutable record; getters are plain field reads. */
  class ShoppingCartItem {
    var product: Option<Product>
    var quantity: Int32
    var lineTotal: Option<Money>

    /** The item's field values. */
    function State(): ItemState
      reads this
    {
      ItemState(product, quantity, lineTotal)
    }

    /** The default constructor: a new default product, quantity 0, line total 0. */
    constructor ()
      ensures State() == ItemState(Some(DefaultProduct), 0, Some(0))
    {
      product := Some(DefaultProduct);
      quantity := 0;
      lineTotal := Some(0);
    }

    /** The constructor with all fields stores exactly what it is given. */
    constructor WithFields(product: Option<Product>, quantity: Int32, lineTotal: Option<Money>)
      ensures State() == ItemState(product, quantity, lineTotal)
    {
      this.product := product;
      this.quantity := quantity;
      this.lineTotal := lineTotal;
    }

    method SetProduct(product: Option<Product>)
      modifies this
      ensures State() == old(State()).(product := product)
    {
      this.product := product;
    }

    method SetQuantity(quantity: Int32)
      modifies this
      ensures State() == old(State()).(quantity := quantity)
    {
      this.quantity := quantity;
    }

    method SetLineTotal(lineTotal: Option<Money>)
      modifies this
      ensures State() == old(State()).(lineTotal := lineTotal)
    {
      this.lineTotal := lineTotal;
    }
  }

  /** ShoppingCart: items keyed by product id, and a stored total that GetTotal never reads. */
  class ShoppingCart {
    var items: map<int, ShoppingCartItem>
    var total: Option<Money>

    /** The cart as values: each product id with its item's fields. */
    ghost function View(): map<int, ItemState>
      reads this, items.Values
    {
      map p | p in items :: items[p].State()
    }

    /** A new cart has no items and a total of 0. */
    constructor ()
      ensures items == map[] && total == Some(0)
      ensures View() == map[] && SumLineTotals(View()) == 0
    {
      items := map[];
      total := Some(0);
    }

    /** Recomputes the total from the items on every call: the sum of the non-null line totals. */
    method GetTotal() returns (calculated: Money)
      ensures calculated == SumLineTotals(View())
    {
      calculated := 0;
      var pending := items.Keys;
      assert Restrict(View(), pending) == View();
      while pending != {}
        invariant pending <= items.Keys
        invariant calculated + SumLineTotals(Restrict(View(), pending)) == SumLineTotals(View())
        decreases pending
      {
        HasElement(pending);
        var p :| p in pending;
        var item := items[p];
        if item.lineTotal.Some? {
          calculated := calculated + item.lineTotal.value;
        }
        SumRemove(Restrict(View(), pending), p);
        assert Restrict(View(), pending) - {p} == Restrict(View(), pending - {p});
        pending := pending - {p};
      }
      assert Restrict(View(), pending) == map[];
    }

    /** Overwrites the stored total; the items, and so what GetTotal returns, stay as they were. */
    method SetTotal(total: Option<Money>)
      modifies this
      ensures this.total == total && items == old(items)
      ensures View() == old(View())
    {
      this.total := total;
    }

    /** Stores the item under its product's id, replacing any item stored there, and refreshes
        the stored total; a null item or an item without product changes nothing. */
    method AddProduct(item: ShoppingCartItem?)
      modifies this
      ensures item == null || item.product.None? ==> items == old(items) && total == old(total)
      ensures item != null && item.product.Some? ==>
        && items == old(items)[item.product.value.productId := item]
        && View() == old(View())[item.product.value.productId := item.State()]
        && total == Some(SumLineTotals(View()))
    {
      if item != null && item.product.Some? {
        items := items[item.product.value.productId := item];
        var calculated := GetTotal();
        ghost var view := View();
        total := Some(calculated);
        assert View() == view;
      }
    }

    /** The item stored under the product id, or null when there is none. */
    function GetByProductId(productId: int): (item: ShoppingCartItem?)
      reads this
      ensures item != null <==> productId in items
      ensures item != null ==> item == items[productId]
    {
      if productId in items then items[productId] else null
    }

    /** Empties the cart and resets the stored total to 0. */
    method Clear()
      modifies this
      ensures items == map[] && total == Some(0)
      ensures View() == map[] && SumLineTotals(View()) == 0
    {
      items := map[];
      total := Some(0);
    }
  }
}
