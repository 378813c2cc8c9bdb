/**
  The ShoppingCartDao contract: the shopping_cart table as a finite map from
  (user id, product id) to a row, the effect of each store operation on that
  table, and the cart that reading the table yields.
 */
module CartDao {
  import opened Results
  import opened Models

  /** A row's key: (user_id, product_id), unique in the table. */
  type Key = (int, int)

  /** The formatted `date_added` stamp a write records; where it comes from is left out. */
  type Timestamp = string

  datatype Row = Row(quantity: Int32, dateAdded: Timestamp)

  /** The shopping_cart table. */
  type Table = map<Key, Row>

  /** The product lookup as the cart uses it: the price of each product id that exists. */
  type Catalog = map<int, Money>

  /** addProductToCart: one more of the product if the user has a row for it, else a new row with
      quantity 1; the row's stamp is refreshed either way and every other row stays. */
  function Incremented(t: Table, userId: int, productId: int, now: Timestamp): (r: Table)
    ensures r.Keys == t.Keys + {(userId, productId)}
    ensures (userId, productId) !in t ==> r[(userId, productId)] == Row(1, now)
    ensures (userId, productId) in t ==>
      r[(userId, productId)] == Row(Plus1(t[(userId, productId)].quantity), now)
    ensures forall k | k in t && k != (userId, productId) :: r[k] == t[k]
  {
    var key := (userId, productId);
    var quantity := if key in t then Plus1(t[key].quantity) else 1;
    t[key := Row(quantity, now)]
  }

  /** updateProductQuantity: the row's quantity becomes exactly the given one; without a row
      nothing changes; no other row is touched. */
  function QuantitySet(t: Table, userId: int, productId: int, quantity: Int32, now: Timestamp): (r: Table)
    ensures r.Keys == t.Keys
    ensures (userId, productId) in t ==> r[(userId, productId)] == Row(quantity, now)
    ensures (userId, productId) !in t ==> r == t
    ensures forall k | k in t && k != (userId, productId) :: r[k] == t[k]
  {
    var key := (userId, productId);
    if key in t then t[key := Row(quantity, now)] else t
  }

  /** removeProductFromCart: deletes that one key, if present. */
  function Removed(t: Table, userId: int, productId: int): (r: Table)
    ensures r.Keys == t.Keys - {(userId, productId)}
    ensures forall k | k in r :: r[k] == t[k]
  {
    t - {(userId, productId)}
  }

  /** clearCart: deletes every row of the user and keeps every row of other users. */
  function Cleared(t: Table, userId: int): (r: Table)
    ensures forall k :: k in r <==> k in t && k.0 != userId
    ensures forall k | k in r :: r[k] == t[k]
  {
    map k | k in t && k.0 != userId :: t[k]
  }

  /** The product ids of the user's rows. */
  function UserProducts(t: Table, userId: int): (ps: set<int>)
    ensures forall p :: p in ps <==> (userId, p) in t
  {
    set k | k in t && k.0 == userId :: k.1
  }

  /** The cart getByUserId builds: for each row of the user whose product exists, the product,
      the row's quantity and price times quantity; a row whose product is missing is skipped. */
  function CartOf(t: Table, catalog: Catalog, userId: int): (cart: map<int, ItemState>)
    ensures forall p :: p in cart <==> (userId, p) in t && p in catalog
  {
    map p | p in UserProducts(t, userId) && p in catalog ::
      PricedLine(Product(p, catalog[p]), t[(userId, p)].quantity)
  }

  /** Every line of a cart read from the store carries its product's details, the row's quantity,
      and a line total equal to price times quantity; the total is the sum of those products. */
  lemma CartLines(t: Table, catalog: Catalog, userId: int)
    ensures forall p | p in CartOf(t, catalog, userId) ::
      && CartOf(t, catalog, userId)[p].product == Some(Product(p, catalog[p]))
      && CartOf(t, catalog, userId)[p].quantity == t[(userId, p)].quantity
      && CartOf(t, catalog, userId)[p].lineTotal == Some(catalog[p] * t[(userId, p)].quantity)
    ensures SumLineTotals(CartOf(t, catalog, userId)) == PriceTimesQuantity(CartOf(t, catalog, userId))
  {
    SumOfPricedLines(CartOf(t, catalog, userId));
  }

  /** A user without rows gets an empty cart whose total is 0. */
  lemma EmptyCart(t: Table, catalog: Catalog, userId: int)
    requires forall k | k in t :: k.0 != userId
    ensures CartOf(t, catalog, userId) == map[]
    ensures SumLineTotals(CartOf(t, catalog, userId)) == 0
  {
    assert UserProducts(t, userId) == {};
  }

  /** addProductToCart does not look at the catalog: adding an unknown product creates a row,
      and that row is then invisible in the user's cart. */
  lemma AddUnknownProduct(t: Table, catalog: Catalog, userId: int, productId: int, now: Timestamp)
    requires productId !in catalog
    ensures (userId, productId) in Incremented(t, userId, productId, now)
    ensures CartOf(Incremented(t, userId, productId, now), catalog, userId) == CartOf(t, catalog, userId)
  {
  }

  /** Add seen in the user's cart: the product's line gets one more (Java int addition) or
      appears with quantity 1, and every other line of every user's cart stays as it was. */
  lemma AddToCart(t: Table, catalog: Catalog, userId: int, productId: int, now: Timestamp, other: int)
    requires productId in catalog
    ensures productId in CartOf(Incremented(t, userId, productId, now), catalog, userId)
    ensures CartOf(Incremented(t, userId, productId, now), catalog, userId)[productId].quantity
      == if (userId, productId) in t then Plus1(t[(userId, productId)].quantity) else 1
    ensures CartOf(Incremented(t, userId, productId, now), catalog, userId) - {productId}
      == CartOf(t, catalog, userId) - {productId}
    ensures other != userId ==>
      CartOf(Incremented(t, userId, productId, now), catalog, other) == CartOf(t, catalog, other)
  {
    var t' := Incremented(t, userId, productId, now);
    assert CartOf(t', catalog, userId)[productId].quantity == t'[(userId, productId)].quantity;
    AddTouchesOneRow(t, userId, productId, now);
    RemoveOnlyThatProduct(t, catalog, userId, productId, other);
    RemoveOnlyThatProduct(t', catalog, userId, productId, other);
    if other != userId {
      AddLeavesOtherCarts(t, catalog, userId, productId, now, other);
    }
  }

  /** Adding to one user's cart leaves another user's cart as it was. */
  lemma AddLeavesOtherCarts(t: Table, catalog: Catalog, userId: int, productId: int, now: Timestamp, other: int)
    requires other != userId
    ensures CartOf(Incremented(t, userId, productId, now), catalog, other) == CartOf(t, catalog, other)
  {
    var t' := Incremented(t, userId, productId, now);
    forall p
      ensures (other, p) in t <==> (other, p) in t'
      ensures (other, p) in t ==> t[(other, p)].quantity == t'[(other, p)].quantity
    {
      assert (other, p) != (userId, productId);
    }
    SameCartElsewhere(t, t', catalog, other);
  }

  /** Apart from the product's own row, adding leaves the table as it was. */
  lemma AddTouchesOneRow(t: Table, userId: int, productId: int, now: Timestamp)
    ensures Removed(Incremented(t, userId, productId, now), userId, productId) == Removed(t, userId, productId)
  {
  }

  /** Two tables that agree on a user's rows give that user the same cart. */
  lemma SameCartElsewhere(t: Table, t': Table, catalog: Catalog, userId: int)
    requires forall p :: (userId, p) in t <==> (userId, p) in t'
    requires forall p | (userId, p) in t :: t[(userId, p)].quantity == t'[(userId, p)].quantity
    ensures CartOf(t, catalog, userId) == CartOf(t', catalog, userId)
  {
    var a, b := CartOf(t, catalog, userId), CartOf(t', catalog, userId);
    forall p
      ensures (p in a <==> p in b) && (p in a ==> a[p] == b[p])
    {
      if p in a {
        assert t[(userId, p)].quantity == t'[(userId, p)].quantity;
      }
    }
  }

  /** Adding n times, starting from no row, leaves quantity n: every add counts, none resets to 1. */
  lemma {:induction false} RepeatedAdds(t: Table, userId: int, productId: int, now: Timestamp, n: nat)
    requires (userId, productId) !in t && 0 < n <= MAX_INT
    ensures (userId, productId) in AddTimes(t, userId, productId, now, n)
    ensures AddTimes(t, userId, productId, now, n)[(userId, productId)].quantity == n
  {
    if n > 1 {
      RepeatedAdds(t, userId, productId, now, n - 1);
    }
  }

  /** n consecutive addProductToCart calls for the same user and product. */
  function AddTimes(t: Table, userId: int, productId: int, now: Timestamp, n: nat): Table
  {
    if n == 0 then t else Incremented(AddTimes(t, userId, productId, now, n - 1), userId, productId, now)
  }

  /** Update: only that line of that user's cart changes,
      to a priced line with the new quantity, and only if it was there. */
  lemma UpdateOnlyThatProduct(t: Table, catalog: Catalog, userId: int, productId: int, quantity: Int32, now: Timestamp, other: int)
    ensures var before := CartOf(t, catalog, userId);
      CartOf(QuantitySet(t, userId, productId, quantity, now), catalog, userId)
      == if productId in before then before[productId := PricedLine(Product(productId, catalog[productId]), quantity)]
         else before
    ensures other != userId ==>
      CartOf(QuantitySet(t, userId, productId, quantity, now), catalog, other) == CartOf(t, catalog, other)
  {
  }

  /** Remove: the user's cart loses that line only; other carts stay. */
  lemma RemoveOnlyThatProduct(t: Table, catalog: Catalog, userId: int, productId: int, other: int)
    ensures CartOf(Removed(t, userId, productId), catalog, userId) == CartOf(t, catalog, userId) - {productId}
    ensures other != userId ==> CartOf(Removed(t, userId, productId), catalog, other) == CartOf(t, catalog, other)
  {
    var t' := Removed(t, userId, productId);
    var before, after := CartOf(t, catalog, userId), CartOf(t', catalog, userId);
    forall q
      ensures (q in after <==> q in before - {productId}) && (q in after ==> after[q] == before[q])
    {
      if q in after {
        assert t'[(userId, q)] == t[(userId, q)];
      }
    }
    assert after == before - {productId};
    if other != userId {
      SameCartElsewhere(t, t', catalog, other);
    }
  }

  /** Removing again changes nothing. */
  lemma RemoveIdempotent(t: Table, userId: int, productId: int)
    ensures Removed(Removed(t, userId, productId), userId, productId) == Removed(t, userId, productId)
  {
  }

  /** Clear: the user's cart is empty afterwards and every other user's cart stays. */
  lemma ClearAllItems(t: Table, catalog: Catalog, userId: int, other: int)
    ensures CartOf(Cleared(t, userId), catalog, userId) == map[]
    ensures other != userId ==> CartOf(Cleared(t, userId), catalog, other) == CartOf(t, catalog, other)
  {
    EmptyCart(Cleared(t, userId), catalog, userId);
    if other != userId {
      SameCartElsewhere(t, Cleared(t, userId), catalog, other);
    }
  }

  /** Clearing again changes nothing. */
  lemma ClearIdempotent(t: Table, userId: int)
    ensures Cleared(Cleared(t, userId), userId) == Cleared(t, userId)
  {
  }
}
