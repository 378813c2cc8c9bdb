/**
  MySqlShoppingCartDao: the shopping_cart table held as a map that each
  operation updates in place, and the product lookup it reads to build a cart.
  A failing SQL call is a parameter of each operation: the operation then
  raises StoreError and the table is as it was before the call.
 */
module MySqlData {
  import opened Results
  import opened Models
  import opened CartDao

  /** The RuntimeException each store operation raises when its SQL fails. */
  datatype StoreError = StoreError

  /** Where addProductToCart's transaction breaks off, if it does. */
  datatype Fault =
    | NoFault
    | FailsBeforeWrite   // the connection or the existence check fails: nothing was written
    | FailsAfterWrite    // the insert or update ran, then the commit fails

  class MySqlShoppingCartDao {
    /** The shopping_cart table. */
    var rows: Table
    /** ProductDao.getById: the products that exist, with their prices. */
    const catalog: Catalog

    constructor (catalog: Catalog, rows: Table)
      ensures this.catalog == catalog && this.rows == rows
    {
      this.catalog := catalog;
      this.rows := rows;
    }

    /** Builds a fresh cart from the user's rows, one item per row whose product exists; a row
        whose product is missing is skipped, not an error. Reads the table without changing it. */
    method GetByUserId(userId: int, storeFails: bool) returns (r: Result<ShoppingCart, StoreError>)
      ensures r.Failure? <==> storeFails
      ensures r.Success? ==>
        && fresh(r.value)
        && r.value.View() == CartOf(rows, catalog, userId)
    {
      if storeFails {
        return Failure(StoreError);
      }
      var cart := new ShoppingCart();
      ghost var expected := CartOf(rows, catalog, userId);
      var pending := UserProducts(rows, userId);
      ghost var done: set<int> := {};
      while pending != {}
        invariant pending !! done && pending + done == UserProducts(rows, userId)
        invariant fresh(cart)
        invariant cart.View() == Restrict(expected, done)
        decreases pending
      {
        HasElement(pending);
        var productId :| productId in pending;
        var quantity := rows[(userId, productId)].quantity;
        AddRow(cart, productId, quantity);
        RestrictOneMore(expected, done, productId);
        pending := pending - {productId};
        done := done + {productId};
      }
      assert done == UserProducts(rows, userId);
      assert expected.Keys <= done;
      assert Restrict(expected, done) == expected;
      return Success(cart);
    }

    /** One pass of getByUserId's loop: the row's item, if its product exists, goes into the cart. */
    method AddRow(cart: ShoppingCart, productId: int, quantity: Int32)
      modifies cart
      ensures cart.View() == if productId in catalog
        then old(cart.View())[productId := PricedLine(Product(productId, catalog[productId]), quantity)]
        else old(cart.View())
    {
      var item := MapRowToShoppingCartItem(productId, quantity);
      if item != null {
        cart.AddProduct(item);
      }
    }

    /** The item for one row: null when the product does not exist, otherwise a new item with the
        product, the row's quantity and price times quantity. */
    method MapRowToShoppingCartItem(productId: int, quantity: Int32) returns (item: ShoppingCartItem?)
      ensures item == null <==> productId !in catalog
      ensures item != null ==>
        fresh(item) && item.State() == PricedLine(Product(productId, catalog[productId]), quantity)
    {
      if productId !in catalog {
        return null;
      }
      var product := Product(productId, catalog[productId]);
      item := new ShoppingCartItem();
      item.SetProduct(Some(product));
      item.SetQuantity(quantity);
      item.SetLineTotal(Some(product.price * quantity));
    }

    /** One transaction: read the row, then update it to one more or insert it with quantity 1,
        then commit. A failure at any point rolls back, leaving the table exactly as before. The
        product lookup is not consulted. */
    method AddProductToCart(userId: int, productId: int, now: Timestamp, fault: Fault) returns (r: Outcome<StoreError>)
      modifies this
      ensures r.Pass? <==> fault == NoFault
      ensures rows == if r.Pass? then Incremented(old(rows), userId, productId, now) else old(rows)
    {
      if fault == FailsBeforeWrite {
        return Fail(StoreError);
      }
      var snapshot := rows;
      var key := (userId, productId);
      if key in rows {
        var currentQuantity := rows[key].quantity;
        rows := rows[key := Row(Plus1(currentQuantity), now)];
      } else {
        rows := rows[key := Row(1, now)];
      }
      if fault == FailsAfterWrite {
        rows := snapshot;
        return Fail(StoreError);
      }
      r := Pass;
    }

    /** One UPDATE statement: sets the quantity of an existing row; creates no row. */
    method UpdateProductQuantity(userId: int, productId: int, quantity: Int32, now: Timestamp, storeFails: bool)
      returns (r: Outcome<StoreError>)
      modifies this
      ensures r.Pass? <==> !storeFails
      ensures rows == if r.Pass? then QuantitySet(old(rows), userId, productId, quantity, now) else old(rows)
    {
      if storeFails {
        return Fail(StoreError);
      }
      var key := (userId, productId);
      if key in rows {
        rows := rows[key := Row(quantity, now)];
      }
      r := Pass;
    }

    /** One DELETE statement on the (user, product) key. */
    method RemoveProductFromCart(userId: int, productId: int, storeFails: bool) returns (r: Outcome<StoreError>)
      modifies this
      ensures r.Pass? <==> !storeFails
      ensures rows == if r.Pass? then Removed(old(rows), userId, productId) else old(rows)
    {
      if storeFails {
        return Fail(StoreError);
      }
      rows := rows - {(userId, productId)};
      r := Pass;
    }

    /** One DELETE statement on all of the user's rows. */
    method ClearCart(userId: int, storeFails: bool) returns (r: Outcome<StoreError>)
      modifies this
      ensures r.Pass? <==> !storeFails
      ensures rows == if r.Pass? then Cleared(old(rows), userId) else old(rows)
    {
      if storeFails {
        return Fail(StoreError);
      }
      rows := map k | k in rows && k.0 != userId :: rows[k];
      r := Pass;
    }
  }
}
