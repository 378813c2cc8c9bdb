/**
  ShoppingCartController: each handler resolves the caller's user, runs its
  guards, and delegates to the store. Every handler wraps its body in a
  catch-all, so whatever the body throws, the deliberate "user not found",
  "bad quantity" and "not in cart" cases included, reaches the caller as an
  internal server error that keeps what was thrown as its cause.
 */
module Controllers {
  import opened Results
  import opened Models
  import opened CartDao
  import opened MySqlData

  /** What a handler's body can throw. */
  datatype Thrown =
    | UserNotFound            // no user by the principal's name
    | QuantityInvalid         // the request's quantity is missing or negative
    | NotInCart(productId: int)
    | StoreFailure            // a store call raised StoreError

  /** What a successful handler reports. */
  datatype Status = Created | NoContent

  /** A handler's reply: its value, or the internal server error its catch-all raises. */
  datatype Reply<+T> = Ok(body: T) | InternalServerError(cause: Thrown)

  class ShoppingCartController {
    const dao: MySqlShoppingCartDao
    /** userDao.getByUserName(name).getId(): the id of each known user name. */
    const users: map<string, int>

    constructor (dao: MySqlShoppingCartDao, users: map<string, int>)
      ensures this.dao == dao && this.users == users
    {
      this.dao := dao;
      this.users := users;
    }

    /** The caller's cart, read from the store. */
    method GetCart(principal: string, storeFails: bool) returns (r: Reply<ShoppingCart>)
      ensures principal !in users ==> r == InternalServerError(UserNotFound)
      ensures principal in users && storeFails ==> r == InternalServerError(StoreFailure)
      ensures principal in users && !storeFails ==>
        r.Ok? && fresh(r.body) && r.body.View() == CartOf(dao.rows, dao.catalog, users[principal])
    {
      if principal !in users {
        return InternalServerError(UserNotFound);
      }
      var userId := users[principal];
      var cart := dao.GetByUserId(userId, storeFails);
      if cart.Failure? {
        return InternalServerError(StoreFailure);
      }
      return Ok(cart.value);
    }

    /** Adds one of the product without checking that it exists, and reports Created. */
    method AddProductToCart(principal: string, productId: int, now: Timestamp, fault: Fault) returns (r: Reply<Status>)
      modifies dao
      ensures principal !in users ==> r == InternalServerError(UserNotFound) && dao.rows == old(dao.rows)
      ensures principal in users ==>
        if fault == NoFault then
          r == Ok(Created) && dao.rows == Incremented(old(dao.rows), users[principal], productId, now)
        else
          r == InternalServerError(StoreFailure) && dao.rows == old(dao.rows)
    {
      if principal !in users {
        return InternalServerError(UserNotFound);
      }
      var userId := users[principal];
      var done := dao.AddProductToCart(userId, productId, now, fault);
      if done.Fail? {
        return InternalServerError(StoreFailure);
      }
      return Ok(Created);
    }

    /** Sets the quantity of a product already in the caller's cart. The quantity must be present
        and non-negative (0 is accepted and stored); the product must be in the cart as read now. */
    method UpdateProductQuantity(principal: string, productId: int, quantity: Option<Int32>, now: Timestamp,
                                 readFails: bool, writeFails: bool) returns (r: Reply<Status>)
      modifies dao
      ensures r.InternalServerError? ==> dao.rows == old(dao.rows)
      ensures principal !in users ==> r == InternalServerError(UserNotFound)
      ensures principal in users && (quantity.None? || quantity.value < 0) ==> r == InternalServerError(QuantityInvalid)
      ensures principal in users && quantity.Some? && quantity.value >= 0 ==>
        var userId := users[principal];
        if readFails then r == InternalServerError(StoreFailure)
        else if productId !in CartOf(old(dao.rows), dao.catalog, userId) then r == InternalServerError(NotInCart(productId))
        else if writeFails then r == InternalServerError(StoreFailure)
        else r == Ok(NoContent) && dao.rows == QuantitySet(old(dao.rows), userId, productId, quantity.value, now)
    {
      if principal !in users {
        return InternalServerError(UserNotFound);
      }
      var userId := users[principal];
      if quantity.None? || quantity.value < 0 {
        return InternalServerError(QuantityInvalid);
      }
      var cart := dao.GetByUserId(userId, readFails);
      if cart.Failure? {
        return InternalServerError(StoreFailure);
      }
      if cart.value.GetByProductId(productId) == null {
        return InternalServerError(NotInCart(productId));
      }
      var done := dao.UpdateProductQuantity(userId, productId, quantity.value, now, writeFails);
      if done.Fail? {
        return InternalServerError(StoreFailure);
      }
      return Ok(NoContent);
    }

    /** Removes a product that is in the caller's cart as read now. */
    method RemoveProductFromCart(principal: string, productId: int, readFails: bool, writeFails: bool)
      returns (r: Reply<Status>)
      modifies dao
      ensures r.InternalServerError? ==> dao.rows == old(dao.rows)
      ensures principal !in users ==> r == InternalServerError(UserNotFound)
      ensures principal in users ==>
        var userId := users[principal];
        if readFails then r == InternalServerError(StoreFailure)
        else if productId !in CartOf(old(dao.rows), dao.catalog, userId) then r == InternalServerError(NotInCart(productId))
        else if writeFails then r == InternalServerError(StoreFailure)
        else r == Ok(NoContent) && dao.rows == Removed(old(dao.rows), userId, productId)
    {
      if principal !in users {
        return InternalServerError(UserNotFound);
      }
      var userId := users[principal];
      var cart := dao.GetByUserId(userId, readFails);
      if cart.Failure? {
        return InternalServerError(StoreFailure);
      }
      if cart.value.GetByProductId(productId) == null {
        return InternalServerError(NotInCart(productId));
      }
      var done := dao.RemoveProductFromCart(userId, productId, writeFails);
      if done.Fail? {
        return InternalServerError(StoreFailure);
      }
      return Ok(NoContent);
    }

    /** Empties the caller's cart; an empty cart is no error. */
    method ClearCart(principal: string, storeFails: bool) returns (r: Reply<Status>)
      modifies dao
      ensures principal !in users ==> r == InternalServerError(UserNotFound) && dao.rows == old(dao.rows)
      ensures principal in users ==>
        if storeFails then r == InternalServerError(StoreFailure) && dao.rows == old(dao.rows)
        else r == Ok(NoContent) && dao.rows == Cleared(old(dao.rows), users[principal])
    {
      if principal !in users {
        return InternalServerError(UserNotFound);
      }
      var userId := users[principal];
      var done := dao.ClearCart(userId, storeFails);
      if done.Fail? {
        return InternalServerError(StoreFailure);
      }
      return Ok(NoContent);
    }
  }

  /** Removing the same product twice: once the first removal succeeds, the second finds the
      product gone from the cart and fails. */
  method RemoveTwice(controller: ShoppingCartController, principal: string, productId: int)
    returns (first: Reply<Status>, second: Reply<Status>)
    modifies controller.dao
    ensures first == Ok(NoContent) ==> second == InternalServerError(NotInCart(productId))
  {
    first := controller.RemoveProductFromCart(principal, productId, false, false);
    if first == Ok(NoContent) {
      ghost var userId := controller.users[principal];
      RemoveOnlyThatProduct(old(controller.dao.rows), controller.dao.catalog, userId, productId, userId);
    }
    second := controller.RemoveProductFromCart(principal, productId, false, false);
  }

  /** A product the user has no row for: added twice it shows quantity 2 and its line total is
      twice its price; set to 5 it shows 5; removed, the table is back to what it was. */
  method AddAddSetRemove(controller: ShoppingCartController, principal: string, productId: int, now: Timestamp)
    returns (replies: seq<Reply<Status>>)
    requires principal in controller.users && productId in controller.dao.catalog
    requires (controller.users[principal], productId) !in controller.dao.rows
    modifies controller.dao
    ensures replies == [Ok(Created), Ok(Created), Ok(NoContent), Ok(NoContent)]
    ensures controller.dao.rows == old(controller.dao.rows)
  {
    var dao, userId := controller.dao, controller.users[principal];
    var price := dao.catalog[productId];
    var first := controller.AddProductToCart(principal, productId, now, NoFault);
    assert CartOf(dao.rows, dao.catalog, userId)[productId].quantity == 1;
    var second := controller.AddProductToCart(principal, productId, now, NoFault);
    var cart := CartOf(dao.rows, dao.catalog, userId);
    assert cart[productId] == PricedLine(Product(productId, price), 2);
    assert SumLineTotals(cart) == SumLineTotals(cart - {productId}) + 2 * price by {
      SumRemove(cart, productId);
    }
    var third := controller.UpdateProductQuantity(principal, productId, Some(5), now, false, false);
    assert CartOf(dao.rows, dao.catalog, userId)[productId].quantity == 5;
    var fourth := controller.RemoveProductFromCart(principal, productId, false, false);
    assert dao.rows == old(dao.rows);
    replies := [first, second, third, fourth];
  }
}
