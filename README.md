# Shopping-cart model of EasyShop

This project models the shopping-cart core of the EasyShop e-commerce backend in Dafny.
The model has four layers.

- **The cart store** (`MySqlShoppingCartDao`). The `shopping_cart` table is a finite map
  from (user id, product id) to a row: a quantity and a `date_added` stamp.
  - Add is one transaction. It increments the user's row for the product, or inserts a row
    with quantity 1, and a failure rolls the table back.
  - Update overwrites the quantity of an existing row only.
  - Remove deletes one key. Clear deletes every key of the user.
  - Reading builds a cart from the user's rows. Each row whose product exists becomes an
    item with line total = price × quantity. A row whose product is missing is skipped.
- **The store's contract** (`ShoppingCartDao`). Module `CartDao` gives each store operation
  as a function on the table, plus lemmas that state the interface's promises about the
  user's cart.
- **The in-memory cart** (`ShoppingCart`, `ShoppingCartItem`). Both are classes whose
  methods update their fields in place. `GetTotal` recomputes the sum of the non-null line
  totals on every call and never reads the stored `total` field.
- **The controller** (`ShoppingCartController`). Each handler resolves the caller's user,
  runs its guards, then calls the store.
  - Update requires a present, non-negative quantity.
  - Update and remove require the product to be in the cart as read now.
  - Add checks nothing about the product.
  - Every handler catches everything its body throws, including its own deliberate
    "not found" and "bad request" cases. Each of those reaches the caller as
    `InternalServerError(cause)`.

Representation choices:
- Amounts (`BigDecimal`) are exact integers (`Money`). A nullable amount is an `Option`.
- Quantities are Java `int`s (`Int32`). The store's `currentQuantity + 1` wraps at
  2147483647, and `Plus1` models that wrap.
- A failing SQL call is an input of each operation: a `bool`, or a `Fault` for the
  transaction.
- The clock is an input (`now`).
- The product lookup is the store's `catalog`, a map from product id to price.
- The user lookup is the controller's `users`, a map from user name to user id.

Behaviour of the code that the model keeps:
- Add does not consult the product lookup: adding an unknown product inserts a row (see
  `CartDao.AddUnknownProduct`).
- Update with quantity 0 keeps a row with quantity 0.
- Every handler failure, the deliberate not-found and bad-request cases included, reaches
  the caller as `InternalServerError(cause)`.

## Model

| member | source | states |
|---|---|---|
| Models.Plus1 | src/main/java/org/yearup/data/mysql/MySqlShoppingCartDao.java:90-92 | Java's `currentQuantity + 1` is the 32-bit value congruent to q + 1 modulo 2^32; below the maximum it is exactly q + 1 |
| Models.SumRemove | src/main/java/org/yearup/models/ShoppingCart.java:28-39 | the cart total does not depend on the order in which the items are summed: it is any one item's contribution plus the total of the rest |
| Models.SumUpdate | src/main/java/org/yearup/models/ShoppingCart.java:47-53 | storing an item under a product id replaces that id's old contribution to the total by the new item's |
| Models.SumSkipsNull | src/main/java/org/yearup/models/ShoppingCart.java:33-35 | an item whose line total is null leaves the total as if the item were absent |
| Models.SumOfPricedLines | src/main/java/org/yearup/models/ShoppingCart.java:28-39 | when every line total is price × quantity, the total is the sum of price × quantity over the items |
| Models.ShoppingCartItem.constructor | src/main/java/org/yearup/models/ShoppingCartItem.java:12-17 | the default item has a new default product, quantity 0 and line total 0 |
| Models.ShoppingCartItem.WithFields | src/main/java/org/yearup/models/ShoppingCartItem.java:21-25 | the full constructor stores exactly the given product, quantity and line total |
| Models.ShoppingCartItem.SetProduct | src/main/java/org/yearup/models/ShoppingCartItem.java:32-34 | the product becomes the given one; quantity and line total are unchanged |
| Models.ShoppingCartItem.SetQuantity | src/main/java/org/yearup/models/ShoppingCartItem.java:40-42 | the quantity becomes the given one; product and line total are unchanged |
| Models.ShoppingCartItem.SetLineTotal | src/main/java/org/yearup/models/ShoppingCartItem.java:57-59 | the line total becomes the given one; product and quantity are unchanged |
| Models.ShoppingCart.constructor | src/main/java/org/yearup/models/ShoppingCart.java:14-17 | a new cart has no items, a stored total of 0, and a computed total of 0 |
| Models.ShoppingCart.GetTotal | src/main/java/org/yearup/models/ShoppingCart.java:28-39 | the loop returns the sum of the non-null line totals of all items (0 for no items), whatever order the items are visited in |
| Models.ShoppingCart.SetTotal | src/main/java/org/yearup/models/ShoppingCart.java:41-44 | only the stored total changes; the items, and so what GetTotal returns, stay the same |
| Models.ShoppingCart.AddProduct | src/main/java/org/yearup/models/ShoppingCart.java:47-53 | an item with a product is stored under its product id, replacing any earlier item there, with every other key unchanged, and the stored total becomes the recomputed total; a null item or an item without product changes nothing |
| Models.ShoppingCart.GetByProductId | src/main/java/org/yearup/models/ShoppingCart.java:56-58 | returns the item stored under the id, and null exactly when there is none |
| Models.ShoppingCart.Clear | src/main/java/org/yearup/models/ShoppingCart.java:61-64 | no items remain, the stored total is 0 and the computed total is 0 |
| CartDao.Incremented | src/main/java/org/yearup/data/mysql/MySqlShoppingCartDao.java:88-107 | add: without a row for (user, product) exactly one row is inserted, with quantity 1; with one its quantity becomes old + 1 (Java int addition), not reset to 1; the stamp is refreshed; every other row is unchanged |
| CartDao.QuantitySet | src/main/java/org/yearup/data/mysql/MySqlShoppingCartDao.java:124-138 | update: an existing row's quantity becomes exactly the given one; an absent row is not created; the key set and every other row are unchanged |
| CartDao.Removed | src/main/java/org/yearup/data/mysql/MySqlShoppingCartDao.java:147-156 | remove: exactly the key (user, product) is deleted; the other rows are unchanged |
| CartDao.Cleared | src/main/java/org/yearup/data/mysql/MySqlShoppingCartDao.java:165-173 | clear: a row remains exactly when it belongs to another user, and it is unchanged |
| CartDao.UserProducts | src/main/java/org/yearup/data/mysql/MySqlShoppingCartDao.java:32-34 | the query's product ids are exactly those of the user's rows |
| CartDao.CartOf | src/main/java/org/yearup/data/mysql/MySqlShoppingCartDao.java:42-58 | the read cart has a line for a product exactly when the user has a row for it and the product exists; rows with a missing product are skipped |
| CartDao.CartLines | src/main/java/org/yearup/data/ShoppingCartDao.java:8-9 | every line of the read cart carries its product's details and the row's quantity, with line total = price × quantity; the cart total is the sum of price × quantity |
| CartDao.EmptyCart | src/main/java/org/yearup/data/mysql/MySqlShoppingCartDao.java:31-42 | a user with no rows gets an empty cart with total 0 |
| CartDao.AddUnknownProduct | src/main/java/org/yearup/data/mysql/MySqlShoppingCartDao.java:69-110 | add never consults the catalog: a row is created for a product that does not exist, and that row does not show in the user's cart |
| CartDao.AddToCart | src/main/java/org/yearup/data/ShoppingCartDao.java:11-13 | after add, the product's line in the user's cart has the old quantity + 1, or 1 if it was not there; the user's other lines and every other user's cart are unchanged |
| CartDao.AddLeavesOtherCarts | src/main/java/org/yearup/data/mysql/MySqlShoppingCartDao.java:98-106 | adding to one user's cart leaves every other user's cart unchanged |
| CartDao.AddTouchesOneRow | src/main/java/org/yearup/data/mysql/MySqlShoppingCartDao.java:88-107 | apart from the (user, product) key, the table after add is the table before |
| CartDao.SameCartElsewhere | src/main/java/org/yearup/data/mysql/MySqlShoppingCartDao.java:42-58 | the read cart depends only on the user's own rows and their quantities |
| CartDao.RepeatedAdds | src/main/java/org/yearup/data/ShoppingCartDao.java:11-13 | n adds in a row, starting from no row and with n at most 2147483647, leave quantity exactly n: every add counts and none resets the quantity |
| CartDao.UpdateOnlyThatProduct | src/main/java/org/yearup/data/ShoppingCartDao.java:15-16 | update changes only that product's line in that user's cart, to a priced line with the new quantity, and only if the line was there; other users' carts are unchanged |
| CartDao.RemoveOnlyThatProduct | src/main/java/org/yearup/data/ShoppingCartDao.java:18-19 | remove takes exactly that product's line out of the user's cart; other users' carts are unchanged |
| CartDao.RemoveIdempotent | src/main/java/org/yearup/data/mysql/MySqlShoppingCartDao.java:147-156 | removing the same key a second time changes nothing |
| CartDao.ClearAllItems | src/main/java/org/yearup/data/ShoppingCartDao.java:21-22 | after clear, the user's cart is empty and every other user's cart is unchanged |
| CartDao.ClearIdempotent | src/main/java/org/yearup/data/mysql/MySqlShoppingCartDao.java:165-173 | clearing the same user a second time changes nothing |
| MySqlData.MySqlShoppingCartDao.constructor | src/main/java/org/yearup/data/mysql/MySqlShoppingCartDao.java:23-27 | the store starts with the given table and the given product lookup |
| MySqlData.MySqlShoppingCartDao.GetByUserId | src/main/java/org/yearup/data/mysql/MySqlShoppingCartDao.java:29-66 | on success, a new cart whose items are exactly CartOf of the table; on an SQL failure, an error and no cart; the table is never changed |
| MySqlData.MySqlShoppingCartDao.AddRow | src/main/java/org/yearup/data/mysql/MySqlShoppingCartDao.java:43-57 | one loop step of the read: the row's priced item is stored under its product id when the product exists; otherwise the cart is unchanged |
| MySqlData.MySqlShoppingCartDao.MapRowToShoppingCartItem | src/main/java/org/yearup/data/mysql/MySqlShoppingCartDao.java:181-198 | null exactly when the product is missing; otherwise a new item with the product, the row's quantity and price × quantity |
| MySqlData.MySqlShoppingCartDao.AddProductToCart | src/main/java/org/yearup/data/mysql/MySqlShoppingCartDao.java:68-121 | all or nothing: without a fault the table becomes Incremented of the old table; with a fault before or after the write, an error is raised and the table is exactly as before |
| MySqlData.MySqlShoppingCartDao.UpdateProductQuantity | src/main/java/org/yearup/data/mysql/MySqlShoppingCartDao.java:123-144 | the table becomes QuantitySet of the old table, or, on an SQL failure, stays as it was and an error is raised |
| MySqlData.MySqlShoppingCartDao.RemoveProductFromCart | src/main/java/org/yearup/data/mysql/MySqlShoppingCartDao.java:146-162 | the table becomes Removed of the old table, or, on an SQL failure, stays as it was and an error is raised |
| MySqlData.MySqlShoppingCartDao.ClearCart | src/main/java/org/yearup/data/mysql/MySqlShoppingCartDao.java:164-179 | the table becomes Cleared of the old table, or, on an SQL failure, stays as it was and an error is raised |
| Controllers.ShoppingCartController.constructor | src/main/java/org/yearup/controllers/ShoppingCartController.java:33-37 | the controller uses the given store and user lookup |
| Controllers.ShoppingCartController.GetCart | src/main/java/org/yearup/controllers/ShoppingCartController.java:44-69 | an unknown user or a store failure gives an internal server error with that cause; otherwise the reply is a new cart equal to CartOf for the user |
| Controllers.ShoppingCartController.AddProductToCart | src/main/java/org/yearup/controllers/ShoppingCartController.java:76-93 | a known user always reaches the store's increment-or-insert, with no catalog check, and gets Created; an unknown user or a store fault gives an internal server error and leaves the table as it was |
| Controllers.ShoppingCartController.UpdateProductQuantity | src/main/java/org/yearup/controllers/ShoppingCartController.java:101-131 | the checks run in order: unknown user, then missing or negative quantity, then read failure, then product not in the cart as read, then write failure; each gives an internal server error with that cause and changes nothing. Otherwise exactly that quantity, 0 included, is stored and the reply is NoContent |
| Controllers.ShoppingCartController.RemoveProductFromCart | src/main/java/org/yearup/controllers/ShoppingCartController.java:138-160 | the checks run in order: unknown user, then read failure, then product not in the cart as read, then write failure; each gives an internal server error with that cause and changes nothing. Otherwise exactly that row is deleted and the reply is NoContent |
| Controllers.ShoppingCartController.ClearCart | src/main/java/org/yearup/controllers/ShoppingCartController.java:168-185 | for a known user without store failure it always succeeds, an empty cart included, and the user's rows are gone; otherwise an internal server error and no change |
| Controllers.RemoveTwice | src/main/java/org/yearup/controllers/ShoppingCartController.java:147-153 | once a removal succeeds, removing the same product again fails with "not in cart" |
| Controllers.AddAddSetRemove | src/main/java/org/yearup/controllers/ShoppingCartController.java:76-160 | for a product the user has no row for, the sequence add, add, set 5, remove succeeds at every step and leaves the table exactly as it was |

## Left out

- The token provider (signing, parsing and expiry of tokens), the user store's own logic
  (password hashing, account creation), and the product and category controllers are not
  part of this model. The user lookup is a map from name to id, and the product lookup is a
  map from id to price. A lookup that throws is not modelled.
- The `ShoppingCartDao` interface is not a separate Dafny type, because this model has no
  interfaces. Its contract is stated once in module `CartDao`. The MySQL class is its one
  implementation, and each of its methods ensures that the table becomes the matching
  `CartDao` function of the old table.
- JDBC connections, statements, result-set mechanics and error logging are not modelled.
  Each SQL failure is an input flag. Some failure points are not modelled:
  - a failure midway through reading the rows (it throws like an up-front failure);
  - a statement's `close` failing after an auto-committed write.
- The `date_added` stamp is an input string. It is not read from the wall clock.
- Concurrency and transaction isolation are not modelled. The model is sequential, so it
  makes no claim about lost updates under parallel requests. The add transaction is modelled
  only as all-or-nothing.
- HTTP, Spring security annotations and the principal object are not modelled. A handler's
  outcome is a `Reply`, and the principal is its user name. The messages of the thrown
  exceptions are not modelled.
- `Product` is reduced to its id and price. `Product.java` is not part of this model. The
  product that `new Product()` makes is modelled as id 0 and price 0.
- `ShoppingCart.getItems`, `setItems` and the item's `toString` are not modelled. The items
  map is therefore never null, and `getTotal`'s null check on it always passes. Getters are
  plain field reads.
- The order in which `getByUserId` visits the user's rows is not modelled. The rows are
  visited in an arbitrary order, and the resulting cart does not depend on it.
- `getByUserId` builds each item with the same steps as `mapRowToShoppingCartItem`. The
  model calls the latter rather than repeating them.
- MySqlData.MySqlShoppingCartDao.GetByUserId: does not state the value of the cart's stored
  `total` field. Nothing reads that field: `getTotal` always recomputes the total.
