# Shop store core, modelled in Dafny

This project models the store of a Django REST shop. It covers:
- carts and their lines;
- the conversion of a cart into an order (checkout);
- the referential guards on deleting products and collections;
- the scoping of order listings to their owner;
- the request permission predicates.

The database is one `Store` object (module `Database`, store.dfy). It holds one map per table from primary key to record, plus a counter for each automatically numbered table. Its methods are the writing operations of store/serializer.py and store/views.py, each taken as one atomic step:
- add to cart;
- get-or-create customer;
- checkout;
- create review;
- delete product or collection.

`Store.Valid()` is the invariant every method keeps:
- every foreign key points at an existing row;
- there is at most one cart line per (cart, product);
- there is at most one customer per user;
- every key is below its table's counter.

Pure computations live in their own modules:
- models.dfy (`Models`): the records and the table lookups;
- serializers.dfy (`Serializers`): the line and cart totals, the price snapshot taken at checkout, and the two request validators;
- views.dfy (`Views`): the delete decisions, the listings, and the order endpoint's permission choice;
- permissions.dfy (`Permissions`): the permission classes of core/permissions.py.

Prices are integers in cents. The querysets of store/serializer.py:69 and 169-170 have no `order_by`, so the source leaves the order of a cart's lines unspecified. Visiting them in primary-key order is this model's choice. A cart's lines, and so its total, are the lines of the cart among the keys below the counter. That choice also fixes the order of the new order's lines (`Models.Placed`, `Database.Store.InsertOrderItems`).

An order line takes the product's unit price read at checkout (store/serializer.py:172-180), not the price when the item was added to the cart. A product repriced between the two is ordered at its new price.

Four places in the source raise an exception where the surrounding code shows what was meant. findings.dfy (`AsWritten`) models each one as written, next to the corrected behaviour that the rest of the model uses (see "## Findings").

The nested cart-items endpoint does not check that the cart in the URL exists (store/serializer.py:86-102). For a cart id that does not exist it simply inserts the row. The model has the database refuse that row, which is `ForeignKeyViolation`, and nothing changes. A guarded delete that is refused answers 405 Method Not Allowed (store/views.py:41, 54).

## Model

| member | source | states |
|---|---|---|
| Permissions.IsAdminOrReadOnly | core/permissions.py:4-8 | whether a request passes `IsAdminOrReadOnly`: a safe method, or a present staff user; an anonymous user passes exactly the safe methods |
| Permissions.HasPerm | core/permissions.py:15 | `user.has_perm(name)`: the name is in the user's permission set, which only a signed-in user has |
| Permissions.ViewCustomerHistoryPermission | core/permissions.py:12-15 | whether a request passes `ViewCustomerHistoryPermission`; it never passes without a signed-in user |
| Permissions.SafeMethodsAlwaysPermitted | core/permissions.py:6-7 | GET, HEAD and OPTIONS pass `IsAdminOrReadOnly` for every user, anonymous included |
| Permissions.UnsafeMethodPermittedIffStaff | core/permissions.py:8 | any other method passes exactly when the user is present and staff |
| Permissions.StaffPermittedEveryMethod | core/permissions.py:6-8 | a staff user passes for every method |
| Permissions.NonStaffDeniedUnsafeMethods | core/permissions.py:8 | a non-staff or anonymous user is refused every non-safe method |
| Permissions.HistoryIffPermissionHeld | core/permissions.py:12-15 | customer history is granted exactly when the user holds `store.view_history`, so never to an anonymous user |
| Models.FindLine | store/serializer.py:90-92 | the lookup of a cart's line for a product yields a key of a line with that cart and product, or none exists |
| Models.FindCustomer | store/views.py:110-111 | the lookup of a user's customer yields a key of a customer of that user, or none exists |
| Models.LinesOfCart | store/views.py:96-97 | the cart-items listing holds exactly the lines whose cart is the cart in the URL, unchanged |
| Models.CartListingMatchesLines | store/views.py:96-97 | the listing and the key-ordered lines the total is taken over hold the same lines |
| Models.CartLinesBelow | store/serializer.py:68-69 | `cart.items.all()` over the keys below a bound, in key order: no more lines than keys, every one of them a line of that cart |
| Models.CartLinesExactly | store/serializer.py:68-69 | `cart.items.all()` in key order holds exactly the table's lines of that cart |
| Models.CartLinesEmptyIffNoLine | store/serializer.py:152 | a cart has no lines exactly when no line of the table names it |
| Models.CountZeroIffNoLine | store/serializer.py:152 | `count() == 0` on the cart's lines holds exactly when no line names the cart |
| Models.InsertAppendsLine | store/serializer.py:99-100 | a new line is appended to its own cart's lines and leaves every other cart's lines as they were |
| Models.UpdateKeepsOtherCarts | store/serializer.py:94-95 | saving a changed line in place leaves every other cart's lines as they were |
| Models.InsertKeepsLinesUnique | store/serializer.py:97-100 | creating a line for a (cart, product) pair that has none keeps one line per pair |
| Models.RemovalKeepsLinesUnique | store/serializer.py:185 | deleting lines keeps one line per (cart, product) pair |
| Models.RemoveKeepsOtherCarts | store/serializer.py:185 | deleting one cart's lines leaves every other cart's lines as they were |
| Models.LinesOfProduct | store/views.py:43 | the lines a product delete takes with it are exactly those naming the product |
| Models.Placed | store/serializer.py:182 | `bulk_create` gives the i-th new order line the key base + i and no other key |
| Models.NoLinesOfAbsentOrder | store/serializer.py:167 | an order that no row names has no lines |
| Models.BulkInsertLines | store/serializer.py:182 | after the bulk insert, the new order's lines below base + j are the first j of the batch, in order |
| Models.BulkInsertListsBatch | store/serializer.py:182 | after the bulk insert, the new order lists exactly the batch and the keys stay below the counter |
| Serializers.LineTotal | store/serializer.py:52-53 | `CartItemSerializer.get_total_price`: quantity times the product's current unit price, so 0 for no units or a free product |
| Serializers.CartTotalBelow | store/serializer.py:68-69 | `CartSerializer.get_total_price` over a cart's lines below a bound; a cart with no line totals 0 |
| Serializers.LinesTotal | store/serializer.py:68-69 | an empty cart totals 0 |
| Serializers.LinesTotalSnoc | store/serializer.py:52-53 | one more line adds its quantity times its product's unit price to the total |
| Serializers.LinesTotalNonNegative | store/serializer.py:68-69 | with no negative quantity or price the total is not negative |
| Serializers.CartTotalExample | store/serializer.py:68-69 | two units at 5.00 and one at 3.00 total 13.00 |
| Serializers.CartTotalStep | store/serializer.py:68-69 | the cart total over one more key adds that key's line total when the line is in the cart |
| Serializers.CartLinesPriced | store/serializer.py:53 | every line of a cart has its product in the product table, so its price can be read |
| Serializers.MergeAddsToTotal | store/serializer.py:93-95 | adding q to an existing line raises its cart's total by q times the product's unit price |
| Serializers.InsertAddsToTotal | store/serializer.py:99-100 | a new line raises its cart's total by its line total |
| Serializers.SnapshotLine | store/serializer.py:174-179 | the order line for a cart line: same order, product and quantity, and a copied price such that its quantity times price is the cart line's total |
| Serializers.Snapshot | store/serializer.py:172-180 | one order line per cart line, in the same order, with the product and quantity copied and the product's current unit price |
| Serializers.SnapshotSnoc | store/serializer.py:172-180 | snapshotting one more cart line appends its order line |
| Serializers.SnapshotKeepsTotal | store/serializer.py:172-180 | the order lines total exactly what the cart totalled at that moment |
| Serializers.ValidateProductId | store/serializer.py:80-83 | the product id is accepted exactly when the product exists, and otherwise refused as `NoSuchProduct` |
| Serializers.ValidateCartId | store/serializer.py:148-155 | a missing cart gives `NoSuchCart`, an existing cart with no line gives `EmptyCart`, and the cart is accepted exactly when it exists and holds a line |
| Views.OrderItemRefs | store/views.py:244 | the number of order lines naming the product is positive exactly when one exists |
| Views.ProductRefs | store/views.py:339 | the number of products in the collection is positive exactly when one exists |
| Views.ProductDestroy | store/views.py:39-43 | 405 exactly when an order line names the product; otherwise 204 when it exists and 404 when not |
| Views.CollectionDestroy | store/views.py:52-56 | 405 exactly when a product is in the collection; otherwise 204 when it exists and 404 when not |
| Views.OrdersVisibleTo | store/views.py:165-176 | staff see every order; anybody else sees exactly the orders whose customer belongs to them, unchanged |
| Views.ListingsOfDistinctUsersAreDisjoint | store/views.py:173-176 | no order shows in the listings of two different non-staff users |
| Views.ReviewsOf | store/views.py:62-63 | the review listing holds exactly the reviews of the product in the URL, unchanged |
| Views.OrderPermissions | store/views.py:136-139 | exactly one permission class is returned |
| Views.Grants | store/views.py:136-139 | whether one permission class lets the user through: none without a signed-in user, every one for a staff user |
| Views.OrderRequestAllowed | store/views.py:136-139 | an order request passes when every returned permission class grants it, which needs a signed-in user |
| Views.OrderAccessRule | store/views.py:136-139 | PATCH and DELETE on orders take a staff user; every other method takes only a signed-in user |
| Database.Store.CartTotal | store/serializer.py:68-69 | the cart's `total_price` over its current lines; a cart with no line totals 0 |
| Database.Store.AddCartItem | store/serializer.py:80-102 | an unknown product is refused with no change; an existing line for the pair gets the quantity added, with no new line; otherwise exactly one new line with that cart, product and quantity; one line per pair is kept; the cart total rises by quantity times price; other carts are untouched |
| Database.Store.MergeLine | store/serializer.py:91-96 | the existing line's quantity grows by the amount, the line count stays, and the total rises by amount times price |
| Database.Store.InsertLine | store/serializer.py:97-100 | one new line under the next key, the line count grows by one, and the total rises by the line total |
| Database.Store.GetOrCreateCustomer | store/views.py:110-111 | returns the user's one customer record; nothing changes when it exists, and otherwise exactly one record is added under the next key |
| Database.MeIsIdempotent | store/views.py:110-111 | two `me` calls for one user return the same customer and add at most one record |
| Database.Store.CreateOrder | store/serializer.py:167 | a new order of that customer under the next key, other orders unchanged |
| Database.Store.OrderItemsFor | store/serializer.py:169-180 | the batch is the price snapshot of the cart's lines in key order |
| Database.Store.InsertOrderItems | store/serializer.py:182 | the batch is added under fresh keys and the new order lists exactly the batch |
| Database.Store.DeleteCart | store/serializer.py:185 | the cart and exactly its lines are gone and every other cart's lines are unchanged |
| Database.Store.CreateOrderFromCart | store/serializer.py:167-182 | a new order whose lines are the snapshot of the cart and whose total equals the cart's total |
| Database.Store.OpenOrder | store/serializer.py:163-182 | the order belongs to the caller's get-or-created customer and holds the cart's snapshot |
| Database.Store.PlaceOrder | store/serializer.py:157-187 | one order line per cart line at the then-current price, order total equal to the cart total before checkout, the order owned by the caller, the cart and its lines gone, other carts and earlier orders unchanged |
| Database.Store.Checkout | store/serializer.py:148-187 | a missing or empty cart is refused with no state change; otherwise all of PlaceOrder's guarantees hold |
| Database.CheckoutThenList | store/views.py:165-176 | the order a user has just placed shows in that user's order listing |
| Database.AddTwiceMerges | store/serializer.py:90-100 | adding a product twice, 2 units then 3, leaves one line of 5 units |
| Database.AddFirstInserts | store/serializer.py:97-100 | adding a product the cart has no line for inserts exactly one line under a fresh key |
| Database.AddAgainMerges | store/serializer.py:90-96 | adding a product the cart already has a line for adds to that line, answers with its key, and inserts nothing |
| Database.Store.OrderQueryset | store/views.py:165-176 | staff get every order and change nothing; anybody else gets their customer record, with the customers table unchanged when one exists and otherwise exactly one record of theirs added under the next key, and gets exactly that customer's orders, including every order they owned before |
| Database.Store.CreateReview | store/serializer.py:29-36 | a request body whose `product` is absent or names no existing product is refused as `NoSuchProduct` with no change; a URL product that does not exist is refused by the database with no change; otherwise the review is stored under the next key with the product from the URL, which overrides the body's, and it then appears in that product's listing |
| Database.Store.DestroyProduct | store/views.py:39-43 | the outcome is the guard's decision; when deleted, the product, its cart lines and its reviews go and nothing else does; otherwise nothing changes |
| Database.Store.RemoveLinesOfProduct | store/views.py:43 | exactly the cart lines naming the product are deleted |
| Database.Store.RemoveReviewsOf | store/views.py:43 | exactly the reviews of the product are deleted |
| Database.Store.RemoveProduct | store/views.py:43 | a product no row refers to is deleted and the invariant still holds |
| Database.Store.DestroyCollection | store/views.py:52-56 | the outcome is the guard's decision; a collection is deleted only when no product is in it; otherwise nothing changes |
| AsWritten.ProductDestroyAsWritten | store/views.py:40 | the guard as written always raises AttributeError (status 500) |
| AsWritten.ProductDestroyAsWrittenNeverDeletes | store/views.py:39-43 | wherever the intended guard answers 204, the code as written answers 500 |
| AsWritten.ProductDestroyCounterexample | store/views.py:40 | a product named by no order line is deleted by the intended guard, while the code as written raises |
| AsWritten.CollectionDestroyAsWritten | store/views.py:53 | the guard as written always raises TypeError (status 500) |
| AsWritten.CollectionDestroyAsWrittenNeverDeletes | store/views.py:52-56 | wherever the intended guard answers 204, the code as written answers 500 |
| AsWritten.CollectionDestroyCounterexample | store/views.py:53 | an empty collection is deleted by the intended guard, while the code as written raises |
| AsWritten.ValidateCartIdAsWritten | store/serializer.py:148-155 | raises AttributeError exactly for an existing empty cart, and otherwise agrees with the intended validator |
| AsWritten.ValidatorsDifferOnlyOnEmptyCart | store/serializer.py:152-153 | the written and intended validators differ exactly where the intended one answers `EmptyCart` |
| AsWritten.EmptyCartCounterexample | store/serializer.py:152-153 | an existing cart with no lines is refused by the intended validator, while the code as written raises |
| AsWritten.OrderQuerysetAsWritten | store/views.py:165-176 | returns a listing exactly for staff, equal to the intended one; for everybody else it raises FieldError |
| AsWritten.OrderListingCounterexample | store/views.py:174-175 | a customer's own order shows in the intended listing, while the code as written raises |

## Left out

- `ProductSerializer.calculate_tax` (store/serializer.py:25-26) multiplies by a `Decimal` built from a float. It is floating point and is not modelled.
- Pagination, filter backends, search and ordering (store/views.py:31-37) are framework features and are not modelled. Listings are maps, so they carry no order.
- Transactions and concurrency are left out: checkout is one atomic method, and no two requests interleave.
- `placed_at` and `payment_status` of an order, the profile fields of a customer, and the titles, descriptions and dates of products and reviews are not modelled. No modelled behaviour depends on them.
- The PUT branch of `CustomerViewSet.me` (store/views.py:117-121) updates the profile fields. Those fields are not modelled, so only the get-or-create at store/views.py:110-111 is.
- The `history` action body (store/views.py:125-126) only answers "Ok". Only its permission predicate is modelled.
- `has_perm` is modelled as membership in the user's permission set. Superuser, group and inactive-user rules are not modelled.
- store/models.py is not part of this model. So:
  - quantity validators, if any, are not modelled, and quantities are unconstrained integers;
  - the delete behaviour of the foreign keys is an assumption: deleting a product takes its cart lines and reviews with it, and deleting a cart takes its lines with it;
  - order lines are protected only by the guard in store/views.py.
- Cart ids are UUIDs in the database. Here they are natural numbers, because only their identity matters.
- Database.Store.CreateReview: the body's `product` field is treated as required. That holds unless store/models.py makes the foreign key optional, and that file is not part of this model. The stored review always takes the URL's product, because `create` passes `product_id` from the URL. The request's other fields, such as `date`, are not modelled.
- Creating, retrieving and deleting a cart, changing or deleting a cart line, and `UpdateOrderSerializer` are plain framework create/update/delete with no logic of this code. They are not modelled.
- Response formatting is not modelled beyond the status codes of the delete guards. This covers nested serializers and the `created` flag of get-or-create.
- Database.Store.Checkout: that products, reviews and collections are unchanged follows from its `modifies` clause and is not repeated as a postcondition.

## Findings

| source | as written | input that shows it | evidently intended | confidence | as-written member | corrected member |
|---|---|---|---|---|---|---|
| store/views.py:40 | `OrderItem.products` names no attribute of the model class, so every permitted product DELETE raises AttributeError and answers 500 | product 7 with no order line (AsWritten.ProductDestroyCounterexample) | refuse with 405 while `product.orderitems.count() > 0`, as at store/views.py:244, else delete | not executed | AsWritten.ProductDestroyAsWritten | Views.ProductDestroy |
| store/views.py:53 | a QuerySet is compared with `0` by `>`, which raises TypeError in Python 3, so every permitted collection DELETE answers 500 | empty collection 4 (AsWritten.CollectionDestroyCounterexample) | refuse with 405 while `collection.products.count() > 0`, as at store/views.py:339, else delete | not executed | AsWritten.CollectionDestroyAsWritten | Views.CollectionDestroy |
| store/serializer.py:153 | `serializers.ValueError` is no name of the serializers module, so an empty cart at checkout raises AttributeError and answers 500 | existing cart 3 with no line (AsWritten.EmptyCartCounterexample) | an empty-cart validation error, like the missing-cart branch above it | not executed | AsWritten.ValidateCartIdAsWritten | Serializers.ValidateCartId |
| store/views.py:174 | `get_or_create(customer_id=user.id)` names a field `Customer` does not have, so every non-staff order listing raises FieldError | user 5 owning order 0 (AsWritten.OrderListingCounterexample) | `get_or_create(user_id=user.id)`, as at store/views.py:110 and store/serializer.py:163-164, then that customer's orders | not executed | AsWritten.OrderQuerysetAsWritten | Database.Store.OrderQueryset |
