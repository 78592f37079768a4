/** The decisions the endpoints of store/views.py take without changing the
    tables: whether a delete may go ahead, which rows a listing shows, and
    which permission an order request needs. */
module Views {
  import opened Models
  import opened Permissions

  /** How a DELETE ends: 204 No Content, 405 Method Not Allowed (the row is
      still referenced), or 404 Not Found. */
  datatype DeleteOutcome = Deleted | NotAllowed | NotFound

  function StatusCode(outcome: DeleteOutcome): (code: int)
  {
    match outcome
    case Deleted => 204
    case NotAllowed => 405
    case NotFound => 404
  }

  /** `product.orderitems.count()`: how many order lines name the product. */
  function OrderItemRefs(orderItems: map<Key, OrderItem>, product: ProductId): (r: nat)
    ensures r > 0 <==> exists k :: k in orderItems && orderItems[k].product == product
  {
    var refs := set k | k in orderItems && orderItems[k].product == product;
    assert |refs| > 0 <==> exists k :: k in orderItems && orderItems[k].product == product by {
      SizePositiveIffMember(refs);
      if exists k :: k in orderItems && orderItems[k].product == product {
        var k :| k in orderItems && orderItems[k].product == product;
        assert k in refs;
      }
    }
    |refs|
  }

  /** `collection.products.count()`: how many products sit in the collection. */
  function ProductRefs(products: map<ProductId, Product>, collection: CollectionId): (r: nat)
    ensures r > 0 <==> exists p :: p in products && products[p].collection == collection
  {
    var refs := set p | p in products && products[p].collection == collection;
    assert |refs| > 0 <==> exists p :: p in products && products[p].collection == collection by {
      SizePositiveIffMember(refs);
      if exists p :: p in products && products[p].collection == collection {
        var p :| p in products && products[p].collection == collection;
        assert p in refs;
      }
    }
    |refs|
  }

  /** `ProductViewSet.destroy`: refused while an order line names the product,
      otherwise the framework's delete, which needs the product to exist. */
  function ProductDestroy(orderItems: map<Key, OrderItem>, products: map<ProductId, Product>, pk: ProductId): (r: DeleteOutcome)
    ensures r == NotAllowed <==> exists k :: k in orderItems && orderItems[k].product == pk
    ensures r == Deleted <==> pk in products && forall k :: k in orderItems ==> orderItems[k].product != pk
    ensures r == NotFound <==> pk !in products && forall k :: k in orderItems ==> orderItems[k].product != pk
  {
    if OrderItemRefs(orderItems, pk) > 0 then NotAllowed
    else if pk in products then Deleted
    else NotFound
  }

  /** `CollectionViewSet.destroy`: refused while a product is in the
      collection, otherwise the framework's delete. */
  function CollectionDestroy(products: map<ProductId, Product>, collections: set<CollectionId>, pk: CollectionId): (r: DeleteOutcome)
    ensures r == NotAllowed <==> exists p :: p in products && products[p].collection == pk
    ensures r == Deleted <==> pk in collections && forall p :: p in products ==> products[p].collection != pk
    ensures r == NotFound <==> pk !in collections && forall p :: p in products ==> products[p].collection != pk
  {
    if ProductRefs(products, pk) > 0 then NotAllowed
    else if pk in collections then Deleted
    else NotFound
  }

  /** The order belongs to a customer record of `user`. */
  ghost predicate OwnedBy(order: Order, customers: map<Key, Customer>, user: UserId)
  {
    order.customer in customers && customers[order.customer].user == user
  }

  /** `OrderViewSet.get_queryset`: staff see every order, anybody else the
      orders of their own customer record. */
  function OrdersVisibleTo(orders: map<Key, Order>, customers: map<Key, Customer>, user: User): (r: map<Key, Order>)
    requires IsAuthenticated(user)
    ensures user.isStaff ==> r == orders
    ensures !user.isStaff ==> forall o :: o in r <==> o in orders && OwnedBy(orders[o], customers, user.id)
    ensures forall o :: o in r ==> o in orders && r[o] == orders[o]
  {
    if user.isStaff then orders
    else map o | o in orders && orders[o].customer in customers && customers[orders[o].customer].user == user.id :: orders[o]
  }

  /** An order's owner is one user, so no order shows in the listings of two
      different non-staff users. */
  lemma ListingsOfDistinctUsersAreDisjoint(orders: map<Key, Order>, customers: map<Key, Customer>, u: User, v: User)
    requires IsAuthenticated(u) && IsAuthenticated(v) && !u.isStaff && !v.isStaff && u.id != v.id
    ensures OrdersVisibleTo(orders, customers, u).Keys !! OrdersVisibleTo(orders, customers, v).Keys
  {
  }

  /** `ReviewViewSet.get_queryset`: the reviews of the product in the URL. */
  function ReviewsOf(reviews: map<Key, Review>, product: ProductId): (r: map<Key, Review>)
    ensures forall k :: k in r <==> k in reviews && reviews[k].product == product
    ensures forall k :: k in r ==> r[k] == reviews[k]
  {
    map k | k in reviews && reviews[k].product == product :: reviews[k]
  }

  /** The permission classes `OrderViewSet.get_permissions` returns. */
  datatype PermissionClass = AdminUserRequired | AuthenticationRequired

  /** Whether one permission class lets the user through. */
  predicate Grants(permission: PermissionClass, user: User)
    ensures Grants(permission, user) ==> IsAuthenticated(user)
    ensures IsAdminUser(user) ==> Grants(permission, user)
  {
    match permission
    case AdminUserRequired => IsAdminUser(user)
    case AuthenticationRequired => IsAuthenticated(user)
  }

  function OrderPermissions(verb: string): (r: seq<PermissionClass>)
    ensures |r| == 1
  {
    if verb in ["PATCH", "DELETE"] then [AdminUserRequired] else [AuthenticationRequired]
  }

  /** A request passes when every returned permission class grants it. */
  predicate OrderRequestAllowed(verb: string, user: User)
    ensures OrderRequestAllowed(verb, user) ==> IsAuthenticated(user)
  {
    var permissions := OrderPermissions(verb);
    assert Grants(permissions[0], user) ==> IsAuthenticated(user);
    forall i :: 0 <= i < |permissions| ==> Grants(permissions[i], user)
  }

  /** Changing or deleting an order takes a staff user; every other order
      request takes only a signed-in user. */
  lemma OrderAccessRule(verb: string, user: User)
    ensures OrderRequestAllowed(verb, user) <==>
              IsAuthenticated(user) && (verb == "PATCH" || verb == "DELETE" ==> user.isStaff)
  {
    var permissions := OrderPermissions(verb);
    assert permissions[0] in permissions;
  }
}
