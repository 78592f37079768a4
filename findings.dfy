/** Four places where store/views.py and store/serializer.py, as written,
    raise an exception at run time, where the neighbouring code and the
    commented-out earlier versions show what was meant. Each as-written member
    stands beside the corrected member that the rest of the model uses, with a
    lemma relating the two and a concrete input on which they differ. */
module AsWritten {
  import opened Models
  import opened Serializers
  import opened Views
  import Permissions

  /** The Python exceptions the four places raise. */
  datatype Exception = AttributeError | TypeError | FieldError

  /** How a request handler ends: it returns a value, or an exception escapes
      and the framework answers 500 Internal Server Error. */
  datatype Outcome<T> = Returned(value: T) | Raised(exception: Exception)

  function DeleteStatus(outcome: Outcome<DeleteOutcome>): (code: int)
    ensures outcome.Raised? <==> code == 500
  {
    match outcome
    case Returned(o) => StatusCode(o)
    case Raised(_) => 500
  }

  /** store/views.py:40 as written: the model class `OrderItem` has no
      attribute `products`, so the guard raises before it compares anything,
      whatever the tables hold. */
  function ProductDestroyAsWritten(orderItems: map<Key, OrderItem>, products: map<ProductId, Product>, pk: ProductId): (r: Outcome<DeleteOutcome>)
    ensures r.Raised? && DeleteStatus(r) == 500
  {
    Raised(AttributeError)
  }

  /** Wherever the intended guard lets a delete through, the code as written
      answers 500 instead of 204. */
  lemma ProductDestroyAsWrittenNeverDeletes(orderItems: map<Key, OrderItem>, products: map<ProductId, Product>, pk: ProductId)
    requires ProductDestroy(orderItems, products, pk) == Deleted
    ensures StatusCode(ProductDestroy(orderItems, products, pk)) == 204
    ensures DeleteStatus(ProductDestroyAsWritten(orderItems, products, pk)) == 500
  {
  }

  /** A product no order line names: the intended guard deletes it, the code
      as written fails. */
  lemma ProductDestroyCounterexample()
    ensures ProductDestroy(map[], map[7 := Product(1000, 1)], 7) == Deleted
    ensures ProductDestroyAsWritten(map[], map[7 := Product(1000, 1)], 7) == Raised(AttributeError)
  {
  }

  /** store/views.py:53 as written: a QuerySet compared with `0` by `>`
      raises TypeError in Python 3, whatever the tables hold. */
  function CollectionDestroyAsWritten(products: map<ProductId, Product>, collections: set<CollectionId>, pk: CollectionId): (r: Outcome<DeleteOutcome>)
    ensures r.Raised? && DeleteStatus(r) == 500
  {
    Raised(TypeError)
  }

  lemma CollectionDestroyAsWrittenNeverDeletes(products: map<ProductId, Product>, collections: set<CollectionId>, pk: CollectionId)
    requires CollectionDestroy(products, collections, pk) == Deleted
    ensures StatusCode(CollectionDestroy(products, collections, pk)) == 204
    ensures DeleteStatus(CollectionDestroyAsWritten(products, collections, pk)) == 500
  {
  }

  /** An empty collection: the intended guard deletes it, the code as written
      fails. */
  lemma CollectionDestroyCounterexample()
    ensures CollectionDestroy(map[], {4}, 4) == Deleted
    ensures CollectionDestroyAsWritten(map[], {4}, 4) == Raised(TypeError)
  {
  }

  /** store/serializer.py:149-155 as written: the empty-cart branch raises
      `serializers.ValueError`, a name the serializers module does not
      define, so the lookup itself raises AttributeError, which is no
      validation error and escapes as a 500. */
  function ValidateCartIdAsWritten(carts: set<CartId>, items: map<Key, CartItem>, cart: CartId): (r: Outcome<Result<CartId>>)
    ensures r.Raised? <==> cart in carts && forall k :: k in items ==> items[k].cart != cart
    ensures r.Raised? ==> r.exception == AttributeError
    ensures r.Returned? ==> r.value == ValidateCartId(carts, items, cart)
  {
    CountZeroIffNoLine(items, cart);
    if cart !in carts then Returned(Err(NoSuchCart))
    else if |LinesOfCart(items, cart)| == 0 then Raised(AttributeError)
    else Returned(Ok(cart))
  }

  /** The two validators differ exactly on the empty cart: the intended one
      refuses it with a validation error, the one as written raises. */
  lemma ValidatorsDifferOnlyOnEmptyCart(carts: set<CartId>, items: map<Key, CartItem>, cart: CartId)
    ensures ValidateCartIdAsWritten(carts, items, cart) != Returned(ValidateCartId(carts, items, cart)) <==>
              ValidateCartId(carts, items, cart) == Err(EmptyCart)
  {
  }

  lemma EmptyCartCounterexample()
    ensures ValidateCartId({3}, map[], 3) == Err(EmptyCart)
    ensures ValidateCartIdAsWritten({3}, map[], 3) == Raised(AttributeError)
  {
    CountZeroIffNoLine(map[], 3);
  }

  /** store/views.py:174-175 as written: `Customer` has no field
      `customer_id`, so for every non-staff user the lookup raises FieldError;
      staff get every order as intended. */
  function OrderQuerysetAsWritten(orders: map<Key, Order>, customers: map<Key, Customer>, user: Permissions.User): (r: Outcome<map<Key, Order>>)
    requires Permissions.IsAuthenticated(user)
    ensures r.Returned? <==> user.isStaff
    ensures r.Raised? ==> r.exception == FieldError
    ensures r.Returned? ==> r.value == OrdersVisibleTo(orders, customers, user)
  {
    if user.isStaff then Returned(orders) else Raised(FieldError)
  }

  /** A customer with one order: the intended listing shows it to its owner,
      the code as written fails. */
  lemma OrderListingCounterexample()
    ensures 0 in OrdersVisibleTo(map[0 := Order(0)], map[0 := Customer(5)], Permissions.Authenticated(5, false, {}))
    ensures OrderQuerysetAsWritten(map[0 := Order(0)], map[0 := Customer(5)], Permissions.Authenticated(5, false, {})) ==
            Raised(FieldError)
  {
  }
}
