/** The shop's database as one object: a map per table from primary key to
    record, a counter per automatically numbered table, and the operations of
    store/serializer.py and store/views.py that write to it. Each operation
    runs as one step, so the database transactions around them (and the
    races they guard against) are not modelled. */
module Database {
  import opened Models
  import opened Serializers
  import opened Views
  import Permissions

  class Store {
    var products: map<ProductId, Product>
    var collections: set<CollectionId>
    var carts: set<CartId>
    var cartItems: map<Key, CartItem>
    var customers: map<Key, Customer>
    var orders: map<Key, Order>
    var orderItems: map<Key, OrderItem>
    var reviews: map<Key, Review>
    var nextCartItem: nat
    var nextCustomer: nat
    var nextOrder: nat
    var nextOrderItem: nat
    var nextReview: nat

    /** Every reference points at an existing row, at most one cart line per
        (cart, product), at most one customer per user, and every key is
        below its table's counter. */
    ghost predicate Valid()
      reads this
    {
      CatalogueValid() && CartsValid() && CustomersValid() && OrdersValid() && OrderItemsValid()
    }

    /** Products sit in existing collections; reviews are of existing products. */
    ghost predicate CatalogueValid()
      reads this`products, this`collections, this`reviews, this`nextReview
    {
      && (forall p :: p in products ==> products[p].collection in collections)
      && (forall k :: k in reviews ==> reviews[k].product in products)
      && KeysBelow(reviews, nextReview)
    }

    ghost predicate CartsValid()
      reads this`carts, this`cartItems, this`nextCartItem, this`products
    {
      && KeysBelow(cartItems, nextCartItem)
      && (forall k :: k in cartItems ==> cartItems[k].cart in carts)
      && Priced(cartItems, products)
      && UniqueLines(cartItems)
    }

    ghost predicate CustomersValid()
      reads this`customers, this`nextCustomer
    {
      KeysBelow(customers, nextCustomer) && UniqueCustomers(customers)
    }

    ghost predicate OrdersValid()
      reads this`orders, this`nextOrder, this`customers
    {
      && KeysBelow(orders, nextOrder)
      && (forall k :: k in orders ==> orders[k].customer in customers)
    }

    ghost predicate OrderItemsValid()
      reads this`orderItems, this`nextOrderItem, this`orders, this`products
    {
      && KeysBelow(orderItems, nextOrderItem)
      && (forall k :: k in orderItems ==> orderItems[k].order in orders)
      && (forall k :: k in orderItems ==> orderItems[k].product in products)
    }

    constructor ()
      ensures Valid()
      ensures products == map[] && collections == {} && carts == {} && cartItems == map[]
      ensures customers == map[] && orders == map[] && orderItems == map[] && reviews == map[]
    {
      products, collections, carts, cartItems := map[], {}, {}, map[];
      customers, orders, orderItems, reviews := map[], map[], map[], map[];
      nextCartItem, nextCustomer, nextOrder, nextOrderItem, nextReview := 0, 0, 0, 0, 0;
    }

    /** The lines of a cart, in key order. */
    function CartLines(cart: CartId): (r: seq<CartItem>)
      reads this`cartItems, this`nextCartItem
    {
      CartLinesBelow(cartItems, cart, nextCartItem)
    }

    /** What the cart endpoint reports as `total_price`. */
    function CartTotal(cart: CartId): (r: int)
      reads this`cartItems, this`nextCartItem, this`products
      requires Priced(cartItems, products)
      ensures CartLines(cart) == [] ==> r == 0
    {
      CartTotalBelow(cartItems, products, cart, nextCartItem)
    }

    /** The lines of an order, in key order. */
    function OrderLines(order: Key): (r: seq<OrderItem>)
      reads this`orderItems, this`nextOrderItem
    {
      OrderLinesBelow(orderItems, order, nextOrderItem)
    }

    function OrderTotal(order: Key): (r: int)
      reads this`orderItems, this`nextOrderItem
    {
      ItemsTotal(OrderLines(order))
    }

    /** `AddCartItemSerializer`: validate the product id, then either add the
        quantity to the cart's existing line for that product or insert a new
        line. */
    method AddCartItem(cart: CartId, product: ProductId, quantity: int) returns (r: Result<Key>)
      requires Valid()
      modifies this`cartItems, this`nextCartItem
      ensures Valid()
      ensures product !in products ==> r == Err(NoSuchProduct)
      ensures product in products && cart !in carts ==> r == Err(ForeignKeyViolation)
      ensures r.Ok? <==> product in products && cart in carts
      ensures r.Err? ==> cartItems == old(cartItems) && nextCartItem == old(nextCartItem)
      ensures r.Ok? && HasLine(old(cartItems), cart, product) ==>
                && r.value in old(cartItems)
                && old(cartItems)[r.value].cart == cart && old(cartItems)[r.value].product == product
                && cartItems == old(cartItems)[r.value := CartItem(cart, product, old(cartItems)[r.value].quantity + quantity)]
                && |cartItems| == |old(cartItems)|
                && nextCartItem == old(nextCartItem)
      ensures r.Ok? && !HasLine(old(cartItems), cart, product) ==>
                && r.value == old(nextCartItem) && r.value !in old(cartItems)
                && cartItems == old(cartItems)[r.value := CartItem(cart, product, quantity)]
                && |cartItems| == |old(cartItems)| + 1
                && nextCartItem == old(nextCartItem) + 1
      ensures r.Ok? ==> CartTotal(cart) == old(CartTotal(cart)) + quantity * products[product].unitPrice
      ensures forall c :: c != cart ==> CartLines(c) == old(CartLines(c))
    {
      var valid := ValidateProductId(products, product);
      if valid.Err? {
        return Err(valid.error);
      }
      var found := FindLine(cartItems, cart, product, nextCartItem);
      if found.Some? {
        MergeLine(found.value, quantity);
        r := Ok(found.value);
      } else if cart !in carts {
        r := Err(ForeignKeyViolation);
      } else {
        var k := InsertLine(cart, product, quantity);
        r := Ok(k);
      }
    }

    /** The update branch of `AddCartItemSerializer.save`: line `k` gets
        `quantity` more. */
    method MergeLine(k: Key, quantity: int)
      requires Valid() && k in cartItems && k < nextCartItem
      modifies this`cartItems
      ensures Valid()
      ensures cartItems == old(cartItems)[k := old(cartItems)[k].(quantity := old(cartItems)[k].quantity + quantity)]
      ensures |cartItems| == |old(cartItems)|
      ensures CartTotal(cartItems[k].cart) ==
              old(CartTotal(cartItems[k].cart)) + quantity * products[cartItems[k].product].unitPrice
      ensures forall c :: c != cartItems[k].cart ==> CartLines(c) == old(CartLines(c))
    {
      var line := cartItems[k];
      var merged := line.(quantity := line.quantity + quantity);
      MergeAddsToTotal(cartItems, products, k, quantity, nextCartItem);
      forall c | c != line.cart ensures CartLinesBelow(cartItems[k := merged], c, nextCartItem) == CartLines(c) {
        UpdateKeepsOtherCarts(cartItems, k, merged, c, nextCartItem);
      }
      InsertSize(cartItems, k, merged);
      cartItems := cartItems[k := merged];
    }

    /** The create branch of `AddCartItemSerializer.save`: a new line under
        the next key. */
    method InsertLine(cart: CartId, product: ProductId, quantity: int) returns (k: Key)
      requires Valid() && cart in carts && product in products && !HasLine(cartItems, cart, product)
      modifies this`cartItems, this`nextCartItem
      ensures Valid()
      ensures k == old(nextCartItem) && k !in old(cartItems)
      ensures cartItems == old(cartItems)[k := CartItem(cart, product, quantity)]
      ensures |cartItems| == |old(cartItems)| + 1
      ensures nextCartItem == old(nextCartItem) + 1
      ensures CartTotal(cart) == old(CartTotal(cart)) + quantity * products[product].unitPrice
      ensures forall c :: c != cart ==> CartLines(c) == old(CartLines(c))
    {
      k := nextCartItem;
      var line := CartItem(cart, product, quantity);
      var after := cartItems[k := line];
      InsertAddsToTotal(cartItems, products, line, k);
      forall c | c != cart ensures CartLinesBelow(after, c, k + 1) == CartLines(c) {
        InsertAppendsLine(cartItems, line, c, k);
      }
      InsertSize(cartItems, k, line);
      InsertKeepsLinesUnique(cartItems, k, line);
      cartItems, nextCartItem := after, k + 1;
    }

    /** `Customer.objects.get_or_create(user_id=user)`, as `CustomerViewSet.me`
        and checkout run it: the user's customer record, created when there is
        none. */
    method GetOrCreateCustomer(user: UserId) returns (id: Key)
      requires Valid()
      modifies this`customers, this`nextCustomer
      ensures Valid()
      ensures id in customers && customers[id].user == user
      ensures forall k :: k in customers && customers[k].user == user ==> k == id
      ensures HasCustomer(old(customers), user) ==>
                customers == old(customers) && nextCustomer == old(nextCustomer)
      ensures !HasCustomer(old(customers), user) ==>
                && id == old(nextCustomer) && id !in old(customers)
                && customers == old(customers)[id := Customer(user)]
                && nextCustomer == old(nextCustomer) + 1
    {
      var found := FindCustomer(customers, user, nextCustomer);
      if found.Some? {
        id := found.value;
      } else {
        id := nextCustomer;
        customers := customers[id := Customer(user)];
        nextCustomer := nextCustomer + 1;
      }
    }

    /** `Order.objects.create(customer=customer)`. */
    method CreateOrder(customer: Key) returns (order: Key)
      requires Valid() && customer in customers
      modifies this`orders, this`nextOrder
      ensures Valid()
      ensures order == old(nextOrder) && order !in old(orders)
      ensures orders == old(orders)[order := Order(customer)]
      ensures nextOrder == old(nextOrder) + 1
    {
      order := nextOrder;
      orders := orders[order := Order(customer)];
      nextOrder := nextOrder + 1;
    }

    /** The list comprehension of `CreateOrderSerializer.save`: each line of
        the cart, with its product joined, becomes an order line of `order`. */
    method OrderItemsFor(cart: CartId, order: Key) returns (batch: seq<OrderItem>)
      requires Valid()
      ensures PricedLines(CartLines(cart), products) && batch == Snapshot(CartLines(cart), products, order)
    {
      batch := [];
      var k := 0;
      while k < nextCartItem
        invariant k <= nextCartItem
        invariant PricedLines(CartLinesBelow(cartItems, cart, k), products)
        invariant batch == Snapshot(CartLinesBelow(cartItems, cart, k), products, order)
      {
        ghost var lines := CartLinesBelow(cartItems, cart, k);
        CartLinesPriced(cartItems, products, cart, k + 1);
        if k in cartItems && cartItems[k].cart == cart {
          var item := cartItems[k];
          SnapshotSnoc(lines, item, products, order);
          assert CartLinesBelow(cartItems, cart, k + 1) == lines + [item];
          batch := batch + [OrderItem(order, item.product, item.quantity, products[item.product].unitPrice)];
        } else {
          assert CartLinesBelow(cartItems, cart, k + 1) == lines;
        }
        k := k + 1;
      }
    }

    /** `OrderItem.objects.bulk_create(batch)`: the lines of a new order take
        the next keys, in the batch's order. */
    method InsertOrderItems(order: Key, batch: seq<OrderItem>)
      requires Valid() && order in orders
      requires forall k :: k in orderItems ==> orderItems[k].order != order
      requires forall i :: 0 <= i < |batch| ==> batch[i].order == order
      requires forall i :: 0 <= i < |batch| ==> batch[i].product in products
      modifies this`orderItems, this`nextOrderItem
      ensures Valid()
      ensures orderItems == old(orderItems) + Placed(batch, old(nextOrderItem))
      ensures nextOrderItem == old(nextOrderItem) + |batch|
      ensures OrderLines(order) == batch
    {
      var base := nextOrderItem;
      var after := orderItems + Placed(batch, base);
      BulkInsertListsBatch(orderItems, base, batch, order);
      assert OrderLinesBelow(after, order, base + |batch|) == batch;
      orderItems, nextOrderItem := after, base + |batch|;
    }

    /** `Cart.objects.filter(pk=cart).delete()`, which takes the cart's lines
        with it. */
    method DeleteCart(cart: CartId)
      requires Valid()
      modifies this`carts, this`cartItems
      ensures Valid()
      ensures carts == old(carts) - {cart}
      ensures cartItems == old(cartItems) - LinesOfCart(old(cartItems), cart).Keys
      ensures CartLines(cart) == []
      ensures forall c :: c != cart ==> CartLines(c) == old(CartLines(c))
    {
      forall c | c != cart ensures CartLinesBelow(cartItems - LinesOfCart(cartItems, cart).Keys, c, nextCartItem) == CartLines(c) {
        RemoveKeepsOtherCarts(cartItems, cart, c, nextCartItem);
      }
      RemovalKeepsLinesUnique(cartItems, LinesOfCart(cartItems, cart).Keys);
      cartItems := cartItems - LinesOfCart(cartItems, cart).Keys;
      carts := carts - {cart};
      CartLinesEmptyIffNoLine(cartItems, cart, nextCartItem);
    }

    /** Create an order for `customer` and copy the lines of `cart` into it at
        the products' current prices. */
    method CreateOrderFromCart(cart: CartId, customer: Key) returns (order: Key)
      requires Valid() && customer in customers
      modifies this`orders, this`nextOrder, this`orderItems, this`nextOrderItem
      ensures Valid()
      ensures order == old(nextOrder) && order !in old(orders)
      ensures orders == old(orders)[order := Order(customer)]
      ensures PricedLines(CartLines(cart), products)
      ensures OrderLines(order) == Snapshot(CartLines(cart), products, order)
      ensures orderItems == old(orderItems) + Placed(OrderLines(order), old(nextOrderItem))
      ensures OrderTotal(order) == CartTotal(cart)
    {
      ghost var ordersBefore := orders;
      order := CreateOrder(customer);
      assert forall k :: k in orderItems ==> orderItems[k].order in ordersBefore;
      var batch := OrderItemsFor(cart, order);
      SnapshotKeepsTotal(CartLines(cart), products, order);
      InsertOrderItems(order, batch);
    }

    /** Get or create the customer of `user` and give it a new order holding
        the lines of `cart`. */
    method OpenOrder(cart: CartId, user: UserId) returns (order: Key)
      requires Valid()
      modifies this`customers, this`nextCustomer, this`orders, this`nextOrder,
               this`orderItems, this`nextOrderItem
      ensures Valid()
      ensures order == old(nextOrder) && order !in old(orders) && order in orders
      ensures orders == old(orders)[order := orders[order]]
      ensures OwnedBy(orders[order], customers, user)
      ensures HasCustomer(old(customers), user) ==> customers == old(customers)
      ensures !HasCustomer(old(customers), user) ==> customers == old(customers)[old(nextCustomer) := Customer(user)]
      ensures PricedLines(CartLines(cart), products)
      ensures OrderLines(order) == Snapshot(CartLines(cart), products, order)
      ensures orderItems == old(orderItems) + Placed(OrderLines(order), old(nextOrderItem))
      ensures OrderTotal(order) == CartTotal(cart)
    {
      var customer := GetOrCreateCustomer(user);
      order := CreateOrderFromCart(cart, customer);
    }

    /** The body of `CreateOrderSerializer.save` for a cart that passed
        validation: get or create the caller's customer, create the order,
        copy every cart line into an order line at the product's current
        price, and delete the cart with its lines. */
    method PlaceOrder(cart: CartId, user: UserId) returns (order: Key)
      requires Valid()
      modifies this`customers, this`nextCustomer, this`orders, this`nextOrder,
               this`orderItems, this`nextOrderItem, this`carts, this`cartItems
      ensures Valid()
      ensures order == old(nextOrder) && order !in old(orders) && order in orders
      ensures orders == old(orders)[order := orders[order]]
      ensures OwnedBy(orders[order], customers, user)
      ensures HasCustomer(old(customers), user) ==> customers == old(customers)
      ensures !HasCustomer(old(customers), user) ==> customers == old(customers)[old(nextCustomer) := Customer(user)]
      ensures PricedLines(old(CartLines(cart)), products)
      ensures OrderLines(order) == Snapshot(old(CartLines(cart)), products, order)
      ensures orderItems == old(orderItems) + Placed(OrderLines(order), old(nextOrderItem))
      ensures OrderTotal(order) == old(CartTotal(cart))
      ensures carts == old(carts) - {cart}
      ensures cartItems == old(cartItems) - LinesOfCart(old(cartItems), cart).Keys
      ensures CartLines(cart) == []
      ensures forall c :: c != cart ==> CartLines(c) == old(CartLines(c))
    {
      order := OpenOrder(cart, user);
      DeleteCart(cart);
    }

    /** `CreateOrderSerializer`: validate the cart id, then place the order. */
    method Checkout(cart: CartId, user: UserId) returns (r: Result<Key>)
      requires Valid()
      modifies this`customers, this`nextCustomer, this`orders, this`nextOrder,
               this`orderItems, this`nextOrderItem, this`carts, this`cartItems
      ensures Valid()
      ensures cart !in old(carts) ==> r == Err(NoSuchCart)
      ensures cart in old(carts) && old(CartLines(cart)) == [] ==> r == Err(EmptyCart)
      ensures r.Ok? <==> cart in old(carts) && old(CartLines(cart)) != []
      ensures r.Err? ==> unchanged(this)
      ensures r.Ok? ==> r.value == old(nextOrder) && r.value !in old(orders) && r.value in orders
      ensures r.Ok? ==> orders == old(orders)[r.value := orders[r.value]]
      ensures r.Ok? ==> OwnedBy(orders[r.value], customers, user)
      ensures r.Ok? && HasCustomer(old(customers), user) ==> customers == old(customers)
      ensures r.Ok? && !HasCustomer(old(customers), user) ==>
                customers == old(customers)[old(nextCustomer) := Customer(user)]
      ensures r.Ok? ==>
                && PricedLines(old(CartLines(cart)), products)
                && OrderLines(r.value) == Snapshot(old(CartLines(cart)), products, r.value)
      ensures r.Ok? ==> orderItems == old(orderItems) + Placed(OrderLines(r.value), old(nextOrderItem))
      ensures r.Ok? ==> OrderTotal(r.value) == old(CartTotal(cart))
      ensures r.Ok? ==> carts == old(carts) - {cart}
      ensures r.Ok? ==> cartItems == old(cartItems) - LinesOfCart(old(cartItems), cart).Keys
      ensures r.Ok? ==> CartLines(cart) == []
      ensures r.Ok? ==> forall c :: c != cart ==> CartLines(c) == old(CartLines(c))
    {
      CartLinesEmptyIffNoLine(cartItems, cart, nextCartItem);
      var valid := ValidateCartId(carts, cartItems, cart);
      if valid.Err? {
        return Err(valid.error);
      }
      var order := PlaceOrder(cart, user);
      r := Ok(order);
    }

    /** `OrderViewSet.get_queryset`: staff see every order; anybody else first
        gets or creates their customer record and sees that customer's orders. */
    method OrderQueryset(user: Permissions.User) returns (r: map<Key, Order>)
      requires Valid() && Permissions.IsAuthenticated(user)
      modifies this`customers, this`nextCustomer
      ensures Valid()
      ensures r == OrdersVisibleTo(orders, customers, user)
      ensures user.isStaff ==> customers == old(customers) && nextCustomer == old(nextCustomer)
      ensures !user.isStaff ==> exists id :: id in customers && customers[id].user == user.id &&
                                 forall o :: o in r <==> o in orders && orders[o].customer == id
      ensures !user.isStaff && HasCustomer(old(customers), user.id) ==>
                customers == old(customers) && nextCustomer == old(nextCustomer)
      ensures !user.isStaff && !HasCustomer(old(customers), user.id) ==>
                && old(nextCustomer) !in old(customers)
                && customers == old(customers)[old(nextCustomer) := Customer(user.id)]
                && nextCustomer == old(nextCustomer) + 1
      ensures forall o :: o in old(orders) && OwnedBy(old(orders)[o], old(customers), user.id) ==> o in r
    {
      if user.isStaff {
        return orders;
      }
      var id := GetOrCreateCustomer(user.id);
      r := map o | o in orders && orders[o].customer == id :: orders[o];
    }

    /** `ReviewViewSet` create with `ReviewSerializer`: the `product` field of
        the request body is validated first and must name an existing product;
        `create` then stores the review under the product named in the URL,
        which overrides the body's. */
    method CreateReview(product: ProductId, bodyProduct: Option<ProductId>, name: string, description: string)
      returns (r: Result<Key>)
      requires Valid()
      modifies this`reviews, this`nextReview
      ensures Valid()
      ensures bodyProduct.None? || bodyProduct.value !in products ==>
                r == Err(NoSuchProduct) && reviews == old(reviews) && nextReview == old(nextReview)
      ensures bodyProduct.Some? && bodyProduct.value in products && product !in products ==>
                r == Err(ForeignKeyViolation) && reviews == old(reviews) && nextReview == old(nextReview)
      ensures r.Ok? <==> bodyProduct.Some? && bodyProduct.value in products && product in products
      ensures r.Ok? ==>
                && r.value == old(nextReview) && r.value !in old(reviews)
                && reviews == old(reviews)[r.value := Review(product, name, description)]
                && nextReview == old(nextReview) + 1
                && r.value in ReviewsOf(reviews, product)
    {
      if bodyProduct.None? || bodyProduct.value !in products {
        return Err(NoSuchProduct);
      }
      if product !in products {
        return Err(ForeignKeyViolation);
      }
      var k := nextReview;
      reviews := reviews[k := Review(product, name, description)];
      nextReview := nextReview + 1;
      r := Ok(k);
    }

    /** `ProductViewSet.destroy`: refused while an order line names the
        product; otherwise the product goes, and with it its cart lines and
        reviews. */
    method DestroyProduct(pk: ProductId) returns (r: DeleteOutcome)
      requires Valid()
      modifies this`products, this`cartItems, this`reviews
      ensures Valid()
      ensures r == ProductDestroy(orderItems, old(products), pk)
      ensures r != Deleted ==>
                products == old(products) && cartItems == old(cartItems) && reviews == old(reviews)
      ensures r == Deleted ==>
                && products == old(products) - {pk}
                && cartItems == old(cartItems) - LinesOfProduct(old(cartItems), pk).Keys
                && reviews == old(reviews) - ReviewsOf(old(reviews), pk).Keys
    {
      r := ProductDestroy(orderItems, products, pk);
      if r == Deleted {
        RemoveLinesOfProduct(pk);
        RemoveReviewsOf(pk);
        RemoveProduct(pk);
      }
    }

    /** The cascade from a deleted product to the cart lines naming it. */
    method RemoveLinesOfProduct(pk: ProductId)
      requires Valid()
      modifies this`cartItems
      ensures Valid()
      ensures cartItems == old(cartItems) - LinesOfProduct(old(cartItems), pk).Keys
      ensures forall k :: k in cartItems ==> cartItems[k].product != pk
    {
      RemovalKeepsLinesUnique(cartItems, LinesOfProduct(cartItems, pk).Keys);
      cartItems := cartItems - LinesOfProduct(cartItems, pk).Keys;
    }

    /** The cascade from a deleted product to its reviews. */
    method RemoveReviewsOf(pk: ProductId)
      requires Valid()
      modifies this`reviews
      ensures Valid()
      ensures reviews == old(reviews) - ReviewsOf(old(reviews), pk).Keys
      ensures forall k :: k in reviews ==> reviews[k].product != pk
    {
      reviews := reviews - ReviewsOf(reviews, pk).Keys;
    }

    /** Deleting a product that no row refers to any more. */
    method RemoveProduct(pk: ProductId)
      requires Valid()
      requires forall k :: k in cartItems ==> cartItems[k].product != pk
      requires forall k :: k in reviews ==> reviews[k].product != pk
      requires forall k :: k in orderItems ==> orderItems[k].product != pk
      modifies this`products
      ensures Valid()
      ensures products == old(products) - {pk}
    {
      products := products - {pk};
    }

    /** `CollectionViewSet.destroy`: refused while a product is in the
        collection; otherwise the collection goes. */
    method DestroyCollection(pk: CollectionId) returns (r: DeleteOutcome)
      requires Valid()
      modifies this`collections
      ensures Valid()
      ensures r == CollectionDestroy(products, old(collections), pk)
      ensures r != Deleted ==> collections == old(collections)
      ensures r == Deleted ==> collections == old(collections) - {pk}
    {
      r := CollectionDestroy(products, collections, pk);
      if r == Deleted {
        collections := collections - {pk};
      }
    }
  }

  /** `CustomerViewSet.me` called twice for one user returns the same customer
      and leaves at most one new customer record. */
  method MeIsIdempotent(store: Store, user: UserId) returns (first: Key, second: Key)
    requires store.Valid()
    modifies store`customers, store`nextCustomer
    ensures store.Valid()
    ensures first == second
    ensures |store.customers| <= |old(store.customers)| + 1
  {
    first := store.GetOrCreateCustomer(user);
    ghost var afterFirst := store.customers;
    second := store.GetOrCreateCustomer(user);
    assert store.customers == afterFirst;
  }

  /** Adding a product twice, two units and then three, leaves one line of
      five units. */
  method AddTwiceMerges(store: Store, cart: CartId, product: ProductId) returns (first: Result<Key>, second: Result<Key>)
    requires store.Valid() && cart in store.carts && product in store.products
    requires !HasLine(store.cartItems, cart, product)
    modifies store`cartItems, store`nextCartItem
    ensures store.Valid()
    ensures first.Ok? && second == first
    ensures store.cartItems == old(store.cartItems)[first.value := CartItem(cart, product, 5)]
  {
    first := AddFirstInserts(store, cart, product, 2);
    second := AddAgainMerges(store, cart, product, first.value, 3);
  }

  /** Adding a product the cart has no line for inserts one line. */
  method AddFirstInserts(store: Store, cart: CartId, product: ProductId, quantity: int) returns (r: Result<Key>)
    requires store.Valid() && cart in store.carts && product in store.products
    requires !HasLine(store.cartItems, cart, product)
    modifies store`cartItems, store`nextCartItem
    ensures store.Valid()
    ensures r.Ok? && r.value !in old(store.cartItems)
    ensures store.cartItems == old(store.cartItems)[r.value := CartItem(cart, product, quantity)]
  {
    r := store.AddCartItem(cart, product, quantity);
  }

  /** Adding a product the cart already has a line for, at key `k`, adds to
      that line and answers with its key. */
  method AddAgainMerges(store: Store, cart: CartId, product: ProductId, k: Key, quantity: int) returns (r: Result<Key>)
    requires store.Valid() && cart in store.carts && product in store.products
    requires k in store.cartItems && store.cartItems[k].cart == cart && store.cartItems[k].product == product
    modifies store`cartItems, store`nextCartItem
    ensures store.Valid()
    ensures r == Ok(k)
    ensures store.cartItems == old(store.cartItems)[k := CartItem(cart, product, old(store.cartItems)[k].quantity + quantity)]
  {
    assert HasLine(store.cartItems, cart, product);
    ghost var before := store.cartItems;
    r := store.AddCartItem(cart, product, quantity);
    assert r.value == k by {
      assert UniqueLines(before);
    }
  }

  /** A placed order shows in the listing of the user who placed it. */
  method CheckoutThenList(store: Store, cart: CartId, user: Permissions.User) returns (r: Result<Key>)
    requires store.Valid() && Permissions.IsAuthenticated(user)
    modifies store`customers, store`nextCustomer, store`orders, store`nextOrder,
             store`orderItems, store`nextOrderItem, store`carts, store`cartItems
    ensures store.Valid()
    ensures r.Ok? ==> r.value in OrdersVisibleTo(store.orders, store.customers, user)
  {
    r := store.Checkout(cart, user.id);
  }
}
