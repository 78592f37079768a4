/** The shop's records and the table lookups the serializers and views run over
    them. A table is a map from primary key to record; automatically numbered
    tables use `Key`, and their rows are visited in key order, which is the
    order the lookups below follow. Prices are integers in cents. */
module Models {

  type Key = nat
  type ProductId = int
  type CollectionId = int
  /** A cart's id is a server-generated UUID; only its identity matters here. */
  type CartId = nat
  type UserId = int

  datatype Product = Product(unitPrice: int, collection: CollectionId)
  datatype CartItem = CartItem(cart: CartId, product: ProductId, quantity: int)
  datatype Customer = Customer(user: UserId)
  datatype Order = Order(customer: Key)
  /** An order line: the price is copied from the product when the order is
      placed, not referenced. */
  datatype OrderItem = OrderItem(order: Key, product: ProductId, quantity: int, unitPrice: int)
  datatype Review = Review(product: ProductId, name: string, description: string)

  datatype Option<T> = None | Some(value: T)

  /** Why a request is refused: a validation error names a missing product, a
      missing cart or an empty cart; `ForeignKeyViolation` is the database
      refusing a row that points at a missing record. */
  datatype Error = NoSuchProduct | NoSuchCart | EmptyCart | ForeignKeyViolation

  datatype Result<T> = Ok(value: T) | Err(error: Error)

  /** Writing under a fresh key adds one row; writing under a present key
      adds none. */
  lemma InsertSize<V>(m: map<Key, V>, k: Key, v: V)
    ensures |m[k := v]| == if k in m then |m| else |m| + 1
  {
  }

  /** A finite set has positive size exactly when it has a member. */
  lemma SizePositiveIffMember<T>(s: set<T>)
    ensures |s| > 0 <==> exists x :: x in s
  {
    if |s| > 0 {
      var x :| x in s;
    }
  }

  /** Every key is below the table's next automatic key. */
  ghost predicate KeysBelow<T>(m: map<Key, T>, n: nat)
  {
    forall k :: k in m ==> k < n
  }

  /** At most one cart line per (cart, product) pair. */
  ghost predicate UniqueLines(items: map<Key, CartItem>)
  {
    forall j, k ::
      (j in items && k in items && items[j].cart == items[k].cart && items[j].product == items[k].product) ==> j == k
  }

  /** Removing rows keeps the cart lines unique. */
  lemma RemovalKeepsLinesUnique(items: map<Key, CartItem>, gone: set<Key>)
    requires UniqueLines(items)
    ensures UniqueLines(items - gone)
  {
    var rest := items - gone;
    forall j, k | j in rest && k in rest && rest[j].cart == rest[k].cart && rest[j].product == rest[k].product
      ensures j == k
    {
      assert items[j] == rest[j] && items[k] == rest[k];
    }
  }

  /** A line for a (cart, product) pair the table does not hold yet keeps the
      lines unique. */
  lemma InsertKeepsLinesUnique(items: map<Key, CartItem>, k: Key, line: CartItem)
    requires UniqueLines(items) && k !in items && !HasLine(items, line.cart, line.product)
    ensures UniqueLines(items[k := line])
  {
  }

  /** At most one customer record per user. */
  ghost predicate UniqueCustomers(customers: map<Key, Customer>)
  {
    forall j, k :: j in customers && k in customers && customers[j].user == customers[k].user ==> j == k
  }

  ghost predicate HasLine(items: map<Key, CartItem>, cart: CartId, product: ProductId)
  {
    exists k :: k in items && items[k].cart == cart && items[k].product == product
  }

  ghost predicate HasCustomer(customers: map<Key, Customer>, user: UserId)
  {
    exists k :: k in customers && customers[k].user == user
  }

  /** `CartItem.objects.get(cart_id=cart, product_id=product)` over the keys
      below `n`: the key of the line, or None when there is none. */
  function FindLine(items: map<Key, CartItem>, cart: CartId, product: ProductId, n: nat): (r: Option<Key>)
    ensures r.Some? ==> r.value < n && r.value in items &&
                        items[r.value].cart == cart && items[r.value].product == product
    ensures r.None? ==> forall k :: k in items && k < n ==>
                          !(items[k].cart == cart && items[k].product == product)
  {
    if n == 0 then None
    else if n - 1 in items && items[n - 1].cart == cart && items[n - 1].product == product then Some(n - 1)
    else FindLine(items, cart, product, n - 1)
  }

  /** `Customer.objects.get(user_id=user)` over the keys below `n`. */
  function FindCustomer(customers: map<Key, Customer>, user: UserId, n: nat): (r: Option<Key>)
    ensures r.Some? ==> r.value < n && r.value in customers && customers[r.value].user == user
    ensures r.None? ==> forall k :: k in customers && k < n ==> customers[k].user != user
  {
    if n == 0 then None
    else if n - 1 in customers && customers[n - 1].user == user then Some(n - 1)
    else FindCustomer(customers, user, n - 1)
  }

  /** `CartItem.objects.filter(cart_id=cart)`: the lines of one cart, keyed as in
      the table. This is also what the cart-items endpoint lists. */
  function LinesOfCart(items: map<Key, CartItem>, cart: CartId): (r: map<Key, CartItem>)
    ensures forall k :: k in r <==> k in items && items[k].cart == cart
    ensures forall k :: k in r ==> r[k] == items[k]
  {
    map k | k in items && items[k].cart == cart :: items[k]
  }

  /** The cart lines that name `product`, which deleting the product takes
      with it. */
  function LinesOfProduct(items: map<Key, CartItem>, product: ProductId): (r: map<Key, CartItem>)
    ensures forall k :: k in r <==> k in items && items[k].product == product
    ensures forall k :: k in r ==> r[k] == items[k]
  {
    map k | k in items && items[k].product == product :: items[k]
  }

  /** The lines of one cart among the keys below `n`, in key order. */
  function CartLinesBelow(items: map<Key, CartItem>, cart: CartId, n: nat): (r: seq<CartItem>)
    ensures |r| <= n
    ensures forall i :: 0 <= i < |r| ==> r[i].cart == cart
  {
    if n == 0 then []
    else CartLinesBelow(items, cart, n - 1) +
         (if n - 1 in items && items[n - 1].cart == cart then [items[n - 1]] else [])
  }

  /** The order lines of one order among the keys below `n`, in key order. */
  function OrderLinesBelow(items: map<Key, OrderItem>, order: Key, n: nat): (r: seq<OrderItem>)
  {
    if n == 0 then []
    else OrderLinesBelow(items, order, n - 1) +
         (if n - 1 in items && items[n - 1].order == order then [items[n - 1]] else [])
  }

  /** The key-ordered lines of a cart are exactly the table's lines of that
      cart below `n`. */
  lemma {:induction false} CartLinesExactly(items: map<Key, CartItem>, cart: CartId, n: nat)
    ensures forall x :: x in CartLinesBelow(items, cart, n) ==>
              x.cart == cart && exists k :: k < n && k in items && items[k] == x
    ensures forall k :: k in items && k < n && items[k].cart == cart ==> items[k] in CartLinesBelow(items, cart, n)
  {
    if n > 0 {
      CartLinesExactly(items, cart, n - 1);
    }
  }

  /** The rows of a bulk insert: `batch[i]` numbered `base + i`. */
  function Placed(batch: seq<OrderItem>, base: nat): (r: map<Key, OrderItem>)
    ensures forall k :: k in r <==> base <= k < base + |batch|
    ensures forall k :: k in r ==> r[k] == batch[k - base]
  {
    if batch == [] then map[]
    else Placed(batch[..|batch| - 1], base)[base + |batch| - 1 := batch[|batch| - 1]]
  }

  /** The listing of a cart's lines and the key-ordered sequence of them hold
      the same lines. */
  lemma CartListingMatchesLines(items: map<Key, CartItem>, cart: CartId, n: nat)
    requires KeysBelow(items, n)
    ensures forall x :: x in CartLinesBelow(items, cart, n) <==> x in LinesOfCart(items, cart).Values
  {
    CartLinesExactly(items, cart, n);
    var r := CartLinesBelow(items, cart, n);
    var q := LinesOfCart(items, cart);
    forall x | x in q.Values ensures x in r {
      var k :| k in q && q[k] == x;
    }
    forall x | x in r ensures x in q.Values {
      var k :| k < n && k in items && items[k] == x;
      assert q[k] == x;
    }
  }

  /** Two tables that agree on the lines of `cart` below `n` list the same lines. */
  lemma {:induction false} CartLinesAgree(m1: map<Key, CartItem>, m2: map<Key, CartItem>, cart: CartId, n: nat)
    requires forall k: Key :: k < n ==> ((k in m1 && m1[k].cart == cart) <==> (k in m2 && m2[k].cart == cart))
    requires forall k: Key :: k < n && k in m1 && m1[k].cart == cart ==> m2[k] == m1[k]
    ensures CartLinesBelow(m1, cart, n) == CartLinesBelow(m2, cart, n)
  {
    if n > 0 {
      CartLinesAgree(m1, m2, cart, n - 1);
    }
  }

  /** Writing a new line at key `n` appends it to its own cart's lines and
      leaves every other cart's lines as they were. */
  lemma InsertAppendsLine(items: map<Key, CartItem>, item: CartItem, cart: CartId, n: nat)
    requires KeysBelow(items, n)
    ensures CartLinesBelow(items[n := item], cart, n + 1) ==
            CartLinesBelow(items, cart, n) + (if item.cart == cart then [item] else [])
  {
    CartLinesAgree(items, items[n := item], cart, n);
  }

  /** Changing line `k` without moving it to another cart leaves the lines of
      every other cart as they were. */
  lemma UpdateKeepsOtherCarts(items: map<Key, CartItem>, k: Key, item: CartItem, cart: CartId, n: nat)
    requires k in items && item.cart == items[k].cart && cart != item.cart
    ensures CartLinesBelow(items[k := item], cart, n) == CartLinesBelow(items, cart, n)
  {
    CartLinesAgree(items, items[k := item], cart, n);
  }

  /** Removing the lines of `cart` leaves the lines of every other cart as
      they were. */
  lemma RemoveKeepsOtherCarts(items: map<Key, CartItem>, cart: CartId, other: CartId, n: nat)
    requires other != cart
    ensures CartLinesBelow(items - LinesOfCart(items, cart).Keys, other, n) == CartLinesBelow(items, other, n)
  {
    CartLinesAgree(items, items - LinesOfCart(items, cart).Keys, other, n);
  }

  /** A cart lists no lines exactly when no line of the table names it. */
  lemma CartLinesEmptyIffNoLine(items: map<Key, CartItem>, cart: CartId, n: nat)
    requires KeysBelow(items, n)
    ensures CartLinesBelow(items, cart, n) == [] <==> forall k :: k in items ==> items[k].cart != cart
  {
    CartLinesExactly(items, cart, n);
    var r := CartLinesBelow(items, cart, n);
    if r != [] {
      assert r[0] in r;
    }
  }

  /** When `batch` sits at the keys from `base` on and no earlier row belongs to
      `order`, the order's lines below `base + j` are the first `j` of `batch`. */
  lemma {:induction false} BulkInsertLines(m: map<Key, OrderItem>, base: nat, batch: seq<OrderItem>, order: Key, j: nat)
    requires j <= |batch|
    requires forall k :: k in m && k < base ==> m[k].order != order
    requires forall k :: base <= k < base + |batch| ==> k in m && m[k] == batch[k - base]
    requires forall i :: 0 <= i < |batch| ==> batch[i].order == order
    ensures OrderLinesBelow(m, order, base + j) == batch[..j]
  {
    if j == 0 {
      NoLinesOfAbsentOrder(m, order, base);
    } else {
      BulkInsertLines(m, base, batch, order, j - 1);
      assert batch[..j] == batch[..j - 1] + [batch[j - 1]];
    }
  }

  /** Bulk-inserting the lines of an order none of whose lines exist yet: the
      table then lists exactly the batch for that order, in the batch's order. */
  lemma BulkInsertListsBatch(m: map<Key, OrderItem>, base: nat, batch: seq<OrderItem>, order: Key)
    requires KeysBelow(m, base)
    requires forall k :: k in m ==> m[k].order != order
    requires forall i :: 0 <= i < |batch| ==> batch[i].order == order
    ensures KeysBelow(m + Placed(batch, base), base + |batch|)
    ensures OrderLinesBelow(m + Placed(batch, base), order, base + |batch|) == batch
  {
    var after := m + Placed(batch, base);
    forall k | base <= k < base + |batch| ensures k in after && after[k] == batch[k - base] {
      assert k in Placed(batch, base);
    }
    BulkInsertLines(after, base, batch, order, |batch|);
  }

  lemma {:induction false} NoLinesOfAbsentOrder(m: map<Key, OrderItem>, order: Key, n: nat)
    requires forall k :: k in m && k < n ==> m[k].order != order
    ensures OrderLinesBelow(m, order, n) == []
  {
    if n > 0 {
      NoLinesOfAbsentOrder(m, order, n - 1);
    }
  }

  /** `.count() == 0` on a cart's lines holds exactly when no line names the cart. */
  lemma CountZeroIffNoLine(items: map<Key, CartItem>, cart: CartId)
    ensures |LinesOfCart(items, cart)| == 0 <==> forall k :: k in items ==> items[k].cart != cart
  {
    var q := LinesOfCart(items, cart);
    if |q| != 0 {
      assert q.Keys != {};
      var k :| k in q.Keys;
      assert k in items && items[k].cart == cart;
    } else {
      assert q == map[];
    }
  }
}
