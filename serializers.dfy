/** The computations of store/serializer.py that do not change the tables: the
    line and cart totals, the price snapshot taken when a cart becomes an
    order, and the two request validators. */
module Serializers {
  import opened Models

  /** Every cart line refers to a product that exists (the foreign key). */
  ghost predicate Priced(items: map<Key, CartItem>, products: map<ProductId, Product>)
  {
    forall k :: k in items ==> items[k].product in products
  }

  ghost predicate PricedLines(lines: seq<CartItem>, products: map<ProductId, Product>)
  {
    forall i :: 0 <= i < |lines| ==> lines[i].product in products
  }

  /** `CartItemSerializer.get_total_price`: the quantity times the product's
      current unit price. */
  function LineTotal(item: CartItem, products: map<ProductId, Product>): (r: int)
    requires item.product in products
    ensures item.quantity == 0 || products[item.product].unitPrice == 0 ==> r == 0
  {
    item.quantity * products[item.product].unitPrice
  }

  /** `CartSerializer.get_total_price`: the sum of the line totals, taken in
      key order. */
  function LinesTotal(lines: seq<CartItem>, products: map<ProductId, Product>): (r: int)
    requires PricedLines(lines, products)
    ensures lines == [] ==> r == 0
  {
    if lines == [] then 0
    else LinesTotal(lines[..|lines| - 1], products) + LineTotal(lines[|lines| - 1], products)
  }

  /** With no negative quantities or prices the total is not negative. */
  lemma {:induction false} LinesTotalNonNegative(lines: seq<CartItem>, products: map<ProductId, Product>)
    requires PricedLines(lines, products)
    requires forall i :: 0 <= i < |lines| ==> lines[i].quantity >= 0
    requires forall i :: 0 <= i < |lines| ==> products[lines[i].product].unitPrice >= 0
    ensures LinesTotal(lines, products) >= 0
  {
    if lines != [] {
      var n := |lines| - 1;
      assert PricedLines(lines[..n], products);
      LinesTotalNonNegative(lines[..n], products);
      NonNegativeProduct(lines[n].quantity, products[lines[n].product].unitPrice);
    }
  }

  lemma NonNegativeProduct(a: int, b: int)
    requires a >= 0 && b >= 0
    ensures a * b >= 0
  {
  }

  /** Two units at 5.00 and one at 3.00 total 13.00. */
  lemma CartTotalExample()
    ensures LinesTotal([CartItem(1, 10, 2), CartItem(1, 11, 1)], map[10 := Product(500, 1), 11 := Product(300, 1)]) == 1300
  {
    var products := map[10 := Product(500, 1), 11 := Product(300, 1)];
    var lines := [CartItem(1, 10, 2), CartItem(1, 11, 1)];
    assert lines[..1] == [CartItem(1, 10, 2)];
    assert lines[..1][..0] == [];
  }

  /** The order line that a cart line becomes: same product and quantity, and
      the product's unit price at this moment. */
  function SnapshotLine(item: CartItem, products: map<ProductId, Product>, order: Key): (r: OrderItem)
    requires item.product in products
    ensures r.order == order && r.product == item.product && r.quantity == item.quantity
    ensures r.quantity * r.unitPrice == LineTotal(item, products)
  {
    OrderItem(order, item.product, item.quantity, products[item.product].unitPrice)
  }

  /** The list comprehension of `CreateOrderSerializer.save`: one order line
      per cart line, in the same order. */
  function Snapshot(lines: seq<CartItem>, products: map<ProductId, Product>, order: Key): (r: seq<OrderItem>)
    requires PricedLines(lines, products)
    ensures |r| == |lines|
    ensures forall i :: 0 <= i < |lines| ==>
              r[i] == OrderItem(order, lines[i].product, lines[i].quantity, products[lines[i].product].unitPrice)
  {
    if lines == [] then []
    else Snapshot(lines[..|lines| - 1], products, order) + [SnapshotLine(lines[|lines| - 1], products, order)]
  }

  /** Snapshotting one more line appends its order line. */
  lemma SnapshotSnoc(lines: seq<CartItem>, item: CartItem, products: map<ProductId, Product>, order: Key)
    requires PricedLines(lines, products) && item.product in products
    ensures PricedLines(lines + [item], products)
    ensures Snapshot(lines + [item], products, order) == Snapshot(lines, products, order) + [SnapshotLine(item, products, order)]
  {
    assert (lines + [item])[..|lines|] == lines;
  }

  /** The total of order lines: quantity times the copied unit price. */
  function ItemsTotal(items: seq<OrderItem>): (r: int)
  {
    if items == [] then 0
    else ItemsTotal(items[..|items| - 1]) + items[|items| - 1].quantity * items[|items| - 1].unitPrice
  }

  /** The snapshot of a cart totals what the cart totalled. */
  lemma {:induction false} SnapshotKeepsTotal(lines: seq<CartItem>, products: map<ProductId, Product>, order: Key)
    requires PricedLines(lines, products)
    ensures ItemsTotal(Snapshot(lines, products, order)) == LinesTotal(lines, products)
  {
    if lines != [] {
      var n := |lines| - 1;
      var s := Snapshot(lines, products, order);
      assert s[..n] == Snapshot(lines[..n], products, order);
      SnapshotKeepsTotal(lines[..n], products, order);
    }
  }

  /** The lines of any cart in a table whose lines all have products are priced. */
  lemma CartLinesPriced(items: map<Key, CartItem>, products: map<ProductId, Product>, cart: CartId, n: nat)
    requires Priced(items, products)
    ensures PricedLines(CartLinesBelow(items, cart, n), products)
  {
    CartLinesExactly(items, cart, n);
    var r := CartLinesBelow(items, cart, n);
    forall i | 0 <= i < |r| ensures r[i].product in products {
      assert r[i] in r;
    }
  }

  /** `CartSerializer.get_total_price` over a whole table: the total of the
      lines of `cart` among the keys below `n`. */
  function CartTotalBelow(items: map<Key, CartItem>, products: map<ProductId, Product>, cart: CartId, n: nat): (r: int)
    requires Priced(items, products)
    ensures CartLinesBelow(items, cart, n) == [] ==> r == 0
  {
    CartLinesPriced(items, products, cart, n);
    LinesTotal(CartLinesBelow(items, cart, n), products)
  }

  /** One more line adds its line total. */
  lemma LinesTotalSnoc(lines: seq<CartItem>, item: CartItem, products: map<ProductId, Product>)
    requires PricedLines(lines, products) && item.product in products
    ensures PricedLines(lines + [item], products)
    ensures LinesTotal(lines + [item], products) == LinesTotal(lines, products) + LineTotal(item, products)
  {
    assert (lines + [item])[..|lines|] == lines;
  }

  lemma AddQuantity(q: int, more: int, price: int)
    ensures (q + more) * price == q * price + more * price
  {
  }

  /** The total over the keys below `n` is the total below `n - 1` plus the
      line at key `n - 1` when that line is in the cart. */
  lemma CartTotalStep(items: map<Key, CartItem>, products: map<ProductId, Product>, cart: CartId, n: nat)
    requires Priced(items, products) && n > 0
    ensures CartTotalBelow(items, products, cart, n) ==
            CartTotalBelow(items, products, cart, n - 1) +
            (if n - 1 in items && items[n - 1].cart == cart then LineTotal(items[n - 1], products) else 0)
  {
    CartLinesPriced(items, products, cart, n - 1);
    var a := CartLinesBelow(items, cart, n - 1);
    if n - 1 in items && items[n - 1].cart == cart {
      LinesTotalSnoc(a, items[n - 1], products);
    } else {
      assert CartLinesBelow(items, cart, n) == a;
    }
  }

  /** Adding `more` to the quantity of line `k` raises its cart's total by
      `more` times the product's unit price, once `k` is among the keys
      counted. */
  lemma {:induction false} MergeAddsToTotal(items: map<Key, CartItem>, products: map<ProductId, Product>,
                                            k: Key, more: int, n: nat)
    requires Priced(items, products)
    requires k in items
    ensures Priced(items[k := items[k].(quantity := items[k].quantity + more)], products)
    ensures CartTotalBelow(items[k := items[k].(quantity := items[k].quantity + more)], products, items[k].cart, n) ==
            CartTotalBelow(items, products, items[k].cart, n) +
            (if k < n then more * products[items[k].product].unitPrice else 0)
  {
    var merged := items[k := items[k].(quantity := items[k].quantity + more)];
    var cart := items[k].cart;
    if n > 0 {
      MergeAddsToTotal(items, products, k, more, n - 1);
      CartTotalStep(merged, products, cart, n);
      CartTotalStep(items, products, cart, n);
      if n - 1 == k {
        AddQuantity(items[k].quantity, more, products[items[k].product].unitPrice);
      }
    }
  }

  /** A new line at key `n` adds its line total to its cart's total. */
  lemma InsertAddsToTotal(items: map<Key, CartItem>, products: map<ProductId, Product>, item: CartItem, n: nat)
    requires Priced(items, products) && KeysBelow(items, n) && item.product in products
    ensures Priced(items[n := item], products)
    ensures CartTotalBelow(items[n := item], products, item.cart, n + 1) ==
            CartTotalBelow(items, products, item.cart, n) + LineTotal(item, products)
  {
    InsertAppendsLine(items, item, item.cart, n);
    CartLinesPriced(items, products, item.cart, n);
    LinesTotalSnoc(CartLinesBelow(items, item.cart, n), item, products);
  }

  /** `AddCartItemSerializer.validate_product_id`. */
  function ValidateProductId(products: map<ProductId, Product>, product: ProductId): (r: Result<ProductId>)
    ensures r.Ok? <==> product in products
    ensures r.Ok? ==> r.value == product
    ensures r.Err? ==> r.error == NoSuchProduct
  {
    if product in products then Ok(product) else Err(NoSuchProduct)
  }

  /** `CreateOrderSerializer.validate_cart_id`: the cart must exist and hold at
      least one line. */
  function ValidateCartId(carts: set<CartId>, items: map<Key, CartItem>, cart: CartId): (r: Result<CartId>)
    ensures r == Err(NoSuchCart) <==> cart !in carts
    ensures r == Err(EmptyCart) <==> cart in carts && forall k :: k in items ==> items[k].cart != cart
    ensures r.Ok? <==> cart in carts && exists k :: k in items && items[k].cart == cart
    ensures r.Ok? ==> r.value == cart
  {
    CountZeroIffNoLine(items, cart);
    if cart !in carts then Err(NoSuchCart)
    else if |LinesOfCart(items, cart)| == 0 then Err(EmptyCart)
    else Ok(cart)
  }
}
