/** Building the lines of an order and adding up its total, as the `order`
    handler of src/controllers/buyer.controller.ts does: each line takes the
    product's stored price and a quantity that defaults to 1, and the total is
    the sum of quantity times price over the lines. Prices are exact integers. */
module Orders {
  import opened Common
  import opened Validators

  /** A product row; the order flow reads only its price. */
  datatype Product = Product(price: int)

  /** A cart item row. The quantity column may be null. */
  datatype CartItem = CartItem(cartId: string, productId: int, quantity: Option<int>)

  /** One nested order item: product, quantity and unit price. */
  datatype OrderLine = OrderLine(productId: int, quantity: int, price: int)

  function LineAmount(l: OrderLine): int { l.quantity * l.price }

  /** The order total: quantity times price, summed over the lines. */
  function Total(lines: seq<OrderLine>): (r: int)
    ensures lines != [] && (forall i :: 0 <= i < |lines| ==> lines[i].quantity > 0 && lines[i].price > 0) ==> r > 0
  {
    if lines == [] then 0
    else LineAmount(lines[0]) + Total(lines[1..])
  }

  /** Every cart item refers to a product that exists. */
  predicate ProductsKnown(items: seq<CartItem>, products: map<int, Product>) {
    forall i :: 0 <= i < |items| ==> items[i].productId in products
  }

  /** The items of one cart, in table order. */
  function ItemsInCart(items: seq<CartItem>, cartId: string): (r: seq<CartItem>)
    ensures forall i :: 0 <= i < |r| ==> r[i].cartId == cartId
    ensures forall x :: x in r <==> x in items && x.cartId == cartId
    ensures |r| <= |items|
  {
    if items == [] then []
    else if items[0].cartId == cartId then [items[0]] + ItemsInCart(items[1..], cartId)
    else ItemsInCart(items[1..], cartId)
  }

  /** The filter keeps every copy of an item of the cart: two identical rows
      (the same product added twice with the same quantity) stay two lines. */
  lemma {:induction false} ItemsInCartMultiplicity(items: seq<CartItem>, cartId: string, x: CartItem)
    ensures multiset(ItemsInCart(items, cartId))[x] == (if x.cartId == cartId then multiset(items)[x] else 0)
    decreases |items|
  {
    if items != [] {
      ItemsInCartMultiplicity(items[1..], cartId, x);
      assert items == [items[0]] + items[1..];
      assert multiset(items) == multiset{items[0]} + multiset(items[1..]);
    }
  }

  /** The line for one cart item: its product's stored price, and its quantity or 1 when that is null. */
  function CartLine(item: CartItem, products: map<int, Product>): OrderLine
    requires item.productId in products
  {
    OrderLine(item.productId, item.quantity.GetOr(1), products[item.productId].price)
  }

  /** A cart whose items all came through addToCart's schema (positive
      quantities) and whose products all came through createProduct's schema
      (positive prices) checks out at a positive total. */
  lemma AcceptedRequestsGivePositiveTotal(items: seq<CartItem>, products: map<int, Product>)
    requires items != [] && ProductsKnown(items, products)
    requires forall i :: 0 <= i < |items| ==>
      items[i].quantity.Some? && ValidAddToCart(AddToCartRequest(items[i].productId, items[i].quantity.value))
    requires forall id :: id in products ==> products[id].price > 0
    ensures Total(CartLines(items, products)) > 0
  {
    var lines := CartLines(items, products);
    assert forall i :: 0 <= i < |lines| ==> lines[i].quantity > 0 && lines[i].price > 0 by {
      forall i | 0 <= i < |lines| ensures lines[i].quantity > 0 && lines[i].price > 0 {
        assert items[i].productId in products;
      }
    }
  }

  /** One line per cart item, in the same order. */
  function CartLines(items: seq<CartItem>, products: map<int, Product>): (lines: seq<OrderLine>)
    requires ProductsKnown(items, products)
    ensures |lines| == |items|
    ensures forall i :: 0 <= i < |items| ==>
      && lines[i].productId == items[i].productId
      && lines[i].price == products[items[i].productId].price
      && (items[i].quantity.None? ==> lines[i].quantity == 1)
      && (items[i].quantity.Some? ==> lines[i].quantity == items[i].quantity.value)
  {
    if items == [] then [] else [CartLine(items[0], products)] + CartLines(items[1..], products)
  }

  /** The lines of an order, for either variant of the request. A direct buy
      has exactly one line, for the named product. */
  function LinesFor(kind: OrderKind, items: seq<CartItem>, products: map<int, Product>): (lines: seq<OrderLine>)
    requires ProductsKnown(items, products)
    requires kind.DirectBuy? ==> kind.productId in products
    ensures forall i :: 0 <= i < |lines| ==>
      lines[i].productId in products && lines[i].price == products[lines[i].productId].price
    ensures kind.DirectBuy? ==> lines == [OrderLine(kind.productId, kind.quantity, products[kind.productId].price)]
    ensures kind.FromCart? ==> |lines| == |ItemsInCart(items, kind.cartId)|
  {
    match kind
    case FromCart(cartId) => CartLines(ItemsInCart(items, cartId), products)
    case DirectBuy(productId, quantity) => [OrderLine(productId, quantity, products[productId].price)]
  }

  lemma {:induction false} TotalAppend(lines: seq<OrderLine>, l: OrderLine)
    ensures Total(lines + [l]) == Total(lines) + LineAmount(l)
    decreases |lines|
  {
    if lines != [] {
      assert (lines + [l])[1..] == lines[1..] + [l];
      TotalAppend(lines[1..], l);
    }
  }

  lemma {:induction false} TotalConcat(a: seq<OrderLine>, b: seq<OrderLine>)
    ensures Total(a + b) == Total(a) + Total(b)
    decreases |a|
  {
    if a == [] {
      assert a + b == b;
    } else {
      assert (a + b)[0] == a[0];
      assert (a + b)[1..] == a[1..] + b;
      TotalConcat(a[1..], b);
    }
  }

  /** The total does not depend on the order of the lines, so the order in which
      the database returns the cart items does not matter. */
  lemma {:induction false} TotalPermutation(a: seq<OrderLine>, b: seq<OrderLine>)
    requires multiset(a) == multiset(b)
    ensures Total(a) == Total(b)
    decreases |a|
  {
    if a == [] {
      assert |b| == |multiset(b)| == 0;
    } else {
      var x := a[0];
      assert x in multiset(b);
      var j :| 0 <= j < |b| && b[j] == x;
      var rest := b[..j] + b[j + 1..];
      assert b == b[..j] + [x] + b[j + 1..];
      assert a == [x] + a[1..];
      assert multiset(b) == multiset(b[..j]) + multiset{x} + multiset(b[j + 1..]);
      assert multiset(a) == multiset{x} + multiset(a[1..]);
      assert multiset(rest) == multiset(b[..j]) + multiset(b[j + 1..]);
      assert multiset(a[1..]) == multiset(a) - multiset{x};
      assert multiset(rest) == multiset(b) - multiset{x};
      TotalPermutation(a[1..], rest);
      TotalConcat(b[..j] + [x], b[j + 1..]);
      TotalConcat(b[..j], [x]);
      TotalConcat(b[..j], b[j + 1..]);
    }
  }

  /** With no negative quantity or price, the total is never negative. */
  lemma {:induction false} TotalNonNegative(lines: seq<OrderLine>)
    requires forall i :: 0 <= i < |lines| ==> lines[i].quantity >= 0 && lines[i].price >= 0
    ensures Total(lines) >= 0
    decreases |lines|
  {
    if lines != [] {
      TotalNonNegative(lines[1..]);
    }
  }

  /** A direct buy costs quantity times the stored price. The schema puts no
      sign constraint on quantity, so a negative quantity gives a negative total. */
  lemma DirectBuyTotal(productId: int, quantity: int, items: seq<CartItem>, products: map<int, Product>)
    requires ProductsKnown(items, products)
    requires productId in products
    ensures Total(LinesFor(DirectBuy(productId, quantity), items, products)) == quantity * products[productId].price
    ensures quantity < 0 && products[productId].price > 0 ==>
      Total(LinesFor(DirectBuy(productId, quantity), items, products)) < 0
  {
    var lines := LinesFor(DirectBuy(productId, quantity), items, products);
    assert lines[1..] == [];
  }

  /** No item of an unused cart id is found. */
  lemma {:induction false} ItemsInUnusedCart(items: seq<CartItem>, cartId: string)
    requires forall i :: 0 <= i < |items| ==> items[i].cartId != cartId
    ensures ItemsInCart(items, cartId) == []
    decreases |items|
  {
    if items != [] {
      ItemsInUnusedCart(items[1..], cartId);
    }
  }

  /** A checkout of a cart that has no items (or of an id no cart has) yields no
      lines and a total of zero. */
  lemma EmptyCartTotal(cartId: string, items: seq<CartItem>, products: map<int, Product>)
    requires ProductsKnown(items, products)
    requires forall i :: 0 <= i < |items| ==> items[i].cartId != cartId
    ensures LinesFor(FromCart(cartId), items, products) == []
    ensures Total(LinesFor(FromCart(cartId), items, products)) == 0
  {
    ItemsInUnusedCart(items, cartId);
  }

  /** The handler's accumulation of the total, one line at a time. */
  method ComputeTotal(lines: seq<OrderLine>) returns (total: int)
    ensures total == Total(lines)
  {
    total := 0;
    var i := 0;
    while i < |lines|
      invariant 0 <= i <= |lines|
      invariant total == Total(lines[..i])
    {
      assert lines[..i + 1] == lines[..i] + [lines[i]];
      TotalAppend(lines[..i], lines[i]);
      total := total + lines[i].quantity * lines[i].price;
      i := i + 1;
    }
    assert lines[..|lines|] == lines;
  }
}
