/** The buyer handlers of src/controllers/buyer.controller.ts over the tables
    they touch (buyers, products, carts, cart items, orders) and the Redis
    instance that holds the email-verification OTP. Each handler becomes a
    method returning the HTTP status it answers with. Password hashing and
    email syntax are parameters; whether the JWT secret and the Stripe key are
    configured is a boolean parameter. */
module BuyerService {
  import opened Common
  import opened Validators
  import opened Orders

  /** A buyer row; the table is keyed by the unique email. */
  datatype Buyer = Buyer(id: int, passwordHash: string, isVerified: bool)

  /** A cart row; the table is keyed by the unique buyer id. */
  datatype Cart = Cart(id: string, cartCount: nat)

  datatype DeliveryInstructions = DeliveryInstructions(
    callWhenYouReach: bool, leaveAtTheDoor: bool, pleaseDoNotCall: bool, doNotRingTheDoorBell: bool)

  /** An order row with its nested order items. */
  datatype Order = Order(
    total: int, contactNumber: string, deliveryInstructions: DeliveryInstructions,
    paymentOption: PaymentOption, isPaid: bool, isDelivered: bool, isReturned: bool,
    buyerId: int, addressId: string, items: seq<OrderLine>)

  datatype OrderOutcome =
    | Rejected(status: int)
    | Placed(orderId: string, message: string)

  /** The single Redis key under which every email-verification OTP is kept. */
  const EmailOtpKey: string := "emailVerificationOTP"

  /** The order row the handler writes: the flags, the delivery instructions
      and the payment option are fixed, whatever the request carried. */
  function NewOrder(req: OrderRequest, buyerId: int, lines: seq<OrderLine>): Order {
    Order(Total(lines), req.contactNumber,
          DeliveryInstructions(true, false, false, false),
          PaymentOption(false, true),
          false, false, false, buyerId, req.addressId, lines)
  }

  /** Only the response message depends on the request's pay_now. */
  function PlacedMessage(payNow: bool): string {
    if payNow then "order information created..." else "order successfull..."
  }

  /** Two requests that agree on the contact number and the address produce the
      same order row: isPaid, isDelivered, isReturned, paymentOption and the
      delivery instructions of the request are never stored. */
  lemma StoredOrderIgnoresRequestFlags(a: OrderRequest, b: OrderRequest, buyerId: int, lines: seq<OrderLine>)
    requires a.contactNumber == b.contactNumber && a.addressId == b.addressId
    ensures NewOrder(a, buyerId, lines) == NewOrder(b, buyerId, lines)
    ensures var o := NewOrder(a, buyerId, lines);
      !o.isPaid && !o.isDelivered && !o.isReturned && o.paymentOption == PaymentOption(false, true)
  {
  }

  /** The checks the order handler makes after finding the buyer: a cart
      checkout needs a non-empty cartId; a direct buy needs a non-zero
      productId naming an existing product. */
  predicate Orderable(kind: OrderKind, products: map<int, Product>) {
    match kind
    case FromCart(cartId) => cartId != ""
    case DirectBuy(productId, _) => productId != 0 && productId in products
  }

  /** The cart a buyer has once addToCart has looked it up or created it. */
  function CartOf(carts: map<int, Cart>, buyerId: int, freshCartId: string): Cart {
    if buyerId in carts then carts[buyerId] else Cart(freshCartId, 0)
  }

  lemma {:induction false} ItemsInCartAppend(items: seq<CartItem>, x: CartItem, cartId: string)
    ensures ItemsInCart(items + [x], cartId) ==
      ItemsInCart(items, cartId) + (if x.cartId == cartId then [x] else [])
    decreases |items|
  {
    if items == [] {
      assert items + [x] == [x];
    } else {
      assert (items + [x])[0] == items[0];
      assert (items + [x])[1..] == items[1..] + [x];
      ItemsInCartAppend(items[1..], x, cartId);
    }
  }

  /** Every cart item names an existing product, every cart's cartCount is the
      number of its items, and no two carts share an id. */
  ghost predicate TablesConsistent(items: seq<CartItem>, products: map<int, Product>, carts: map<int, Cart>) {
    && ProductsKnown(items, products)
    && (forall b :: b in carts ==> carts[b].cartCount == |ItemsInCart(items, carts[b].id)|)
    && (forall b, c :: b in carts && c in carts && b != c ==> carts[b].id != carts[c].id)
  }

  /** Creating an empty cart under an unused id keeps the tables consistent. */
  lemma CreateCartKeepsConsistency(items: seq<CartItem>, products: map<int, Product>, carts: map<int, Cart>,
                                   buyerId: int, freshCartId: string)
    requires TablesConsistent(items, products, carts)
    requires buyerId !in carts
    requires forall b :: b in carts ==> carts[b].id != freshCartId
    requires forall i :: 0 <= i < |items| ==> items[i].cartId != freshCartId
    ensures TablesConsistent(items, products, carts[buyerId := Cart(freshCartId, 0)])
  {
    ItemsInUnusedCart(items, freshCartId);
  }

  /** Appending one item to a cart while adding one to its cartCount keeps the
      tables consistent. */
  lemma AddItemKeepsConsistency(items: seq<CartItem>, products: map<int, Product>, carts: map<int, Cart>,
                                buyerId: int, item: CartItem)
    requires TablesConsistent(items, products, carts)
    requires buyerId in carts && item.cartId == carts[buyerId].id && item.productId in products
    ensures TablesConsistent(items + [item], products,
                             carts[buyerId := carts[buyerId].(cartCount := carts[buyerId].cartCount + 1)])
  {
    forall b | b in carts
      ensures ItemsInCart(items + [item], carts[b].id) ==
        ItemsInCart(items, carts[b].id) + (if b == buyerId then [item] else [])
    {
      ItemsInCartAppend(items, item, carts[b].id);
    }
  }

  class Shop {
    var buyers: map<string, Buyer>
    var products: map<int, Product>
    var carts: map<int, Cart>
    var cartItems: seq<CartItem>
    var orders: map<string, Order>
    /** The Redis instance, as text keys and text values. */
    var store: map<string, string>

    /** Every cart item names an existing product, every cart's cartCount is the
        number of its items, and no two carts share an id. */
    ghost predicate Valid()
      reads this
    {
      TablesConsistent(cartItems, products, carts)
    }

    constructor (initialBuyers: map<string, Buyer>, initialProducts: map<int, Product>)
      ensures Valid()
      ensures buyers == initialBuyers && products == initialProducts
      ensures carts == map[] && cartItems == [] && orders == map[] && store == map[]
    {
      buyers := initialBuyers;
      products := initialProducts;
      carts := map[];
      cartItems := [];
      orders := map[];
      store := map[];
    }

    /** Some buyer row has this id (the id comes from the buyer's token). */
    predicate HasBuyer(buyerId: int)
      reads this
    {
      exists e :: e in buyers && buyers[e].id == buyerId
    }

    /** sendOTPForEmailVerification: a six-digit OTP for a known buyer, stored
        under the one global key, replacing any OTP issued before. */
    method RequestEmailVerification(email: string, isEmail: string -> bool, r: nat) returns (status: int)
      requires r < 900000
      modifies this
      ensures buyers == old(buyers) && products == old(products) && carts == old(carts)
      ensures cartItems == old(cartItems) && orders == old(orders)
      ensures !isEmail(email) ==> status == 400 && store == old(store)
      ensures isEmail(email) && email !in buyers ==> status == 404 && store == old(store)
      ensures isEmail(email) && email in buyers ==>
        status == 200 && store == old(store)[EmailOtpKey := Decimal(SixDigitOtp(r))]
    {
      if !isEmail(email) {
        return 400;
      }
      if email !in buyers {
        return 404;
      }
      var otp := SixDigitOtp(r);
      store := store[EmailOtpKey := Decimal(otp)];
      status := 200;
    }

    /** Whether the OTP key holds a non-empty string (JavaScript's truthiness test). */
    predicate EmailOtpPresent()
      reads this
    {
      EmailOtpKey in store && store[EmailOtpKey] != ""
    }

    /** buyerVerifyEmailVerificationOTP. The OTP is compared with the one global
        key, whichever buyer it was sent to. On a match the handler answers 200
        first and then updates the buyer named by the request; when no buyer has
        that email the update fails after the reply, so nothing changes. */
    method VerifyEmail(email: string, otp: string, isEmail: string -> bool) returns (status: int)
      requires Valid()
      modifies this
      ensures Valid()
      ensures products == old(products) && carts == old(carts)
      ensures cartItems == old(cartItems) && orders == old(orders)
      ensures !isEmail(email) ==> status == 400
      ensures isEmail(email) && !old(EmailOtpPresent()) ==> status == 500
      ensures isEmail(email) && old(EmailOtpPresent()) && otp != old(store[EmailOtpKey]) ==> status == 400
      ensures isEmail(email) && old(EmailOtpPresent()) && otp == old(store[EmailOtpKey]) ==> status == 200
      ensures status == 200 && email in old(buyers) ==>
        && buyers == old(buyers)[email := old(buyers)[email].(isVerified := true)]
        && store == old(store) - {EmailOtpKey}
      ensures status != 200 || email !in old(buyers) ==> buyers == old(buyers) && store == old(store)
    {
      if !isEmail(email) {
        return 400;
      }
      if !EmailOtpPresent() {
        return 500;
      }
      if otp != store[EmailOtpKey] {
        return 400;
      }
      status := 200;
      if email in buyers {
        buyers := buyers[email := buyers[email].(isVerified := true)];
        store := store - {EmailOtpKey};
      }
    }

    /** buyerSignin: unknown email gives 404, then a wrong password 400, then an
        unverified buyer 400; only a verified buyer with the right password is
        given a token. */
    function SignIn(email: string, password: string, isEmail: string -> bool,
                    passwordMatches: (string, string) -> bool, hasJwtSecret: bool): (status: int)
      reads this
      ensures status == 200 <==>
        && isEmail(email) && email in buyers
        && passwordMatches(password, buyers[email].passwordHash)
        && buyers[email].isVerified && hasJwtSecret
      ensures isEmail(email) && email !in buyers ==> status == 404
      ensures isEmail(email) && email in buyers && !passwordMatches(password, buyers[email].passwordHash) ==> status == 400
      ensures isEmail(email) && email in buyers && !buyers[email].isVerified ==> status == 400
    {
      if !isEmail(email) then 400
      else if email !in buyers then 404
      else if !passwordMatches(password, buyers[email].passwordHash) then 400
      else if !buyers[email].isVerified then 400
      else if !hasJwtSecret then 500
      else 200
    }

    /** addToCart: the buyer's cart is created when absent, then one cart item is
        inserted and the cart's cartCount goes up by one. The cart is created
        before the item, so when the product does not exist the item insert fails
        (foreign key) with 500 and the new, empty cart remains. */
    method AddToCart(buyerId: int, req: AddToCartRequest, freshCartId: string) returns (status: int)
      requires Valid()
      requires forall b :: b in carts ==> carts[b].id != freshCartId
      requires forall i :: 0 <= i < |cartItems| ==> cartItems[i].cartId != freshCartId
      modifies this
      ensures Valid()
      ensures buyers == old(buyers) && products == old(products)
      ensures orders == old(orders) && store == old(store)
      ensures !ValidAddToCart(req) ==> status == 400
      ensures ValidAddToCart(req) && !HasBuyer(buyerId) ==> status == 404
      ensures ValidAddToCart(req) && HasBuyer(buyerId) && req.productId !in products ==> status == 500
      ensures ValidAddToCart(req) && HasBuyer(buyerId) && req.productId in products ==> status == 201
      ensures status in {400, 404} ==> carts == old(carts) && cartItems == old(cartItems)
      ensures status == 500 ==>
        && carts == old(carts)[buyerId := CartOf(old(carts), buyerId, freshCartId)]
        && cartItems == old(cartItems)
      ensures status == 201 ==>
        var c := CartOf(old(carts), buyerId, freshCartId);
        && carts == old(carts)[buyerId := c.(cartCount := c.cartCount + 1)]
        && cartItems == old(cartItems) + [CartItem(c.id, req.productId, Some(req.quantity))]
    {
      if !ValidAddToCart(req) {
        return 400;
      }
      if !HasBuyer(buyerId) {
        return 404;
      }
      var cart := CartOf(carts, buyerId, freshCartId);
      if buyerId !in carts {
        CreateCartKeepsConsistency(cartItems, products, carts, buyerId, freshCartId);
        carts := carts[buyerId := cart];
      }
      if req.productId !in products {
        return 500;
      }
      var item := CartItem(cart.id, req.productId, Some(req.quantity));
      AddItemKeepsConsistency(cartItems, products, carts, buyerId, item);
      cartItems := cartItems + [item];
      carts := carts[buyerId := cart.(cartCount := cart.cartCount + 1)];
      status := 201;
    }

    /** order: validate, find the buyer, build the lines from the cart or from
        the one product, add up the total and store the order. */
    method PlaceOrder(buyerId: int, raw: RawOrder, freshOrderId: string) returns (outcome: OrderOutcome)
      requires Valid()
      requires freshOrderId !in orders
      modifies this
      ensures Valid()
      ensures buyers == old(buyers) && products == old(products) && carts == old(carts)
      ensures cartItems == old(cartItems) && store == old(store)
      ensures ParseOrder(raw).None? ==> outcome == Rejected(400)
      ensures ParseOrder(raw).Some? && !HasBuyer(buyerId) ==> outcome == Rejected(404)
      ensures ParseOrder(raw).Some? && HasBuyer(buyerId) && !Orderable(ParseOrder(raw).value.kind, products) ==>
        outcome == Rejected(404)
      ensures outcome.Rejected? ==> orders == old(orders)
      ensures ParseOrder(raw).Some? && HasBuyer(buyerId) && Orderable(ParseOrder(raw).value.kind, products) ==>
        var req := ParseOrder(raw).value;
        && outcome == Placed(freshOrderId, PlacedMessage(req.paymentOption.payNow))
        && orders == old(orders)[freshOrderId := NewOrder(req, buyerId, LinesFor(req.kind, cartItems, products))]
    {
      var parsed := ParseOrder(raw);
      if parsed.None? {
        return Rejected(400);
      }
      var req := parsed.value;
      if !HasBuyer(buyerId) {
        return Rejected(404);
      }
      var lines: seq<OrderLine>;
      match req.kind {
        case FromCart(cartId) =>
          if cartId == "" {
            return Rejected(404);
          }
          lines := CartLines(ItemsInCart(cartItems, cartId), products);
        case DirectBuy(productId, quantity) =>
          if productId == 0 || productId !in products {
            return Rejected(404);
          }
          lines := [OrderLine(productId, quantity, products[productId].price)];
      }
      var total := ComputeTotal(lines);
      orders := orders[freshOrderId := Order(
        total, req.contactNumber, DeliveryInstructions(true, false, false, false),
        PaymentOption(false, true), false, false, false, buyerId, req.addressId, lines)];
      outcome := Placed(freshOrderId, PlacedMessage(req.paymentOption.payNow));
    }

    /** paymentHandler of the main service: a non-empty orderId naming a stored
        order yields a charge of total * 100 in "inr"; an unknown order gives 500. */
    function PaymentIntent(orderId: string, hasStripeKey: bool): (r: ChargeReply)
      reads this
      ensures r.status == 200 <==> ValidPaymentRequest(orderId) && orderId in orders && hasStripeKey
      ensures r.charge.Some? <==> r.status == 200
      ensures r.charge.Some? ==> r.charge.value == Charge(orders[orderId].total * 100, "inr")
      ensures !ValidPaymentRequest(orderId) ==> r.status == 400
      ensures ValidPaymentRequest(orderId) && orderId !in orders ==> r.status == 500
      ensures ValidPaymentRequest(orderId) && orderId in orders && !hasStripeKey ==> r.status == 404
    {
      if !ValidPaymentRequest(orderId) then ChargeReply(400, None)
      else if orderId !in orders then ChargeReply(500, None)
      else if !hasStripeKey then ChargeReply(404, None)
      else ChargeReply(200, Some(Charge(orders[orderId].total * 100, "inr")))
    }
  }

  /** A signed-in buyer is a verified buyer: the verification gate cannot be
      passed by a correct password alone. */
  lemma SignInNeedsVerification(shop: Shop, email: string, password: string, isEmail: string -> bool,
                                passwordMatches: (string, string) -> bool, hasJwtSecret: bool)
    requires shop.SignIn(email, password, isEmail, passwordMatches, hasJwtSecret) == 200
    ensures email in shop.buyers && shop.buyers[email].isVerified
  {
  }
}
