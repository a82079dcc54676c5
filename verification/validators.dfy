/** The request schemas of main-backend/src/types/types.ts and of the older
    src/types/types.ts, as predicates over typed requests.

    Regular expressions are modelled by what they do: an anchored pattern
    `^...$` made of single-character classes matches a whole string
    (FullMatch), and an unanchored `/[...]/` test succeeds when some position
    holds a character of the class (Search). The lemmas restate each schema at
    the level of characters. Email syntax is checked by the schema library;
    here it is the parameter `isEmail`. */
module Validators {
  import opened Common

  // ---------------------------------------------------------------------
  // Character classes of the schemas' regular expressions

  datatype CharClass =
    | Digit           // [0-9] and \d
    | Upper           // [A-Z]
    | Lower           // [a-z]
    | DigitOrUpper    // [0-9A-Z]
    | MobileLead      // [6-9]
    | NonWordOrSpace  // [\W\s]

  predicate IsUpper(c: char) { 'A' <= c <= 'Z' }
  predicate IsLower(c: char) { 'a' <= c <= 'z' }

  /** \w of an ECMAScript regular expression without the u flag. */
  predicate IsWordChar(c: char) { IsDigit(c) || IsUpper(c) || IsLower(c) || c == '_' }

  /** \s of ECMAScript: the WhiteSpace and LineTerminator code points. */
  predicate IsSpace(c: char) {
    c in {'\U{0009}', '\U{000A}', '\U{000B}', '\U{000C}', '\U{000D}', '\U{0020}',
          '\U{00A0}', '\U{1680}', '\U{2000}', '\U{2001}', '\U{2002}', '\U{2003}',
          '\U{2004}', '\U{2005}', '\U{2006}', '\U{2007}', '\U{2008}', '\U{2009}',
          '\U{200A}', '\U{2028}', '\U{2029}', '\U{202F}', '\U{205F}', '\U{3000}',
          '\U{FEFF}'}
  }

  predicate InClass(c: char, k: CharClass) {
    match k
    case Digit => IsDigit(c)
    case Upper => IsUpper(c)
    case Lower => IsLower(c)
    case DigitOrUpper => IsDigit(c) || IsUpper(c)
    case MobileLead => '6' <= c <= '9'
    case NonWordOrSpace => !IsWordChar(c) || IsSpace(c)
  }

  /** `^p$` where p is a sequence of single-character classes. */
  predicate FullMatch(p: seq<CharClass>, s: string)
    decreases p
  {
    if p == [] then s == []
    else s != [] && InClass(s[0], p[0]) && FullMatch(p[1..], s[1..])
  }

  /** `/[k]/.test(s)`: the search succeeds at some position of s. */
  predicate Search(k: CharClass, s: string)
    decreases |s|
  {
    s != [] && (InClass(s[0], k) || Search(k, s[1..]))
  }

  /** `k{n}` */
  function Repeat(k: CharClass, n: nat): (p: seq<CharClass>)
    ensures |p| == n && forall i :: 0 <= i < n ==> p[i] == k
  {
    if n == 0 then [] else [k] + Repeat(k, n - 1)
  }

  lemma {:induction false} FullMatchIff(p: seq<CharClass>, s: string)
    ensures FullMatch(p, s) <==> |s| == |p| && forall i :: 0 <= i < |s| ==> InClass(s[i], p[i])
    decreases p
  {
    if p != [] && s != [] {
      FullMatchIff(p[1..], s[1..]);
      if |s| == |p| && forall i :: 0 <= i < |s| ==> InClass(s[i], p[i]) {
        assert forall i :: 0 <= i < |s[1..]| ==> InClass(s[1..][i], p[1..][i]) by {
          forall i | 0 <= i < |s[1..]| ensures InClass(s[1..][i], p[1..][i]) {
            assert InClass(s[i + 1], p[i + 1]);
          }
        }
      }
      if FullMatch(p, s) {
        forall i | 0 <= i < |s| ensures InClass(s[i], p[i]) {
          if i > 0 { assert s[i] == s[1..][i - 1] && p[i] == p[1..][i - 1]; }
        }
      }
    }
  }

  lemma {:induction false} SearchIff(k: CharClass, s: string)
    ensures Search(k, s) <==> exists i :: 0 <= i < |s| && InClass(s[i], k)
    decreases |s|
  {
    if s != [] {
      SearchIff(k, s[1..]);
      if exists i :: 0 <= i < |s| && InClass(s[i], k) {
        var i :| 0 <= i < |s| && InClass(s[i], k);
        if i > 0 { assert InClass(s[1..][i - 1], k); }
      }
      if Search(k, s[1..]) {
        var j :| 0 <= j < |s[1..]| && InClass(s[1..][j], k);
        assert InClass(s[j + 1], k);
      }
    }
  }

  // ---------------------------------------------------------------------
  // Field rules shared by several schemas

  /** gstNumber: `/^[0-9A-Z]{15}$/` */
  predicate ValidGstNumber(s: string) { FullMatch(Repeat(DigitOrUpper, 15), s) }

  /** contactNumber: `/^[6-9]\d{9}$/` */
  predicate ValidContactNumber(s: string) { FullMatch([MobileLead] + Repeat(Digit, 9), s) }

  /** password: min(8) and the four unanchored tests [A-Z], [a-z], [0-9], [\W\s]. */
  predicate ValidPassword(s: string) {
    |s| >= 8 && Search(Upper, s) && Search(Lower, s) && Search(Digit, s) && Search(NonWordOrSpace, s)
  }

  /** A GST number is exactly fifteen characters, each a digit or an upper-case
      letter: the pattern is anchored at both ends, so longer strings fail too. */
  lemma GstNumberAccepted(s: string)
    ensures ValidGstNumber(s) <==> |s| == 15 && forall i :: 0 <= i < |s| ==> IsDigit(s[i]) || IsUpper(s[i])
  {
    FullMatchIff(Repeat(DigitOrUpper, 15), s);
  }

  /** Ten digits, the first of them 6 to 9. */
  predicate MobileShaped(c: string) {
    |c| == 10 && '6' <= c[0] <= '9' && AllDigits(c)
  }

  /** An Indian mobile number is exactly ten digits, the first of them 6, 7, 8 or 9. */
  lemma ContactNumberAccepted(s: string)
    ensures ValidContactNumber(s) <==> MobileShaped(s)
  {
    var p := [MobileLead] + Repeat(Digit, 9);
    FullMatchIff(p, s);
    if |s| == 10 && '6' <= s[0] <= '9' && AllDigits(s) {
      forall i | 0 <= i < |s| ensures InClass(s[i], p[i]) {
        if i > 0 { assert p[i] == Digit; }
      }
    }
    if ValidContactNumber(s) {
      assert InClass(s[0], p[0]);
      forall i | 0 <= i < |s| ensures IsDigit(s[i]) {
        assert InClass(s[i], p[i]);
        if i > 0 { assert p[i] == Digit; }
      }
    }
  }

  /** Every \s character is already a \W character, so the special-character
      test asks for a character outside [A-Za-z0-9_]. */
  lemma SpaceIsNonWord(c: char)
    ensures InClass(c, NonWordOrSpace) <==> !IsWordChar(c)
  {
  }

  /** A password is accepted iff it has at least eight characters and contains an
      upper-case letter, a lower-case letter, a digit and a character that is
      not a letter, a digit or an underscore. */
  lemma PasswordAccepted(s: string)
    ensures ValidPassword(s) <==>
      && |s| >= 8
      && (exists i :: 0 <= i < |s| && IsUpper(s[i]))
      && (exists i :: 0 <= i < |s| && IsLower(s[i]))
      && (exists i :: 0 <= i < |s| && IsDigit(s[i]))
      && (exists i :: 0 <= i < |s| && !IsWordChar(s[i]))
  {
    SearchIff(Upper, s);
    SearchIff(Lower, s);
    SearchIff(Digit, s);
    SearchIff(NonWordOrSpace, s);
  }

  /** The underscore is a word character: a password whose only symbols are
      underscores is refused, however long. */
  lemma UnderscoreIsNotSpecial(s: string)
    requires forall i :: 0 <= i < |s| ==> IsWordChar(s[i])
    ensures !ValidPassword(s)
  {
    PasswordAccepted(s);
  }

  // ---------------------------------------------------------------------
  // Seller schemas

  datatype SellerSignupRequest = SellerSignupRequest(
    storeName: string, gstNumber: string, email: string,
    address: string, contactNumber: string, password: string)

  predicate ValidSellerSignup(r: SellerSignupRequest, isEmail: string -> bool) {
    && |r.storeName| >= 2
    && ValidGstNumber(r.gstNumber)
    && isEmail(r.email)
    && |r.address| >= 5
    && ValidContactNumber(r.contactNumber)
    && ValidPassword(r.password)
  }

  /** Seller signup, field by field at the level of characters. */
  lemma SellerSignupAccepted(r: SellerSignupRequest, isEmail: string -> bool)
    ensures ValidSellerSignup(r, isEmail) <==>
      && |r.storeName| >= 2
      && |r.gstNumber| == 15
      && (forall i :: 0 <= i < 15 ==> IsDigit(r.gstNumber[i]) || IsUpper(r.gstNumber[i]))
      && isEmail(r.email)
      && |r.address| >= 5
      && |r.contactNumber| == 10 && '6' <= r.contactNumber[0] <= '9' && AllDigits(r.contactNumber)
      && ValidPassword(r.password)
  {
    GstNumberAccepted(r.gstNumber);
    ContactNumberAccepted(r.contactNumber);
  }

  datatype SellerSigninRequest = SellerSigninRequest(email: string, gstNumber: string, password: string)

  predicate ValidSellerSignin(r: SellerSigninRequest, isEmail: string -> bool) {
    isEmail(r.email) && ValidGstNumber(r.gstNumber)
  }

  /** Seller signin checks the email and the exact GST format; any password string passes. */
  lemma SellerSigninAccepted(r: SellerSigninRequest, isEmail: string -> bool)
    ensures ValidSellerSignin(r, isEmail) <==>
      isEmail(r.email) && |r.gstNumber| == 15 &&
      forall i :: 0 <= i < 15 ==> IsDigit(r.gstNumber[i]) || IsUpper(r.gstNumber[i])
  {
    GstNumberAccepted(r.gstNumber);
  }

  datatype CreateProductRequest = CreateProductRequest(
    name: string, description: string, price: int, category: string, stock: int)

  predicate ValidCreateProduct(r: CreateProductRequest) {
    |r.name| >= 2 && |r.description| >= 10 && r.price > 0 && |r.category| > 0 && r.stock >= 0
  }

  /** A product with no positive price or with negative stock is refused. */
  lemma CreateProductRejectsBadNumbers(r: CreateProductRequest)
    ensures r.price <= 0 ==> !ValidCreateProduct(r)
    ensures r.stock < 0 ==> !ValidCreateProduct(r)
    ensures ValidCreateProduct(r) ==> r.price > 0 && r.stock >= 0
  {
  }

  /** sellerProfileUpdateSchema: every field optional, each supplied one must meet its signup rule. */
  datatype ProfileUpdateRequest = ProfileUpdateRequest(
    storeName: Option<string>, email: Option<string>,
    address: Option<string>, contactNumber: Option<string>)

  predicate ValidProfileUpdate(u: ProfileUpdateRequest, isEmail: string -> bool) {
    && (u.storeName.Some? ==> |u.storeName.value| >= 2)
    && (u.email.Some? ==> isEmail(u.email.value))
    && (u.address.Some? ==> |u.address.value| >= 5)
    && (u.contactNumber.Some? ==> ValidContactNumber(u.contactNumber.value))
  }

  /** The update schema reuses the signup rules of its four fields: any subset
      of signup values that meet those rules is a valid profile update. */
  lemma SignupValuesMakeValidUpdate(r: SellerSignupRequest, isEmail: string -> bool,
                                    takeName: bool, takeEmail: bool, takeAddress: bool, takeContact: bool)
    requires |r.storeName| >= 2 && isEmail(r.email) && |r.address| >= 5
    requires ValidContactNumber(r.contactNumber)
    ensures ValidProfileUpdate(ProfileUpdateRequest(
      if takeName then Some(r.storeName) else None,
      if takeEmail then Some(r.email) else None,
      if takeAddress then Some(r.address) else None,
      if takeContact then Some(r.contactNumber) else None), isEmail)
  {
  }

  /** A supplied field that breaks its rule makes the whole update invalid. */
  lemma BadSuppliedFieldRejectsUpdate(u: ProfileUpdateRequest, isEmail: string -> bool)
    requires || (u.storeName.Some? && |u.storeName.value| < 2)
             || (u.email.Some? && !isEmail(u.email.value))
             || (u.address.Some? && |u.address.value| < 5)
             || (u.contactNumber.Some? && !MobileShaped(u.contactNumber.value))
    ensures !ValidProfileUpdate(u, isEmail)
  {
    if u.contactNumber.Some? { ContactNumberAccepted(u.contactNumber.value); }
  }

  datatype ForgotPasswordRequest = ForgotPasswordRequest(email: string, gstNumber: string)

  /** sellerForgotPasswordSchema: both fields non-empty. */
  predicate ValidForgotPassword(r: ForgotPasswordRequest) {
    |r.email| > 0 && |r.gstNumber| > 0
  }

  /** A seller's signup email and GST number always make an acceptable
      forgot-password request: a well-formed GST number is never empty, and
      neither is an email address. */
  lemma ForgotPasswordAcceptsSignupValues(email: string, gstNumber: string, isEmail: string -> bool)
    requires isEmail(email) && !isEmail("")
    requires ValidGstNumber(gstNumber)
    ensures ValidForgotPassword(ForgotPasswordRequest(email, gstNumber))
  {
    GstNumberAccepted(gstNumber);
  }

  // ---------------------------------------------------------------------
  // Buyer schemas

  datatype BuyerSignupRequest = BuyerSignupRequest(username: string, email: string, password: string)

  predicate ValidBuyerSignup(r: BuyerSignupRequest, isEmail: string -> bool) {
    |r.username| >= 2 && isEmail(r.email) && ValidPassword(r.password)
  }

  /** Buyer signup applies the same password rule as seller signup. */
  lemma BuyerSignupAccepted(r: BuyerSignupRequest, isEmail: string -> bool)
    ensures ValidBuyerSignup(r, isEmail) <==>
      && |r.username| >= 2 && isEmail(r.email) && |r.password| >= 8
      && (exists i :: 0 <= i < |r.password| && IsUpper(r.password[i]))
      && (exists i :: 0 <= i < |r.password| && IsLower(r.password[i]))
      && (exists i :: 0 <= i < |r.password| && IsDigit(r.password[i]))
      && (exists i :: 0 <= i < |r.password| && !IsWordChar(r.password[i]))
  {
    PasswordAccepted(r.password);
  }

  datatype AddToCartRequest = AddToCartRequest(productId: int, quantity: int)

  /** addToCartSchema: a positive productId and a positive quantity. */
  predicate ValidAddToCart(r: AddToCartRequest) { r.productId > 0 && r.quantity > 0 }

  /** paymentSchema: orderId must be a non-empty string. */
  predicate ValidPaymentRequest(orderId: string) { |orderId| > 0 }

  // ---------------------------------------------------------------------
  // orderSchema: a union discriminated by isFromCart

  datatype PaymentOption = PaymentOption(payNow: bool, payOnDelivery: bool)

  /** The variant part of an order request. */
  datatype OrderKind =
    | FromCart(cartId: string)
    | DirectBuy(productId: int, quantity: int)

  /** A parsed order request with every default filled in. */
  datatype OrderRequest = OrderRequest(
    kind: OrderKind, contactNumber: string, paymentOption: PaymentOption,
    isPaid: bool, isDelivered: bool, isReturned: bool, addressId: string)

  datatype RawPaymentOption = RawPaymentOption(payNow: Option<bool>, payOnDelivery: Option<bool>)

  /** An order request body as it arrives: any field may be missing. */
  datatype RawOrder = RawOrder(
    isFromCart: Option<bool>, cartId: Option<string>,
    productId: Option<int>, quantity: Option<int>,
    contactNumber: Option<string>, paymentOption: Option<RawPaymentOption>,
    isPaid: Option<bool>, isDelivered: Option<bool>, isReturned: Option<bool>,
    addressId: Option<string>)

  /** The union dispatches on the value of isFromCart found in the body, so a
      body without it matches neither variant. */
  function ParseOrderKind(r: RawOrder): Option<OrderKind> {
    match r.isFromCart
    case None => None
    case Some(true) => if r.cartId.Some? then Some(FromCart(r.cartId.value)) else None
    case Some(false) => if r.productId.Some? then Some(DirectBuy(r.productId.value, r.quantity.GetOr(1))) else None
  }

  function ParseOrder(r: RawOrder): (res: Option<OrderRequest>)
    ensures res.Some? <==>
      && r.contactNumber.Some? && r.paymentOption.Some? && r.addressId.Some?
      && r.isFromCart.Some?
      && (r.isFromCart.value ==> r.cartId.Some?)
      && (!r.isFromCart.value ==> r.productId.Some?)
  {
    match ParseOrderKind(r)
    case None => None
    case Some(kind) =>
      if r.contactNumber.None? || r.paymentOption.None? || r.addressId.None? then None
      else Some(OrderRequest(
        kind, r.contactNumber.value,
        PaymentOption(r.paymentOption.value.payNow.GetOr(false), r.paymentOption.value.payOnDelivery.GetOr(false)),
        r.isPaid.GetOr(false), r.isDelivered.GetOr(false), r.isReturned.GetOr(false),
        r.addressId.value))
  }

  /** What parsing keeps from the body and which defaults it fills in. */
  lemma ParseOrderDefaults(r: RawOrder)
    requires ParseOrder(r).Some?
    ensures var o := ParseOrder(r).value;
      && (r.isFromCart == Some(true) ==> o.kind == FromCart(r.cartId.value))
      && (r.isFromCart == Some(false) ==> o.kind.DirectBuy? && o.kind.productId == r.productId.value)
      && (r.isFromCart == Some(false) && r.quantity.None? ==> o.kind.quantity == 1)
      && (r.isFromCart == Some(false) && r.quantity.Some? ==> o.kind.quantity == r.quantity.value)
      && (r.isPaid.None? ==> !o.isPaid)
      && (r.isPaid.Some? ==> o.isPaid == r.isPaid.value)
      && (r.isDelivered.None? ==> !o.isDelivered)
      && (r.isDelivered.Some? ==> o.isDelivered == r.isDelivered.value)
      && (r.isReturned.None? ==> !o.isReturned)
      && (r.isReturned.Some? ==> o.isReturned == r.isReturned.value)
      && (r.paymentOption.value.payNow.None? ==> !o.paymentOption.payNow)
      && (r.paymentOption.value.payNow.Some? ==> o.paymentOption.payNow == r.paymentOption.value.payNow.value)
      && (r.paymentOption.value.payOnDelivery.None? ==> !o.paymentOption.payOnDelivery)
      && (r.paymentOption.value.payOnDelivery.Some? ==>
            o.paymentOption.payOnDelivery == r.paymentOption.value.payOnDelivery.value)
      && o.contactNumber == r.contactNumber.value && o.addressId == r.addressId.value
  {
  }
}
