# E-commerce backend: validators, orders, carts, OTPs and payments

This project models the logic of a multi-service e-commerce backend. The
services are a main API for sellers and buyers, and a payment service. The model
covers three parts:

- **Request schemas.** These are the zod schemas of
  `main-backend/src/types/types.ts` and of the older `src/types/types.ts`. They
  become predicates over typed requests (module `Validators`). The two files
  declare the same seller schemas, so those are modelled once. Regular
  expressions are modelled by what they do: an anchored pattern of
  single-character classes matches a whole string (`FullMatch`), and an
  unanchored test searches for one character (`Search`). Lemmas then restate
  each rule at the level of characters:
  - GST numbers are exactly 15 characters of `[0-9A-Z]`.
  - Mobile numbers are ten digits and start with 6–9.
  - A password needs an upper-case letter, a lower-case letter, a digit and a
    character outside `[A-Za-z0-9_]`. The underscore does not count as special.
- **Order construction and total** (module `Orders`, and `Shop.PlaceOrder`).
  Lines come either from the cart's items or from one directly bought product.
  Each line takes the product's stored price and a quantity that defaults to 1.
  The total is the sum of quantity × price. The loop that accumulates it
  (`ComputeTotal`) is proved equal to that sum. The sum does not depend on the
  order of the lines. Whatever the request says, the stored order has
  isPaid = isDelivered = isReturned = false and pays on delivery.
- **Handlers over tables and the Redis store.** Each of these is a class whose
  fields are the tables, or the key-value store, that its handlers change:
  - `BuyerService.Shop` models `src/controllers/buyer.controller.ts`: adding to
    the cart, the email-verification OTP, sign-in, placing an order and the
    payment intent.
  - `SellerService.SellerAccounts` models
    `main-backend/src/controllers/seller.controller.ts`: the profile-update
    merge, and the password-reset OTP stored under `otp:<email>`.
  - `PaymentService.PaymentLedger` models the payment service: the payments
    table, the charge of total × 100 in "inr", and the success flag.

  Each handler returns the HTTP status it answers with. Its contract states the
  new contents of every table and of the store.

Other behaviours of the code that the model keeps:
- The order schema is a union discriminated by `isFromCart`. The schema library
  dispatches on the value found in the body, so a body without `isFromCart` is
  rejected. The `default(false)` on that field is never reached.
- `addToCart` creates the buyer's cart before it inserts the item. When the
  product does not exist, the insert breaks the product foreign key and the
  handler answers 500. The new, empty cart stays.
- `cartCount` always equals the number of items in the cart. This is an
  invariant of `Shop`.
- There is one email-verification OTP key for all buyers. An OTP sent to one
  buyer can verify another.
- On a match, the verification handler answers 200 before it updates the buyer.
  If no buyer has the given email, the update fails after the reply and nothing
  changes.
- The payment handler of the main service answers 500 for an unknown order. The
  payment service answers 404.

Parameters stand for what happens outside this code:
- Email syntax: `isEmail`.
- The bcrypt comparison: `passwordMatches`.
- The random draw: `r`, with 0 ≤ r < 900000.
- Whether the JWT secret and the Stripe key are configured: a boolean each.
- Fresh database ids: `freshCartId` and `freshOrderId`.

## Model

| member | source | states |
|---|---|---|
| `Common.DecimalRoundTrip` | main-backend/src/controllers/seller.controller.ts:254 | An OTP stored as text is made of digits and reads back as the same number. |
| `Common.DecimalInjective` | main-backend/src/controllers/seller.controller.ts:292 | Comparing OTP texts compares the numbers: equal texts mean equal OTPs. |
| `Common.SixDigitOtp` | main-backend/src/controllers/seller.controller.ts:252-253 | The generated OTP lies in [100000, 999999] and its text is exactly six digits. |
| `Validators.GstNumberAccepted` | main-backend/src/types/types.ts:5 | A GST number is accepted iff it has exactly 15 characters, each 0-9 or A-Z. The pattern is anchored, so longer strings fail despite the "atleast" message. |
| `Validators.ContactNumberAccepted` | main-backend/src/types/types.ts:8 | A contact number is accepted iff it has exactly 10 digits and the first is 6, 7, 8 or 9. |
| `Validators.SpaceIsNonWord` | main-backend/src/types/types.ts:14 | The special-character class `[\W\s]` is the same as "not in [A-Za-z0-9_]". |
| `Validators.PasswordAccepted` | main-backend/src/types/types.ts:9-14 | A password is accepted iff it has length ≥ 8 and contains an upper-case letter, a lower-case letter, a digit and a character outside [A-Za-z0-9_]. |
| `Validators.UnderscoreIsNotSpecial` | main-backend/src/types/types.ts:56-61 | A password made only of letters, digits and underscores is refused: the underscore is not special. |
| `Validators.SellerSignupAccepted` | src/types/types.ts:3-15 | Seller signup requires storeName ≥ 2 characters, an exact 15-character GST number, an email, address ≥ 5 characters, a valid mobile number and a strong password. |
| `Validators.SellerSigninAccepted` | src/types/types.ts:17-21 | Seller signin requires an email and an exact 15-character `[0-9A-Z]` GST number. Any password string passes. |
| `Validators.CreateProductRejectsBadNumbers` | src/types/types.ts:25-31 | createProduct refuses price ≤ 0 and negative stock. An accepted product has price > 0 and stock ≥ 0. |
| `Validators.SignupValuesMakeValidUpdate` | main-backend/src/types/types.ts:35-40 | The update schema reuses the signup rules: any subset of storeName, email, address and contactNumber values that meet their signup rules is a valid profile update. |
| `Validators.BadSuppliedFieldRejectsUpdate` | main-backend/src/types/types.ts:36-39 | A supplied field that breaks its own signup rule makes the update invalid: a storeName under 2 characters, a non-email, an address under 5 characters, or a contact number that is not ten digits starting with 6-9. |
| `Validators.ValidForgotPassword` | main-backend/src/types/types.ts:43-46 | The forgot-password body needs a non-empty email and a non-empty gstNumber. |
| `Validators.ForgotPasswordAcceptsSignupValues` | main-backend/src/types/types.ts:43-46 | A seller's accepted email and well-formed GST number always pass the forgot-password schema. |
| `Validators.BuyerSignupAccepted` | main-backend/src/types/types.ts:53-62 | Buyer signup requires username ≥ 2 characters, an email, and the same password rule as sellers. |
| `Validators.ValidAddToCart` | main-backend/src/types/types.ts:81-84 | An add-to-cart body needs a positive productId and a positive quantity. |
| `Validators.ValidPaymentRequest` | main-backend/src/types/types.ts:127-128 | A payment body needs a non-empty orderId. |
| `Validators.ParseOrder` | main-backend/src/types/types.ts:98-125 | An order body parses iff isFromCart is present, the chosen variant has its key (cartId, or productId) and the base fields are present. |
| `Validators.ParseOrderDefaults` | main-backend/src/types/types.ts:102-119 | After parsing, a direct buy without a quantity has quantity 1. Absent isPaid, isDelivered, isReturned, pay_now and pay_on_delivery are false. Every supplied value (the variant key, quantity, the three flags, pay_now, pay_on_delivery, contactNumber and addressId) is kept. |
| `Orders.ItemsInCart` | src/controllers/buyer.controller.ts:394-399 | The items fetched for a checkout all belong to that cart, and every stored item of that cart is among them. |
| `Orders.ItemsInCartMultiplicity` | src/controllers/buyer.controller.ts:394-399 | Each item occurs in the fetched list exactly as often as it occurs in the table for that cart, and not at all for another cart: identical rows are all kept. |
| `Orders.CartLines` | src/controllers/buyer.controller.ts:401-405 | One line per cart item, with the product's stored price and the item's quantity (1 when it is null). |
| `Orders.LinesFor` | src/controllers/buyer.controller.ts:388-431 | Every line carries its product's stored price, never a client value. A direct buy has exactly one line. |
| `Orders.Total` | src/controllers/buyer.controller.ts:434-437 | The reference sum of quantity × price. A non-empty order whose quantities and prices are all positive has a positive total. |
| `Orders.AcceptedRequestsGivePositiveTotal` | main-backend/src/types/types.ts:81-84 | A non-empty cart whose items passed the add-to-cart schema (quantity > 0), over products whose prices passed createProduct (price > 0), checks out at a positive total. |
| `Orders.TotalPermutation` | src/controllers/buyer.controller.ts:434-437 | The total does not depend on the order of the lines. |
| `Orders.TotalNonNegative` | src/controllers/buyer.controller.ts:436 | With non-negative quantities and prices the total is not negative. |
| `Orders.DirectBuyTotal` | src/controllers/buyer.controller.ts:424-437 | A direct buy totals quantity × stored price. A negative quantity, which the schema allows, gives a negative total. |
| `Orders.EmptyCartTotal` | src/controllers/buyer.controller.ts:394-405 | Checking out a cart id with no items yields no lines and a total of 0. |
| `Orders.ComputeTotal` | src/controllers/buyer.controller.ts:434-437 | The accumulating loop returns Σ quantity × price over the lines. |
| `BuyerService.StoredOrderIgnoresRequestFlags` | src/controllers/buyer.controller.ts:441-463 | The stored order depends only on the contact number, the address, the buyer and the lines. isPaid, isDelivered and isReturned are false, and the payment option is {pay_now: false, pay_on_delivery: true}. |
| `BuyerService.CreateCartKeepsConsistency` | src/controllers/buyer.controller.ts:270-278 | Creating an empty cart under an unused id keeps cartCount = number of items, and keeps cart ids distinct. |
| `BuyerService.AddItemKeepsConsistency` | src/controllers/buyer.controller.ts:282-297 | Inserting one item and adding 1 to cartCount keeps cartCount = number of items in every cart. |
| `BuyerService.Shop.RequestEmailVerification` | src/controllers/buyer.controller.ts:63-99 | A bad email gives 400 and an unknown buyer 404. Otherwise a six-digit OTP is stored under the single global key, and no table changes. |
| `BuyerService.Shop.VerifyEmail` | src/controllers/buyer.controller.ts:111-146 | An absent OTP gives 500 and a mismatch 400, with no change. A match gives 200, sets that buyer's isVerified and deletes the key. For an unknown email it answers 200 and changes nothing. |
| `BuyerService.Shop.SignIn` | src/controllers/buyer.controller.ts:158-190 | An unknown email gives 404, then a wrong password 400, then an unverified buyer 400. 200 iff the buyer exists, the password matches, the buyer is verified and a secret is set. |
| `BuyerService.SignInNeedsVerification` | src/controllers/buyer.controller.ts:187-190 | Every successful sign-in is by a verified buyer. |
| `BuyerService.Shop.AddToCart` | src/controllers/buyer.controller.ts:234-299 | An invalid body gives 400 and an unknown buyer 404, with no change. Otherwise the cart is created if absent. An unknown product then gives 500 with no item. Otherwise exactly one item is appended and cartCount rises by exactly 1. The invariant is kept. |
| `BuyerService.Shop.PlaceOrder` | src/controllers/buyer.controller.ts:353-471 | These give 404 and create no order: a bad body (400), a missing buyer, an empty cartId, and a direct buy of product 0 or of an unknown product. Otherwise exactly one order is stored, with the lines from the stored prices, the total of those lines and the fixed flags. Only the message depends on pay_now. |
| `BuyerService.Shop.PaymentIntent` | src/controllers/buyer.controller.ts:481-515 | An empty orderId gives 400, an unknown order 500 and a missing key 404. 200 iff the orderId is non-empty, names an order and the key is set; then it charges the order's total × 100 in "inr". |
| `SellerService.MergeProfile` | main-backend/src/controllers/seller.controller.ts:208-218 | Each profile field takes the supplied value if present, else keeps the stored one. gstNumber and the password are untouched. |
| `SellerService.MergeProperties` | src/controllers/seller.controller.ts:209-219 | An update with nothing supplied leaves the row as it was. Applying the same update twice equals applying it once. |
| `SellerService.MergeSequential` | src/controllers/seller.controller.ts:213-218 | Two successive updates equal one update in which the later supplied fields win. |
| `SellerService.NothingToUpdateMeansAllAbsent` | src/controllers/seller.controller.ts:188-191 | For a schema-valid update, the emptiness check fires exactly when no field was supplied. |
| `SellerService.SellerAccounts.ProfileRead` | main-backend/src/controllers/seller.controller.ts:142-173 | The schema accepts any gstNumber string, so the reply is always 200. It holds the public columns of a seller with that GST number, and it is empty exactly when no seller has it. The password hash is never part of it. |
| `SellerService.SellerAccounts.ProfileUpdate` | main-backend/src/controllers/seller.controller.ts:178-220 | An invalid or absent body gives 400, and so does an update with no field. An unknown seller gives 500. In all three cases nothing changes. Otherwise the row becomes the merge, and the store is untouched. |
| `SellerService.OtpKeyProperties` | main-backend/src/controllers/seller.controller.ts:254 | OTP keys `otp:<email>` are distinct for distinct emails and never equal the literal key `otp`. |
| `SellerService.SellerAccounts.ForgotPassword` | main-backend/src/controllers/seller.controller.ts:230-266 | It answers 400 unless the body is valid and a seller matches id, email and gstNumber together. On success it stores a six-digit OTP under `otp:<email>`. |
| `SellerService.CheckOtpAsWritten` | main-backend/src/controllers/seller.controller.ts:285-302 | An absent OTP gives 500, a mismatch 400 and a match 200. After a match only the literal key `otp` is deleted. |
| `SellerService.SellerAccounts.VerifyOtp` | main-backend/src/controllers/seller.controller.ts:276-304 | The handler's status and new store are those of CheckOtpAsWritten. The sellers table is unchanged. |
| `SellerService.OtpReplayableAsWritten` | main-backend/src/controllers/seller.controller.ts:302 | As written, a verified OTP stays stored under `otp:<email>` and verifies again. |
| `SellerService.CheckOtp` | main-backend/src/controllers/seller.controller.ts:299-302 | Corrected check: the same outcomes, and after a match the key `otp:<email>` is deleted. |
| `SellerService.CorrectedOtpIsSingleUse` | main-backend/src/controllers/seller.controller.ts:301-302 | With the corrected delete, a second verification finds no OTP (500). Other sellers' OTPs are kept. |
| `PaymentService.MarkSucceeded` | payment-service-backend/src/controllers/paymentController.ts:67-72 | Only the row of orderId changes, and only its success flag, which becomes true. The keys and all other rows are unchanged. |
| `PaymentService.MarkSucceededIdempotent` | payment-service-backend/src/controllers/paymentController.ts:67-72 | Confirming a payment twice equals confirming it once. |
| `PaymentService.ChargeFor` | payment-service-backend/src/controllers/paymentController.ts:8-51 | The payment handler over the ledger's payments table, which it only reads. An invalid payload gives 400, an unknown orderId 404 and a missing gateway key 404, with no charge. 200 iff the payload names a stored payment and the key is set, and the charge is exactly total × 100 in "inr". |
| `PaymentService.ChargeIgnoresSuccessFlag` | payment-service-backend/src/controllers/paymentController.ts:20-40 | Confirming a payment does not change what a later charge request for the same order asks. |
| `PaymentService.PaymentLedger.RecordOrderCreated` | payment-service-backend/src/index.ts:47-62 | A new orderId gets a row with the buyer, the total and the flag unset. A duplicate leaves the table unchanged. |
| `PaymentService.PaymentLedger.PaymentSuccess` | payment-service-backend/src/controllers/paymentController.ts:54-80 | An invalid payload gives 400 before any lookup. An unknown orderId gives 500 with no change. Otherwise the table becomes MarkSucceeded of the old table. |

## Findings

| source | as written | input that shows it | evidently intended | confidence | as-written member | corrected member |
|---|---|---|---|---|---|---|
| main-backend/src/controllers/seller.controller.ts:302 | After a matching OTP, the handler deletes the key `otp`, not the key `otp:<email>` it read from. | Forgot-password for `a@b.in` stores `otp:a@b.in` = "123456". Calling verify-OTP twice with (`a@b.in`, "123456") answers 200 both times. | Delete `otp:<email>`, so an OTP verifies once (the comment says "delete the otp after use"). | not executed; high | `SellerService.OtpReplayableAsWritten` | `SellerService.CorrectedOtpIsSingleUse` |

`SellerAccounts.VerifyOtp` models the handler as written. `CheckOtp` is the
corrected definition.

## Left out

- Express setup, routers, the index files, cookies and logging are wiring.
- JWT signing and verification, and bcrypt hashing, are library calls.
  `passwordMatches` stands for bcrypt's comparison, and a token is only "issued"
  as status 200.
- Email syntax (zod's `email()`) is library-defined. It is the parameter
  `isEmail`.
- Sending email and the Stripe SDK call are network I/O. Only the arguments of
  the charge (amount and currency) are modelled.
- `Math.random` is the input `r`. The Redis TTL (expiry after 300 seconds)
  depends on the clock. The `ttl` calls only change a message text.
- Numbers are JavaScript floating point. Prices, quantities, totals and stock
  are exact integers here, and fractional values that `zod.number()` accepts are
  not modelled.
- String lengths are counted in Unicode code points. JavaScript counts UTF-16
  code units, so a character outside the BMP counts twice there.
- Requests are modelled with typed fields. A field of the wrong JSON type, which
  the schema rejects with 400, is not represented. Optional fields are `Option`.
- The order's `deliveryInstructions` is parsed and then discarded. The handler
  stores fixed instructions, so only the stored value is modelled. A malformed
  one would be rejected with 400, and that case is not modelled.
- `addressSchema` and `addAddress`: every field is only type-checked, so no
  constraint remains on typed fields. The address insert is a single row.
- Buyer signup, seller signup and seller signin are single inserts or
  lookups. The buyers and sellers tables are given to the
  constructors.
- In `src/controllers/seller.controller.ts`, `sellerForgotPassword` has an
  empty body. It changes nothing and sends no response, so there is nothing to
  model.
- That file imports `sellerProfileUpdateSchema` from `src/types/types.ts`,
  which does not declare it. Its update handler is the same as the main
  backend's, and it is modelled with the main backend's schema.
- The payment service's own request schema is not part of this model. Its
  payload is `Some(orderId)` when accepted and `None` otherwise.
- Database failures answer 500 through each handler's catch-all, and they are
  not modelled. Unique constraints other than the table keys are not modelled
  either. The product foreign key of cart items is assumed, because the
  database schema is not part of this model. Fresh ids are preconditions.
- The `isPaymentSuccessfull` column is assumed to default to false.
- A new cart's `cartCount` is assumed to default to 0. The cart is created
  without a count (src/controllers/buyer.controller.ts:271-277), and the
  database schema is not part of this model.
- The seller profile read also returns the seller's products, which are not
  modelled.
- Every handler runs as one atomic step, and handlers run one after another.
  Interleavings are not modelled: two `addToCart` calls that both find no cart
  and both create one (src/controllers/buyer.controller.ts:253-278), or a read
  racing the un-awaited `redisClient.set` of the email OTP
  (src/controllers/buyer.controller.ts:86).
- `main-backend/src/routes/buyer.routes.ts` imports `createOrder`, but the
  modelled buyer controller exports that handler as `order`. The controller
  also imports buyer schemas that `src/types/types.ts` does not declare. The
  model uses the main backend's schemas for them.
- Validators.CreateProductRejectsBadNumbers: prices are integers here, so a
  fractional price such as 0.5, which the schema accepts, cannot be stated.
- BuyerService.Shop.SignIn: returns only the status. The token's contents and
  the cookie are not modelled.
- BuyerService.Shop.VerifyEmail: the failed attempt to send a second reply,
  after the 200 was already sent, is not modelled.
