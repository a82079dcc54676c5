/** The seller handlers of main-backend/src/controllers/seller.controller.ts
    (and the same profile update in src/controllers/seller.controller.ts) over
    the sellers table and the Redis instance holding password-reset OTPs. */
module SellerService {
  import opened Common
  import opened Validators

  /** A seller row, keyed by id. */
  datatype Seller = Seller(
    storeName: string, gstNumber: string, email: string,
    address: string, contactNumber: string, passwordHash: string)

  /** What the profile read returns of a seller: every column but the password
      hash. */
  datatype PublicProfile = PublicProfile(
    storeName: string, gstNumber: string, email: string, address: string, contactNumber: string)

  function PublicOf(s: Seller): PublicProfile {
    PublicProfile(s.storeName, s.gstNumber, s.email, s.address, s.contactNumber)
  }

  // ---------------------------------------------------------------------
  // Profile update

  /** The row written by a profile update: each of the four profile fields takes
      the supplied value, or keeps the stored one when none was supplied. */
  function MergeProfile(s: Seller, u: ProfileUpdateRequest): (r: Seller)
    ensures r.gstNumber == s.gstNumber && r.passwordHash == s.passwordHash
    ensures u.storeName.Some? ==> r.storeName == u.storeName.value
    ensures u.storeName.None? ==> r.storeName == s.storeName
    ensures u.email.Some? ==> r.email == u.email.value
    ensures u.email.None? ==> r.email == s.email
    ensures u.address.Some? ==> r.address == u.address.value
    ensures u.address.None? ==> r.address == s.address
    ensures u.contactNumber.Some? ==> r.contactNumber == u.contactNumber.value
    ensures u.contactNumber.None? ==> r.contactNumber == s.contactNumber
  {
    s.(storeName := u.storeName.GetOr(s.storeName),
       email := u.email.GetOr(s.email),
       address := u.address.GetOr(s.address),
       contactNumber := u.contactNumber.GetOr(s.contactNumber))
  }

  /** An update with every field absent writes the row back unchanged; applying
      the same update twice is the same as applying it once. */
  lemma MergeProperties(s: Seller, u: ProfileUpdateRequest)
    ensures MergeProfile(s, ProfileUpdateRequest(None, None, None, None)) == s
    ensures MergeProfile(MergeProfile(s, u), u) == MergeProfile(s, u)
  {
  }

  /** The later of two updates wins field by field. */
  function Override(first: ProfileUpdateRequest, second: ProfileUpdateRequest): ProfileUpdateRequest {
    ProfileUpdateRequest(
      if second.storeName.Some? then second.storeName else first.storeName,
      if second.email.Some? then second.email else first.email,
      if second.address.Some? then second.address else first.address,
      if second.contactNumber.Some? then second.contactNumber else first.contactNumber)
  }

  /** Two successive updates have the effect of one combined update. */
  lemma MergeSequential(s: Seller, first: ProfileUpdateRequest, second: ProfileUpdateRequest)
    ensures MergeProfile(MergeProfile(s, first), second) == MergeProfile(s, Override(first, second))
  {
  }

  /** The handler's emptiness test: every profile field is absent or the empty
      string (JavaScript treats both as false). */
  predicate NothingToUpdate(u: ProfileUpdateRequest) {
    && (u.storeName.None? || u.storeName.value == "")
    && (u.email.None? || u.email.value == "")
    && (u.address.None? || u.address.value == "")
    && (u.contactNumber.None? || u.contactNumber.value == "")
  }

  /** For an update the schema accepted, the emptiness check holds exactly when
      no field was supplied (an empty string fails every field's own rule, the
      email one included, since the empty string is not an email address). */
  lemma NothingToUpdateMeansAllAbsent(u: ProfileUpdateRequest, isEmail: string -> bool)
    requires ValidProfileUpdate(u, isEmail)
    requires !isEmail("")
    ensures NothingToUpdate(u) <==> u == ProfileUpdateRequest(None, None, None, None)
  {
    if u.contactNumber.Some? {
      ContactNumberAccepted(u.contactNumber.value);
    }
  }

  // ---------------------------------------------------------------------
  // Password-reset OTP

  /** The Redis key of a seller's OTP: `otp:` followed by the email. */
  function OtpKey(email: string): string { "otp:" + email }

  /** Distinct emails have distinct OTP keys, and no OTP key is the literal key
      `otp`. */
  lemma OtpKeyProperties(e1: string, e2: string)
    ensures OtpKey(e1) == OtpKey(e2) ==> e1 == e2
    ensures OtpKey(e1) != "otp"
  {
    assert |OtpKey(e1)| == 4 + |e1|;
    if OtpKey(e1) == OtpKey(e2) {
      assert e1 == OtpKey(e1)[4..];
      assert e2 == OtpKey(e2)[4..];
    }
  }

  /** The status of an OTP check and the Redis contents it leaves. */
  datatype OtpCheck = OtpCheck(status: int, store: map<string, string>)

  /** sellerVerifyOTP as written: the OTP is read from `otp:<email>`, but after a
      match the key deleted is the literal `otp`. */
  function CheckOtpAsWritten(store: map<string, string>, email: string, otp: string): (r: OtpCheck)
    ensures r.status == 200 <==>
      OtpKey(email) in store && store[OtpKey(email)] != "" && otp == store[OtpKey(email)]
    ensures r.status == 200 ==> r.store == store - {"otp"}
    ensures !(OtpKey(email) in store && store[OtpKey(email)] != "") ==> r.status == 500
    ensures OtpKey(email) in store && store[OtpKey(email)] != "" && otp != store[OtpKey(email)] ==> r.status == 400
    ensures r.status != 200 ==> r.store == store
  {
    var key := OtpKey(email);
    if key !in store || store[key] == "" then OtpCheck(500, store)
    else if otp != store[key] then OtpCheck(400, store)
    else OtpCheck(200, store - {"otp"})
  }

  /** sellerVerifyOTP with the used OTP deleted under the key it was read from. */
  function CheckOtp(store: map<string, string>, email: string, otp: string): (r: OtpCheck)
    ensures r.status == 200 <==>
      OtpKey(email) in store && store[OtpKey(email)] != "" && otp == store[OtpKey(email)]
    ensures r.status == 200 ==> r.store == store - {OtpKey(email)}
    ensures !(OtpKey(email) in store && store[OtpKey(email)] != "") ==> r.status == 500
    ensures OtpKey(email) in store && store[OtpKey(email)] != "" && otp != store[OtpKey(email)] ==> r.status == 400
    ensures r.status != 200 ==> r.store == store
  {
    var key := OtpKey(email);
    if key !in store || store[key] == "" then OtpCheck(500, store)
    else if otp != store[key] then OtpCheck(400, store)
    else OtpCheck(200, store - {key})
  }

  /** As written, a matched OTP survives its own verification: presenting it
      again succeeds again, for as long as the key lives. */
  lemma OtpReplayableAsWritten(store: map<string, string>, email: string, otp: string)
    requires CheckOtpAsWritten(store, email, otp).status == 200
    ensures OtpKey(email) in CheckOtpAsWritten(store, email, otp).store
    ensures CheckOtpAsWritten(CheckOtpAsWritten(store, email, otp).store, email, otp).status == 200
  {
    OtpKeyProperties(email, email);
  }

  /** With the delete aimed at `otp:<email>`, an OTP verifies once; a second
      attempt finds no OTP (500), and every other seller's OTP is kept. */
  lemma CorrectedOtpIsSingleUse(store: map<string, string>, email: string, otp: string)
    requires CheckOtp(store, email, otp).status == 200
    ensures CheckOtp(CheckOtp(store, email, otp).store, email, otp).status == 500
    ensures forall e :: e != email && OtpKey(e) in store ==>
      OtpKey(e) in CheckOtp(store, email, otp).store &&
      CheckOtp(store, email, otp).store[OtpKey(e)] == store[OtpKey(e)]
  {
    forall e | e != email
      ensures OtpKey(e) != OtpKey(email)
    {
      OtpKeyProperties(e, email);
    }
  }

  class SellerAccounts {
    var sellers: map<int, Seller>
    /** The Redis instance, as text keys and text values. */
    var store: map<string, string>

    constructor (initialSellers: map<int, Seller>)
      ensures sellers == initialSellers && store == map[]
    {
      sellers := initialSellers;
      store := map[];
    }

    /** sellerProfileHandler: its schema accepts every gstNumber string, so it
        never refuses a request; it answers 200 with the public columns of the
        seller holding that GST number, or with nothing when there is none. */
    method ProfileRead(gstNumber: string) returns (status: int, profile: Option<PublicProfile>)
      ensures status == 200
      ensures profile.None? <==> forall id :: id in sellers ==> sellers[id].gstNumber != gstNumber
      ensures profile.Some? ==>
        exists id :: id in sellers && sellers[id].gstNumber == gstNumber && profile.value == PublicOf(sellers[id])
    {
      status := 200;
      if id :| id in sellers && sellers[id].gstNumber == gstNumber {
        profile := Some(PublicOf(sellers[id]));
      } else {
        profile := None;
      }
    }

    /** sellerProfileUpdate for the authenticated seller. An absent body parses
        to nothing and is refused like an invalid one. */
    method ProfileUpdate(sellerId: int, body: Option<ProfileUpdateRequest>, isEmail: string -> bool)
      returns (status: int)
      modifies this
      ensures store == old(store)
      ensures body.None? || !ValidProfileUpdate(body.value, isEmail) ==> status == 400
      ensures body.Some? && ValidProfileUpdate(body.value, isEmail) && NothingToUpdate(body.value) ==> status == 400
      ensures (body.Some? && ValidProfileUpdate(body.value, isEmail) && !NothingToUpdate(body.value) &&
               sellerId !in old(sellers)) ==> status == 500
      ensures status == 200 <==>
        body.Some? && ValidProfileUpdate(body.value, isEmail) && !NothingToUpdate(body.value) && sellerId in old(sellers)
      ensures status == 200 ==> sellers == old(sellers)[sellerId := MergeProfile(old(sellers)[sellerId], body.value)]
      ensures status != 200 ==> sellers == old(sellers)
    {
      if body.None? || !ValidProfileUpdate(body.value, isEmail) {
        return 400;
      }
      var u := body.value;
      if NothingToUpdate(u) {
        return 400;
      }
      if sellerId !in sellers {
        return 500;
      }
      var seller := sellers[sellerId];
      sellers := sellers[sellerId := seller.(
        storeName := u.storeName.GetOr(seller.storeName),
        email := u.email.GetOr(seller.email),
        address := u.address.GetOr(seller.address),
        contactNumber := u.contactNumber.GetOr(seller.contactNumber))];
      status := 200;
    }

    /** Some seller row matches the id, the email and the GST number together. */
    predicate SellerMatches(sellerId: int, email: string, gstNumber: string)
      reads this
    {
      sellerId in sellers && sellers[sellerId].email == email && sellers[sellerId].gstNumber == gstNumber
    }

    /** sellerForgotPassword: for the authenticated seller whose email and GST
        number match, a six-digit OTP is stored under `otp:<email>`. */
    method ForgotPassword(sellerId: int, req: ForgotPasswordRequest, r: nat) returns (status: int)
      requires r < 900000
      modifies this
      ensures sellers == old(sellers)
      ensures !ValidForgotPassword(req) ==> status == 400
      ensures ValidForgotPassword(req) && !SellerMatches(sellerId, req.email, req.gstNumber) ==> status == 400
      ensures status != 200 ==> store == old(store)
      ensures status == 200 <==> ValidForgotPassword(req) && SellerMatches(sellerId, req.email, req.gstNumber)
      ensures status == 200 ==> store == old(store)[OtpKey(req.email) := Decimal(SixDigitOtp(r))]
    {
      if !ValidForgotPassword(req) {
        return 400;
      }
      if !SellerMatches(sellerId, req.email, req.gstNumber) {
        return 400;
      }
      var otp := SixDigitOtp(r);
      store := store[OtpKey(req.email) := Decimal(otp)];
      status := 200;
    }

    /** sellerVerifyOTP, as written. */
    method VerifyOtp(email: string, otp: string) returns (status: int)
      modifies this
      ensures sellers == old(sellers)
      ensures OtpCheck(status, store) == CheckOtpAsWritten(old(store), email, otp)
    {
      var key := OtpKey(email);
      if key !in store || store[key] == "" {
        return 500;
      }
      if otp != store[key] {
        return 400;
      }
      store := store - {"otp"};
      status := 200;
    }
  }
}
