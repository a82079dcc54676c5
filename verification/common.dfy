/** Values shared by every part of the model: optional fields and the decimal
    rendering of the numeric one-time passwords that Redis stores as strings. */
module Common {

  /** A request field that may be absent (JavaScript `undefined`). */
  datatype Option<T> = None | Some(value: T) {
    /** The value, or the default when the field is absent. */
    function GetOr(default: T): T {
      match this
      case Some(v) => v
      case None => default
    }
  }

  predicate IsDigit(c: char) { '0' <= c <= '9' }

  predicate AllDigits(s: string) {
    forall i :: 0 <= i < |s| ==> IsDigit(s[i])
  }

  function DigitChar(d: nat): (c: char)
    requires d < 10
    ensures IsDigit(c)
  {
    (48 + d) as char
  }

  function DigitValue(c: char): (d: nat)
    requires IsDigit(c)
    ensures d < 10
  {
    c as int - 48
  }

  /** The decimal text of a natural number, as `String(n)` (and Redis, which
      stores the number it is given as text) writes it. */
  function Decimal(n: nat): string
    decreases n
  {
    if n < 10 then [DigitChar(n)] else Decimal(n / 10) + [DigitChar(n % 10)]
  }

  /** Reads a string of decimal digits back as a number. */
  function DecimalValue(s: string): nat
    requires AllDigits(s)
  {
    if s == [] then 0 else DecimalValue(s[..|s| - 1]) * 10 + DigitValue(s[|s| - 1])
  }

  function Pow10(k: nat): (p: nat)
    ensures p >= 1
  {
    if k == 0 then 1 else 10 * Pow10(k - 1)
  }

  /** Decimal text is made of digits and reads back as the number it renders. */
  lemma {:induction false} DecimalRoundTrip(n: nat)
    ensures AllDigits(Decimal(n))
    ensures DecimalValue(Decimal(n)) == n
    decreases n
  {
    if n >= 10 {
      DecimalRoundTrip(n / 10);
      var s := Decimal(n);
      assert s == Decimal(n / 10) + [DigitChar(n % 10)];
      assert s[..|s| - 1] == Decimal(n / 10);
    }
  }

  /** A number with k digits (10^(k-1) <= n < 10^k) renders as exactly k characters. */
  lemma {:induction false} DecimalLength(n: nat, k: nat)
    requires k >= 1
    requires Pow10(k - 1) <= n < Pow10(k)
    ensures |Decimal(n)| == k
    decreases k
  {
    if k > 1 {
      DecimalLength(n / 10, k - 1);
    }
  }

  /** Two numbers with the same decimal text are equal. */
  lemma DecimalInjective(m: nat, n: nat)
    requires Decimal(m) == Decimal(n)
    ensures m == n
  {
    DecimalRoundTrip(m);
    DecimalRoundTrip(n);
  }

  /** The generated OTP: a random draw r with 0 <= r < 900000, plus 100000.
      It is always a six-digit number, and its decimal text is six digits long. */
  function SixDigitOtp(r: nat): (otp: nat)
    requires r < 900000
    ensures 100000 <= otp <= 999999
    ensures |Decimal(otp)| == 6 && AllDigits(Decimal(otp))
  {
    var otp := r + 100000;
    assert Pow10(5) == 100000 && Pow10(6) == 1000000;
    DecimalLength(otp, 6);
    DecimalRoundTrip(otp);
    otp
  }

  /** The reply to a payment request: a status code and, on success, the
      charge asked of the payment gateway. */
  datatype Charge = Charge(amount: int, currency: string)
  datatype ChargeReply = ChargeReply(status: int, charge: Option<Charge>)
}
