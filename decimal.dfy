/**
 * Python's `str()` of an integer, and `"{:0Nd}".format(n)` for a
 * non-negative one: the decimal renderings the firmware builds display text,
 * card ids and timestamps from.
 */
module Decimal {
  predicate IsDigit(c: char) {
    '0' <= c <= '9'
  }

  function DigitChar(d: nat): (c: char)
    requires d < 10
    ensures IsDigit(c)
  {
    ('0' as int + d) as char
  }

  function DigitValue(c: char): nat
    requires IsDigit(c)
  {
    (c as int - '0' as int) as nat
  }

  /** The number a string of decimal digits denotes. */
  function DigitsValue(s: string): nat
    requires forall i :: 0 <= i < |s| ==> IsDigit(s[i])
  {
    if s == [] then 0 else DigitsValue(s[..|s| - 1]) * 10 + DigitValue(s[|s| - 1])
  }

  /** Ten to the power `k`. */
  function Pow10(k: nat): (p: nat)
    ensures p >= 1
  {
    if k == 0 then 1 else 10 * Pow10(k - 1)
  }

  /** `str(n)` for n >= 0: the shortest decimal rendering, no sign and no leading zero. */
  function DecimalString(n: nat): (s: string)
    ensures |s| >= 1 && (forall i :: 0 <= i < |s| ==> IsDigit(s[i]))
    ensures (s[0] == '0') == (n == 0)
  {
    if n < 10 then [DigitChar(n)] else DecimalString(n / 10) + [DigitChar(n % 10)]
  }

  /** `str(i)` for any integer: a minus sign before the rendering of a negative value. */
  function IntString(i: int): string {
    if i < 0 then "-" + DecimalString(-i) else DecimalString(i)
  }

  /** `"{:0Nd}".format(n)` for n >= 0: zeros on the left up to `width`, never cut. */
  function Padded(n: nat, width: nat): (s: string)
    ensures |s| >= width && |s| >= |DecimalString(n)|
  {
    var digits := DecimalString(n);
    if |digits| >= width then digits else seq(width - |digits|, _ => '0') + digits
  }

  /** Reading back the rendering gives the number: `int(str(n)) == n`. */
  lemma {:induction false} DecimalRoundTrip(n: nat)
    ensures DigitsValue(DecimalString(n)) == n
  {
    if n >= 10 {
      var s := DecimalString(n);
      assert s[..|s| - 1] == DecimalString(n / 10);
      assert s[|s| - 1] == DigitChar(n % 10);
      DecimalRoundTrip(n / 10);
    }
  }

  /** The rendering of n has L digits where 10^(L-1) <= n < 10^L (and one digit for 0). */
  lemma {:induction false} DecimalMagnitude(n: nat)
    ensures n < Pow10(|DecimalString(n)|)
    ensures n >= 10 ==> Pow10(|DecimalString(n)| - 1) <= n
  {
    if n >= 10 {
      DecimalMagnitude(n / 10);
    }
  }

  lemma {:induction false} PowStrict(j: nat, k: nat)
    ensures j < k ==> Pow10(j) < Pow10(k)
  {
    if j < k - 1 {
      PowStrict(j, k - 1);
    }
  }

  lemma PowOrder(j: nat, k: nat)
    ensures Pow10(j) < Pow10(k) <==> j < k
  {
    PowStrict(j, k);
    PowStrict(k, j);
  }

  /** At most k digits when n < 10^k. */
  lemma DecimalLengthAtMost(n: nat, k: nat)
    requires 1 <= k && n < Pow10(k)
    ensures |DecimalString(n)| <= k
  {
    DecimalMagnitude(n);
    if n >= 10 {
      PowOrder(|DecimalString(n)| - 1, k);
    }
  }

  /** Exactly k digits when 10^(k-1) <= n < 10^k. */
  lemma DecimalLength(n: nat, k: nat)
    requires 1 <= k && n < Pow10(k) && (k == 1 || Pow10(k - 1) <= n)
    ensures |DecimalString(n)| == k
  {
    DecimalLengthAtMost(n, k);
    DecimalMagnitude(n);
    PowOrder(k - 1, |DecimalString(n)|);
  }

  /** A byte renders in one to three digits. */
  lemma ByteLength(b: nat)
    requires b < 256
    ensures 1 <= |DecimalString(b)| <= 3
  {
    assert Pow10(3) == 1000;
    DecimalLengthAtMost(b, 3);
  }

  /** A field below 10^width pads to exactly `width` digits, and reads back as itself. */
  lemma PaddedField(n: nat, width: nat)
    requires 1 <= width && n < Pow10(width)
    ensures |Padded(n, width)| == width
    ensures (forall i :: 0 <= i < width ==> IsDigit(Padded(n, width)[i]))
    ensures DigitsValue(Padded(n, width)) == n
  {
    DecimalLengthAtMost(n, width);
    var digits := DecimalString(n);
    var zeros := seq(width - |digits|, _ => '0');
    DecimalRoundTrip(n);
    LeadingZeros(zeros, digits);
  }

  /** Zeros in front of a digit string do not change its value. */
  lemma {:induction false} LeadingZeros(zeros: string, s: string)
    requires forall i :: 0 <= i < |zeros| ==> zeros[i] == '0'
    requires forall i :: 0 <= i < |s| ==> IsDigit(s[i])
    ensures forall i :: 0 <= i < |zeros + s| ==> IsDigit((zeros + s)[i])
    ensures DigitsValue(zeros + s) == DigitsValue(s)
  {
    if s == [] {
      assert zeros + s == zeros;
      AllZeros(zeros);
    } else {
      var t := s[..|s| - 1];
      assert (zeros + s)[..|zeros + s| - 1] == zeros + t;
      LeadingZeros(zeros, t);
    }
  }

  lemma {:induction false} AllZeros(zeros: string)
    requires forall i :: 0 <= i < |zeros| ==> zeros[i] == '0'
    ensures forall i :: 0 <= i < |zeros| ==> IsDigit(zeros[i])
    ensures DigitsValue(zeros) == 0
  {
    if zeros != [] {
      AllZeros(zeros[..|zeros| - 1]);
    }
  }
}
