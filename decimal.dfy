/**
 * Decimal rendering as Go's `strconv.FormatInt`, `%d` and the zero-padded numeric fields of
 * `time.Format` produce it, and the digit parser that reads it back.
 */
module Decimal {
  import opened Text

  predicate IsDigit(c: char) { '0' <= c <= '9' }

  predicate AllDigits(s: string) { forall i :: 0 <= i < |s| ==> IsDigit(s[i]) }

  function DigitValue(c: char): nat
    requires IsDigit(c)
  {
    c as int - '0' as int
  }

  function DigitChar(d: nat): (c: char)
    requires d < 10
    ensures IsDigit(c) && DigitValue(c) == d
  {
    ('0' as int + d) as char
  }

  function Pow10(k: nat): (p: nat)
    ensures p >= 1
  {
    if k == 0 then 1 else 10 * Pow10(k - 1)
  }

  /** The shortest decimal numeral of `n`: digits only, and no leading zero unless `n` is 0. */
  function NatToString(n: nat): (s: string)
    ensures |s| >= 1 && AllDigits(s)
    ensures s[0] == '0' ==> n == 0
    decreases n
  {
    if n < 10 then [DigitChar(n)] else NatToString(n / 10) + [DigitChar(n % 10)]
  }

  /** `%d` of a Go `int`: a minus sign before the magnitude of a negative value. */
  function IntToString(i: int): (s: string)
    ensures i >= 0 ==> s == NatToString(i)
    ensures i < 0 ==> s == "-" + NatToString(-i)
  {
    if i < 0 then "-" + NatToString(-i) else NatToString(i)
  }

  /** The value of a string of decimal digits (leading zeros allowed). */
  function ParseDigits(s: string): nat
    requires AllDigits(s)
    decreases |s|
  {
    if s == [] then 0 else ParseDigits(s[..|s| - 1]) * 10 + DigitValue(s[|s| - 1])
  }

  /** Reading a rendered numeral back gives the number. */
  lemma {:induction false} ParseNatToString(n: nat)
    ensures ParseDigits(NatToString(n)) == n
    decreases n
  {
    if n >= 10 {
      var s := NatToString(n);
      ParseNatToString(n / 10);
      assert s[..|s| - 1] == NatToString(n / 10);
    }
  }

  /** The numeral of `n` has at most `k` digits when `n < 10^k`. */
  lemma {:induction false} NatToStringLength(n: nat, k: nat)
    requires 1 <= k && n < Pow10(k)
    ensures |NatToString(n)| <= k
    decreases k
  {
    if n >= 10 {
      assert k >= 2;
      NatToStringLength(n / 10, k - 1);
    }
  }

  /** `n` rendered in at least `width` digits, padded on the left with zeros. */
  function Padded(n: nat, width: nat): (s: string)
    ensures AllDigits(s)
  {
    var digits := NatToString(n);
    if |digits| < width then Repeat('0', width - |digits|) + digits else digits
  }

  /** Leading zeros do not change the value of a numeral. */
  lemma {:induction false} ParseLeadingZeros(z: nat, s: string)
    requires AllDigits(s)
    ensures AllDigits(Repeat('0', z) + s)
    ensures ParseDigits(Repeat('0', z) + s) == ParseDigits(s)
    decreases |s|
  {
    var t := Repeat('0', z) + s;
    if s == [] {
      assert t == Repeat('0', z);
      ParseZeros(z);
    } else {
      assert t[..|t| - 1] == Repeat('0', z) + s[..|s| - 1];
      ParseLeadingZeros(z, s[..|s| - 1]);
    }
  }

  lemma {:induction false} ParseZeros(z: nat)
    ensures AllDigits(Repeat('0', z)) && ParseDigits(Repeat('0', z)) == 0
    decreases z
  {
    if z > 0 {
      assert Repeat('0', z)[..z - 1] == Repeat('0', z - 1);
      ParseZeros(z - 1);
    }
  }

  /** A padded field has exactly `width` digits when the value fits, and reads back as the value. */
  lemma PaddedRoundTrip(n: nat, width: nat)
    requires 1 <= width && n < Pow10(width)
    ensures |Padded(n, width)| == width
    ensures ParseDigits(Padded(n, width)) == n
  {
    NatToStringLength(n, width);
    ParseNatToString(n);
    var digits := NatToString(n);
    if |digits| < width {
      ParseLeadingZeros(width - |digits|, digits);
    }
  }
}
