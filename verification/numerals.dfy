/**
 * Decimal digits and the numeric conversions of Python that the bot relies
 * on: `int()` of a float, `{n:02}` formatting and reading digit strings.
 */
module Numerals {

  /** Python's `int()` on a float: drops the fraction, rounding toward zero. */
  function TruncateTowardZero(d: real): (r: int)
    ensures d >= 0.0 ==> 0 <= r && r as real <= d < r as real + 1.0
    ensures d < 0.0 ==> r <= 0 && r as real - 1.0 < d <= r as real
  {
    if d >= 0.0 then d.Floor else -((-d).Floor)
  }

  predicate IsDigitChar(c: char)
  {
    '0' as int <= c as int <= '9' as int
  }

  function DigitChar(d: nat): (c: char)
    requires d < 10
    ensures IsDigitChar(c) && (c as int) - ('0' as int) == d
  {
    (('0' as int) + d) as char
  }

  /** The decimal digits of `n`, most significant first, without leading zeros. */
  function Digits(n: nat): (s: string)
    ensures |s| >= 1
    ensures forall i :: 0 <= i < |s| ==> IsDigitChar(s[i])
    ensures n < 10 <==> |s| == 1
  {
    if n < 10 then [DigitChar(n)] else Digits(n / 10) + [DigitChar(n % 10)]
  }

  function DigitValue(c: char): (d: nat)
    requires IsDigitChar(c)
    ensures d <= 9
  {
    (c as int) - ('0' as int)
  }

  /** The number a string of decimal digits denotes (the reading side of Digits). */
  function DecimalValue(s: string): nat
    requires forall i :: 0 <= i < |s| ==> IsDigitChar(s[i])
  {
    if s == [] then 0
    else DecimalValue(s[..|s| - 1]) * 10 + DigitValue(s[|s| - 1])
  }

  lemma {:induction false} DigitsRoundTrip(n: nat)
    ensures DecimalValue(Digits(n)) == n
  {
    if n >= 10 {
      var s := Digits(n);
      assert s[..|s| - 1] == Digits(n / 10);
      DigitsRoundTrip(n / 10);
    }
  }

  lemma {:induction false} LeadingZero(s: string)
    requires forall i :: 0 <= i < |s| ==> IsDigitChar(s[i])
    ensures DecimalValue("0" + s) == DecimalValue(s)
  {
    if s != [] {
      var t := "0" + s;
      assert t[..|t| - 1] == "0" + s[..|s| - 1];
      LeadingZero(s[..|s| - 1]);
    }
  }

  /** Python's `{n:02}`: decimal digits, zero-padded to at least two characters. */
  function Pad2(n: nat): string
  {
    if n < 10 then "0" + Digits(n) else Digits(n)
  }

  /** Pad2 is at least two digits wide, exactly two below 100, and reads back as `n`. */
  lemma Pad2Spec(n: nat)
    ensures |Pad2(n)| >= 2 && (|Pad2(n)| == 2 <==> n < 100)
    ensures forall i :: 0 <= i < |Pad2(n)| ==> IsDigitChar(Pad2(n)[i])
    ensures DecimalValue(Pad2(n)) == n
  {
    DigitsRoundTrip(n);
    if n < 10 {
      LeadingZero(Digits(n));
    } else {
      assert Digits(n) == Digits(n / 10) + [DigitChar(n % 10)];
    }
  }

  predicate AllDigits(s: string)
  {
    forall i :: 0 <= i < |s| ==> IsDigitChar(s[i])
  }
}
