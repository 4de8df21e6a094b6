/**
 * Decimal rendering and parsing of integers: JavaScript's `n.toString()` for
 * integral numbers, and the inverse used wherever a rendered number is read back.
 */
module Decimal {
  import opened Wrappers

  predicate IsDigit(c: char) {
    '0' <= c <= '9'
  }

  predicate AllDigits(s: string) {
    forall i :: 0 <= i < |s| ==> IsDigit(s[i])
  }

  function DigitChar(d: nat): (c: char)
    requires d < 10
    ensures IsDigit(c) && c as int - '0' as int == d
  {
    (d + '0' as int) as char
  }

  function DigitValue(c: char): (d: nat)
    requires IsDigit(c)
    ensures d < 10
  {
    c as int - '0' as int
  }

  /** `n.toString()` for a non-negative integer: most significant digit first, no leading zeros. */
  function NatToString(n: nat): (s: string)
    ensures 1 <= |s| && AllDigits(s)
    ensures |s| == 1 <==> n < 10
    ensures n >= 10 ==> s[0] != '0'
  {
    if n < 10 then [DigitChar(n)] else NatToString(n / 10) + [DigitChar(n % 10)]
  }

  /** The value of a string of decimal digits (the empty string reads as 0). */
  function DigitsValue(s: string): nat
    requires AllDigits(s)
  {
    if s == [] then 0 else DigitsValue(s[..|s| - 1]) * 10 + DigitValue(s[|s| - 1])
  }

  /** `i.toString()` for any integer: a minus sign in front of a negative value. */
  function IntToString(i: int): (s: string)
    ensures 1 <= |s|
  {
    if i < 0 then "-" + NatToString(-i) else NatToString(i)
  }

  /** Reads back an optionally signed decimal integer; anything else is rejected. */
  function ParseInt(s: string): Option<int> {
    if 2 <= |s| && s[0] == '-' && AllDigits(s[1..]) then Some(-(DigitsValue(s[1..]) as int))
    else if 1 <= |s| && AllDigits(s) then Some(DigitsValue(s))
    else None
  }

  lemma {:induction false} DigitsValueOfNatToString(n: nat)
    ensures DigitsValue(NatToString(n)) == n
  {
    if n >= 10 {
      var s := NatToString(n);
      DigitsValueOfNatToString(n / 10);
      assert s[..|s| - 1] == NatToString(n / 10);
    }
  }

  /** A digit string without a sign reads back as its value. */
  lemma ParseDigits(s: string)
    requires 1 <= |s| && AllDigits(s)
    ensures ParseInt(s) == Some(DigitsValue(s) as int)
  {
    assert IsDigit(s[0]);
  }

  /** A minus sign before a digit string reads back as the negated value. */
  lemma ParseNegative(t: string)
    requires 1 <= |t| && AllDigits(t)
    ensures ParseInt("-" + t) == Some(-(DigitsValue(t) as int))
  {
    assert ("-" + t)[1..] == t;
  }

  /** Rendering then parsing gives the number back. */
  lemma ParseIntToString(i: int)
    ensures ParseInt(IntToString(i)) == Some(i)
  {
    if i < 0 {
      ParseNegative(NatToString(-i));
      DigitsValueOfNatToString(-i);
    } else {
      ParseDigits(NatToString(i));
      DigitsValueOfNatToString(i);
    }
  }

  /** Distinct numbers render as distinct strings. */
  lemma IntToStringInjective(a: int, b: int)
    ensures IntToString(a) == IntToString(b) ==> a == b
  {
    ParseIntToString(a);
    ParseIntToString(b);
  }

  /**
   * The clock padding `x.toString().length === 1 ? '0' + x : x` used by the
   * timer displays: one character is padded to two, longer renderings are kept.
   */
  function Pad2(i: int): string {
    var t := IntToString(i);
    if |t| == 1 then "0" + t else t
  }

  /** Padding only ever adds a single leading zero to 0..9, and numbers 0..99 come out as two digits. */
  lemma Pad2Digits(i: int)
    ensures 0 <= i < 100 ==> |Pad2(i)| == 2 && AllDigits(Pad2(i)) && DigitsValue(Pad2(i)) == i
    ensures 0 <= i < 10 ==> Pad2(i) == ['0', DigitChar(i)]
    ensures i < 0 || 10 <= i ==> Pad2(i) == IntToString(i)
  {
    if 0 <= i < 100 {
      DigitsValueOfNatToString(i);
      if i < 10 {
        assert DigitsValue("0" + NatToString(i)) == DigitsValue(NatToString(i));
      }
    }
  }
}
