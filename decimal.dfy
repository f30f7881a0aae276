/** Decimal rendering of integers, as JavaScript renders an integral number of magnitude
    below 10^21 that is concatenated to a string (`'?page=' + p`); from 10^21 on JavaScript
    switches to exponent notation (`1e+21`), which is not modelled. Together with the
    matching parser. */
module Decimal {

  predicate IsDigit(c: char) {
    '0' <= c <= '9'
  }

  function DigitChar(d: nat): (c: char)
    requires d < 10
    ensures IsDigit(c)
  {
    ['0', '1', '2', '3', '4', '5', '6', '7', '8', '9'][d]
  }

  function DigitValue(c: char): (d: nat)
    requires IsDigit(c)
    ensures d < 10
  {
    c as int - '0' as int
  }

  /** The shortest decimal numeral of `n`: non-empty, digits only, no leading zero. */
  function NatToString(n: nat): (s: string)
    ensures |s| > 0
    ensures forall i :: 0 <= i < |s| ==> IsDigit(s[i])
    ensures |s| > 1 ==> s[0] != '0'
  {
    if n < 10 then [DigitChar(n)] else NatToString(n / 10) + [DigitChar(n % 10)]
  }

  /** A canonical, optionally signed decimal numeral: at least one digit, no leading zero
      except in "0" itself, and a minus sign only before a non-zero magnitude (no "-0"). */
  predicate IsNumeral(s: string) {
    && |s| > 0
    && (s[0] == '-' ==> |s| > 1 && s[1] != '0')
    && (s[0] != '-' ==> IsDigit(s[0]) && (|s| > 1 ==> s[0] != '0'))
    && forall i :: 1 <= i < |s| ==> IsDigit(s[i])
  }

  /** Rendering of any integer: a minus sign before the shortest numeral of its magnitude. */
  function IntToString(i: int): (s: string)
    ensures IsNumeral(s)
    ensures i >= 0 <==> IsDigit(s[0])
    ensures i >= 0 && |s| > 1 ==> s[0] != '0'
    ensures i < 0 ==> |s| > 1 && s[1] != '0'
  {
    if i < 0 then
      var digits := NatToString(-i);
      assert forall k :: 1 <= k < |digits| + 1 ==> ("-" + digits)[k] == digits[k - 1];
      "-" + digits
    else NatToString(i)
  }

  /** Value of a string of decimal digits, most significant first. */
  function DigitsValue(s: string): (n: nat)
    requires forall i :: 0 <= i < |s| ==> IsDigit(s[i])
  {
    if s == [] then 0 else DigitsValue(s[..|s| - 1]) * 10 + DigitValue(s[|s| - 1])
  }

  /** Value of an optionally signed decimal numeral. */
  function IntValue(s: string): (v: int)
    requires IsNumeral(s)
    ensures v < 0 ==> s[0] == '-'
  {
    if s[0] == '-' then 0 - DigitsValue(s[1..]) else DigitsValue(s)
  }

  lemma {:induction false} NatToStringRoundTrip(n: nat)
    ensures DigitsValue(NatToString(n)) == n
  {
    var s := NatToString(n);
    if n < 10 {
      assert s[..|s| - 1] == [];
    } else {
      NatToStringRoundTrip(n / 10);
      assert s[..|s| - 1] == NatToString(n / 10);
      assert DigitValue(s[|s| - 1]) == n % 10;
    }
  }

  lemma IntToStringRoundTrip(i: int)
    ensures IntValue(IntToString(i)) == i
  {
    if i < 0 {
      var digits := NatToString(-i);
      assert IntToString(i)[1..] == digits;
      NatToStringRoundTrip(-i);
      assert IntValue(IntToString(i)) == 0 - DigitsValue(digits);
    } else {
      NatToStringRoundTrip(i);
    }
  }

  /** A digit string without a leading zero has a positive value. */
  lemma {:induction false} LeadingDigitPositive(s: string)
    requires |s| > 0 && s[0] != '0'
    requires forall i :: 0 <= i < |s| ==> IsDigit(s[i])
    ensures DigitsValue(s) >= 1
  {
    if |s| > 1 {
      LeadingDigitPositive(s[..|s| - 1]);
    }
  }

  /** Every digit string without a leading zero is the rendering of its own value. */
  lemma {:induction false} DigitsRoundTrip(s: string)
    requires |s| > 0 && (|s| > 1 ==> s[0] != '0')
    requires forall i :: 0 <= i < |s| ==> IsDigit(s[i])
    ensures NatToString(DigitsValue(s)) == s
  {
    var n := DigitsValue(s);
    var front := s[..|s| - 1];
    assert DigitChar(DigitValue(s[|s| - 1])) == s[|s| - 1];
    if |s| == 1 {
      assert front == [];
    } else {
      LeadingDigitPositive(front);
      DigitsRoundTrip(front);
      assert n / 10 == DigitsValue(front) && n % 10 == DigitValue(s[|s| - 1]);
      assert s == front + [s[|s| - 1]];
    }
  }

  /** Rendering is canonical: every numeral is the rendering of the integer it denotes. */
  lemma {:induction false} NumeralRoundTrip(s: string)
    requires IsNumeral(s)
    ensures IntToString(IntValue(s)) == s
  {
    if s[0] == '-' {
      var digits := s[1..];
      assert forall i :: 0 <= i < |digits| ==> digits[i] == s[i + 1];
      DigitsRoundTrip(digits);
      LeadingDigitPositive(digits);
      var n := DigitsValue(digits);
      var v: int := IntValue(s);
      assert v < 0 && -v == n;
      assert IntToString(v) == "-" + NatToString(n);
      assert s == "-" + digits;
    } else {
      DigitsRoundTrip(s);
    }
  }

  /** Different integers are rendered differently. */
  lemma IntToStringInjective(i: int, j: int)
    requires IntToString(i) == IntToString(j)
    ensures i == j
  {
    IntToStringRoundTrip(i);
    IntToStringRoundTrip(j);
  }
}
