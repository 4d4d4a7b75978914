/**
 * Decimal rendering of integers, as `operator<<` writes an `int` into an
 * output string stream: an optional minus sign followed by the digits of the
 * magnitude, most significant first, without leading zeros.
 */
module Decimal {

  /** The values of a C++ `int` on the targets the logger is built for. */
  type Int32 = x: int | -0x8000_0000 <= x < 0x8000_0000

  predicate IsDigit(c: char) {
    '0' <= c <= '9'
  }

  predicate AllDigits(s: string) {
    forall k :: 0 <= k < |s| ==> IsDigit(s[k])
  }

  function DigitChar(d: nat): (c: char)
    requires d < 10
    ensures IsDigit(c)
  {
    (48 + d) as char
  }

  function DigitValue(c: char): (d: nat)
    requires IsDigit(c)
    ensures d < 10
  {
    (c as int) - 48
  }

  /** The digits of `n`, most significant first, with no leading zero. */
  function NatDigits(n: nat): (s: string)
    ensures |s| >= 1 && AllDigits(s)
    ensures |s| > 1 ==> s[0] != '0'
    decreases n
  {
    if n < 10 then [DigitChar(n)] else NatDigits(n / 10) + [DigitChar(n % 10)]
  }

  /** `NatDigits` for non-negative values, a minus sign before the magnitude otherwise. */
  function IntDecimal(i: int): (s: string)
    ensures |s| >= 1 && (s[0] == '-' <==> i < 0)
    ensures AllDigits(if i < 0 then s[1..] else s)
  {
    if i < 0 then "-" + NatDigits(-i) else NatDigits(i)
  }

  /** The number a digit string denotes. */
  function DigitsValue(s: string): nat
    requires AllDigits(s)
  {
    if s == [] then 0 else DigitsValue(s[..|s| - 1]) * 10 + DigitValue(s[|s| - 1])
  }

  /** What a reader of the rendered text recovers: an optional sign, then digits. */
  function ParseDecimal(s: string): int
    requires |s| >= 1
    requires (s[0] == '-' && AllDigits(s[1..])) || AllDigits(s)
  {
    if s[0] == '-' then -(DigitsValue(s[1..]) as int) else DigitsValue(s)
  }

  lemma {:induction false} NatDigitsRoundTrip(n: nat)
    ensures DigitsValue(NatDigits(n)) == n
    decreases n
  {
    if n >= 10 {
      var s := NatDigits(n);
      NatDigitsRoundTrip(n / 10);
      assert s[..|s| - 1] == NatDigits(n / 10);
      assert DigitValue(s[|s| - 1]) == n % 10;
    }
  }

  /** Rendering then reading back gives the original integer, so no two integers share a rendering. */
  lemma IntDecimalRoundTrip(i: int)
    ensures |IntDecimal(i)| >= 1
    ensures ParseDecimal(IntDecimal(i)) == i
  {
    var s := IntDecimal(i);
    if i < 0 {
      assert s[1..] == NatDigits(-i);
      assert s[0] == '-';
      NatDigitsRoundTrip(-i);
    } else {
      assert s[0] != '-';
      NatDigitsRoundTrip(i);
    }
  }

  /** The shape of the rendering: a sign exactly for negative values, then digits without a leading zero. */
  lemma IntDecimalShape(i: int)
    ensures var s := IntDecimal(i);
      |s| >= 1 && (s[0] == '-' <==> i < 0) &&
      (i < 0 ==> |s| >= 2 && AllDigits(s[1..]) && s[1] != '0') &&
      (i >= 0 ==> AllDigits(s) && (|s| > 1 ==> s[0] != '0'))
  {
    var s := IntDecimal(i);
    if i < 0 {
      assert s[1..] == NatDigits(-i);
    }
  }

  /** The renderings of the two line numbers the game logs from. */
  lemma GameLineNumbers()
    ensures IntDecimal(10) == "10" && IntDecimal(17) == "17"
  {
  }
}
