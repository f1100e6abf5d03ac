/**
 * Base-10 text of 64-bit integers: `strconv.FormatInt(n, 10)` (also what
 * `fmt.Sprintf("%d", i)` prints) and its inverse `strconv.ParseInt(s, 10, 64)`.
 */
module Decimal {
  import opened Wrappers

  const MinInt64: int := -0x8000_0000_0000_0000
  const MaxInt64: int := 0x7FFF_FFFF_FFFF_FFFF

  /** Go's `int64`. */
  type Int64 = x: int | MinInt64 <= x <= MaxInt64

  predicate IsDigit(c: char) {
    '0' <= c <= '9'
  }

  predicate AllDigits(s: string) {
    forall i :: 0 <= i < |s| ==> IsDigit(s[i])
  }

  function DigitChar(d: nat): (c: char)
    requires d < 10
    ensures IsDigit(c)
  {
    ('0' as int + d) as char
  }

  function DigitValue(c: char): (d: nat)
    requires IsDigit(c)
    ensures d < 10
  {
    c as int - '0' as int
  }

  /** The decimal digits of `n`, most significant first. */
  function NatToDecimal(n: nat): (s: string)
    ensures |s| >= 1 && AllDigits(s)
    ensures s[0] == '0' ==> n == 0
    decreases n
  {
    if n < 10 then [DigitChar(n)] else NatToDecimal(n / 10) + [DigitChar(n % 10)]
  }

  /** The number a string of digits denotes, read most significant first. */
  function DigitsValue(s: string): nat
    requires AllDigits(s)
  {
    if s == [] then 0 else DigitsValue(s[..|s| - 1]) * 10 + DigitValue(s[|s| - 1])
  }

  /** Reading back the digits of `n` gives `n`. */
  lemma {:induction false} DigitsRoundTrip(n: nat)
    ensures DigitsValue(NatToDecimal(n)) == n
  {
    if n >= 10 {
      var s := NatToDecimal(n);
      assert s[..|s| - 1] == NatToDecimal(n / 10);
      DigitsRoundTrip(n / 10);
    }
  }

  /**
   * `strconv.FormatInt(n, 10)`: a minus sign exactly for negative numbers,
   * then at least one digit, with no leading zero unless the number is 0.
   */
  function FormatInt(n: int): (s: string)
    ensures |s| >= 1 && (s[0] == '-' <==> n < 0)
    ensures var digits := if n < 0 then s[1..] else s;
      |digits| >= 1 && AllDigits(digits) && (digits[0] == '0' ==> n == 0)
  {
    if n < 0 then "-" + NatToDecimal(-n) else NatToDecimal(n)
  }

  /**
   * `strconv.ParseInt(s, 10, 64)`: an optional `+` or `-`, then at least one
   * digit and nothing else (no underscores in base 10); `None` on a syntax
   * error or when the value is outside the `int64` range.
   */
  function ParseInt(s: string): (r: Option<int>)
    ensures r.Some? ==> MinInt64 <= r.value <= MaxInt64
  {
    var signed := |s| > 0 && (s[0] == '-' || s[0] == '+');
    var digits := if signed then s[1..] else s;
    if |digits| == 0 || !AllDigits(digits) then None
    else
      var v: int := DigitsValue(digits);
      if signed && s[0] == '-' then
        (if v <= -MinInt64 then Some(-v) else None)
      else
        (if v <= MaxInt64 then Some(v) else None)
  }

  /** An unsigned string of digits parses to its value when that fits in an `int64`. */
  lemma ParseUnsigned(d: string)
    requires |d| >= 1 && AllDigits(d)
    ensures ParseInt(d) == if DigitsValue(d) <= MaxInt64 then Some(DigitsValue(d)) else None
  {
    assert IsDigit(d[0]);
  }

  /** A minus sign followed by digits parses to the negated value when that fits in an `int64`. */
  lemma ParseNegative(d: string)
    requires |d| >= 1 && AllDigits(d)
    ensures var v: int := DigitsValue(d); ParseInt("-" + d) == if v <= -MinInt64 then Some(-v) else None
  {
    assert ("-" + d)[1..] == d;
  }

  /** The text FormatInt produces for an `int64` parses back to the same number. */
  lemma FormatParseRoundTrip(n: Int64)
    ensures ParseInt(FormatInt(n)) == Some(n)
  {
    var m := n as int;
    if m < 0 {
      var d := NatToDecimal(-m);
      assert FormatInt(n) == "-" + d;
      DigitsRoundTrip(-m);
      ParseNegative(d);
    } else {
      var d := NatToDecimal(m);
      assert FormatInt(n) == d;
      DigitsRoundTrip(m);
      ParseUnsigned(d);
    }
  }

  /** FormatInt never gives two numbers the same text. */
  lemma FormatIntInjective(a: Int64, b: Int64)
    requires FormatInt(a) == FormatInt(b)
    ensures a == b
  {
    FormatParseRoundTrip(a);
    FormatParseRoundTrip(b);
  }
}
