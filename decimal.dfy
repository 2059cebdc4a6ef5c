/**
 * Decimal rendering of numbers, as JavaScript's template literals and
 * `Number.prototype.toFixed(0)` produce it for the values the components show.
 */
module Decimal {

  predicate IsDigit(c: char) {
    '0' <= c <= '9'
  }

  function DigitChar(d: nat): (c: char)
    requires d < 10
    ensures IsDigit(c) && DigitValue(c) == d
  {
    (('0' as int) + d) as char
  }

  function DigitValue(c: char): nat
    requires IsDigit(c)
  {
    (c as int) - ('0' as int)
  }

  predicate AllDigits(s: string) {
    forall i :: 0 <= i < |s| ==> IsDigit(s[i])
  }

  /** The decimal digits of `n`, most significant first. */
  function NatText(n: nat): (s: string)
    ensures |s| >= 1 && AllDigits(s)
    ensures |s| > 1 ==> s[0] != '0'
  {
    if n < 10 then [DigitChar(n)] else NatText(n / 10) + [DigitChar(n % 10)]
  }

  /** The number a string of decimal digits denotes. */
  function DigitsValue(s: string): nat
    requires AllDigits(s)
  {
    if s == [] then 0 else DigitsValue(s[..|s| - 1]) * 10 + DigitValue(s[|s| - 1])
  }

  /** Reading back the digits of `n` gives `n`. */
  lemma {:induction false} NatTextRoundTrip(n: nat)
    ensures DigitsValue(NatText(n)) == n
  {
    if n >= 10 {
      NatTextRoundTrip(n / 10);
      var s := NatText(n);
      assert s[..|s| - 1] == NatText(n / 10);
    }
  }

  /** `String(i)` for an integer `i`. */
  function IntText(i: int): string {
    if i < 0 then "-" + NatText(-i) else NatText(i)
  }

  /** The integer nearest to `x`, the larger one on a tie. */
  function RoundHalfUp(x: real): (k: nat)
    requires x >= 0.0
    ensures x - 0.5 < k as real <= x + 0.5
  {
    (x + 0.5).Floor
  }

  /**
   * `x.toFixed(0)`: a negative `x` gives "-" followed by the rounding of `-x`,
   * so a value between -0.5 and 0 renders as "-0".
   */
  function ToFixed0(x: real): string {
    if x < 0.0 then "-" + NatText(RoundHalfUp(-x)) else NatText(RoundHalfUp(x))
  }

  /** On a whole number `toFixed(0)` agrees with its plain decimal rendering. */
  lemma ToFixedOfWhole(n: int)
    ensures ToFixed0(n as real) == IntText(n)
  {
    if n < 0 {
      assert RoundHalfUp(-(n as real)) == -n;
    } else {
      assert RoundHalfUp(n as real) == n;
    }
  }

  /** A negative number that rounds to zero keeps its sign. */
  lemma ToFixedOfSmallNegative(x: real)
    requires -0.5 < x < 0.0
    ensures ToFixed0(x) == "-0"
  {
    assert RoundHalfUp(-x) == 0;
  }
}
