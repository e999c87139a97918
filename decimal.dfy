/**
 * How a template literal renders a safe integer (magnitude at most 2^53 - 1):
 * optional minus sign, then decimal digits without leading zeros. A parser is
 * given as the partner of the renderer, so that the rendering is shown to lose
 * nothing.
 */
module Decimal {
  import opened Wrappers

  predicate IsDigit(c: char) {
    '0' <= c <= '9'
  }

  predicate AllDigits(s: string) {
    forall i :: 0 <= i < |s| ==> IsDigit(s[i])
  }

  function DigitChar(d: nat): (c: char)
    requires d < 10
    ensures IsDigit(c)
  {
    ('0' as int + d) as char
  }

  function DigitValue(c: char): (d: nat)
    requires IsDigit(c)
    ensures d < 10
    ensures DigitChar(d) == c
  {
    c as int - '0' as int
  }

  /** Decimal digits of a natural number, most significant first. */
  function NatToText(n: nat): (s: string)
    ensures |s| >= 1 && AllDigits(s)
    ensures s[0] == '0' ==> n == 0
    decreases n
  {
    if n < 10 then [DigitChar(n)] else NatToText(n / 10) + [DigitChar(n % 10)]
  }

  /** The text `${n}` produces for a safe integer n; above 2^53 in magnitude
   * JavaScript prints fewer significant digits, which this does not model. */
  function IntToText(n: int): (s: string)
    ensures |s| >= 1
    ensures s[0] == '-' <==> n < 0
    ensures forall i :: 0 <= i < |s| ==> IsDigit(s[i]) || (i == 0 && s[i] == '-')
  {
    if n < 0 then "-" + NatToText(-n) else NatToText(n)
  }

  /** Value of a string of decimal digits. */
  function TextToNat(s: string): nat
    requires AllDigits(s)
    decreases |s|
  {
    if s == [] then 0 else TextToNat(s[..|s| - 1]) * 10 + DigitValue(s[|s| - 1])
  }

  /** Reads back an optionally signed decimal integer; anything else is None. */
  function ParseInt(s: string): Option<int> {
    if |s| >= 2 && s[0] == '-' && AllDigits(s[1..]) then Some(-(TextToNat(s[1..]) as int))
    else if |s| >= 1 && AllDigits(s) then Some(TextToNat(s))
    else None
  }

  lemma {:induction false} NatRoundTrip(n: nat)
    ensures TextToNat(NatToText(n)) == n
  {
    var s := NatToText(n);
    if n >= 10 {
      assert s[..|s| - 1] == NatToText(n / 10);
      NatRoundTrip(n / 10);
    }
  }

  /** Rendering an integer and reading it back gives the same integer. */
  lemma IntRoundTrip(n: int)
    ensures ParseInt(IntToText(n)) == Some(n)
  {
    var s := IntToText(n);
    if n < 0 {
      assert s[1..] == NatToText(-n);
      NatRoundTrip(-n);
    } else {
      NatRoundTrip(n);
    }
  }

  /** The rendering is one-to-one: distinct integers never share a text. */
  lemma IntToTextInjective(a: int, b: int)
    requires IntToText(a) == IntToText(b)
    ensures a == b
  {
    IntRoundTrip(a);
    IntRoundTrip(b);
  }
}
