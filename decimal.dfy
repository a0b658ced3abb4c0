/**
 * Decimal text of an integer, as the status bar shows each mood (the
 * conversion str(value) of the source), and the reading of that text back
 * into a number, which is its inverse.
 */
module Decimal {

  predicate IsDigit(c: char) {
    '0' <= c <= '9'
  }

  predicate IsDigits(s: string) {
    forall i :: 0 <= i < |s| ==> IsDigit(s[i])
  }

  /** A decimal numeral with an optional leading minus sign. */
  predicate IsNumeral(s: string) {
    IsDigits(s) || (|s| > 0 && s[0] == '-' && IsDigits(s[1..]))
  }

  function DigitValue(c: char): (d: int)
    requires IsDigit(c)
    ensures 0 <= d < 10
  {
    c as int - '0' as int
  }

  function DigitChar(d: int): (c: char)
    requires 0 <= d < 10
    ensures IsDigit(c) && DigitValue(c) == d
  {
    ('0' as int + d) as char
  }

  /** The shortest decimal numeral of n: digits only and no leading zero. */
  function NatToString(n: nat): (s: string)
    ensures |s| >= 1 && IsDigits(s)
    ensures s[0] == '0' ==> n == 0
    decreases n
  {
    if n < 10 then [DigitChar(n)] else NatToString(n / 10) + [DigitChar(n % 10)]
  }

  /** The text of an integer: a minus sign for a negative one, then its magnitude. */
  function IntToString(v: int): (s: string)
    ensures |s| >= 1
    ensures s[0] == '-' <==> v < 0
    ensures v < 0 ==> |s| >= 2 && s[1] != '0'
  {
    if v < 0 then "-" + NatToString(-v) else NatToString(v)
  }

  /** The value of a string of digits, most significant digit first. */
  function NatValue(s: string): nat
    requires IsDigits(s)
    decreases |s|
  {
    if s == [] then 0 else NatValue(s[..|s| - 1]) * 10 + DigitValue(s[|s| - 1])
  }

  /** The value of a numeral, its sign included. */
  function IntValue(s: string): int
    requires IsNumeral(s)
  {
    if |s| > 0 && s[0] == '-' then -(NatValue(s[1..]) as int) else NatValue(s)
  }

  /** Reading the numeral of n back gives n. */
  lemma {:induction false} NatRoundTrip(n: nat)
    ensures NatValue(NatToString(n)) == n
    decreases n
  {
    if n >= 10 {
      NatRoundTrip(n / 10);
      var s := NatToString(n);
      assert s[..|s| - 1] == NatToString(n / 10);
    }
  }

  /** Reading the text of any integer back gives that integer. */
  lemma IntRoundTrip(v: int)
    ensures IsNumeral(IntToString(v)) && IntValue(IntToString(v)) == v
  {
    if v < 0 {
      var s := IntToString(v);
      assert s[1..] == NatToString(-v);
      NatRoundTrip(-v);
    } else {
      NatRoundTrip(v);
    }
  }

  /** Equal texts come from equal integers. */
  lemma IntToStringInjective(a: int, b: int)
    requires IntToString(a) == IntToString(b)
    ensures a == b
  {
    IntRoundTrip(a);
    IntRoundTrip(b);
  }

  /** The text of an integer contains no space. */
  lemma IntToStringHasNoSpace(v: int)
    ensures forall i :: 0 <= i < |IntToString(v)| ==> IntToString(v)[i] != ' '
  {
  }
}
