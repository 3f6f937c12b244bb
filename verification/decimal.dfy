/** PHP's conversion between integers and their decimal strings, as far as
    the asserter depends on it: `'[' . $index . ']'` and `%s` print an integer
    key in decimal, and an array lookup such as `$object["5"]` treats a string
    that is the canonical decimal form of a 64-bit integer as that integer. */
module Decimal {

  const MinInt64: int := -0x8000_0000_0000_0000
  const MaxInt64: int := 0x7FFF_FFFF_FFFF_FFFF

  /** PHP's native integer type on a 64-bit build. */
  type Int64 = i: int | MinInt64 <= i <= MaxInt64

  predicate IsDigit(c: char) {
    '0' <= c <= '9'
  }

  predicate AllDigits(s: string) {
    forall i :: 0 <= i < |s| ==> IsDigit(s[i])
  }

  function DigitValue(c: char): (d: nat)
    requires IsDigit(c)
    ensures d < 10
  {
    c as int - '0' as int
  }

  function DigitChar(d: nat): (c: char)
    requires d < 10
    ensures IsDigit(c) && DigitValue(c) == d
  {
    ('0' as int + d) as char
  }

  /** The natural number a string of digits denotes, most significant first. */
  function DigitsToNat(s: string): nat
    requires AllDigits(s)
  {
    if |s| == 0 then 0
    else DigitsToNat(s[..|s| - 1]) * 10 + DigitValue(s[|s| - 1])
  }

  /** Decimal digits of `n` without leading zeros ("0" for zero). */
  function NatToString(n: nat): (r: string)
    ensures |r| >= 1 && AllDigits(r)
    ensures |r| > 1 ==> r[0] != '0'
  {
    if n < 10 then [DigitChar(n)]
    else NatToString(n / 10) + [DigitChar(n % 10)]
  }

  /** A string PHP reads as an integer key: "0", or an optional '-' followed
      by a digit string that does not start with '0' (so "-0", "05", "+5"
      and " 5" are not canonical). */
  predicate IsCanonical(s: string) {
    if |s| > 0 && s[0] == '-' then
      |s| > 1 && s[1] != '0' && AllDigits(s[1..])
    else
      |s| > 0 && AllDigits(s) && (|s| == 1 || s[0] != '0')
  }

  /** The integer a canonical decimal string denotes. */
  function Parse(s: string): int
    requires IsCanonical(s)
  {
    if s[0] == '-' then -(DigitsToNat(s[1..]) as int) else DigitsToNat(s)
  }

  /** PHP's string conversion of an integer: `(string) $i`. */
  function IntToString(i: int): (r: string)
    ensures IsCanonical(r) && Parse(r) == i
  {
    NatToStringRoundTrip(if i < 0 then -i else i);
    if i < 0 then "-" + NatToString(-i) else NatToString(i)
  }

  /** Reading back the printed digits of `n` gives `n`. */
  lemma {:induction false} NatToStringRoundTrip(n: nat)
    ensures DigitsToNat(NatToString(n)) == n
  {
    if n >= 10 {
      var r := NatToString(n);
      assert r[..|r| - 1] == NatToString(n / 10);
      NatToStringRoundTrip(n / 10);
    }
  }

  /** A digit string that does not start with '0' denotes a positive number. */
  lemma {:induction false} LeadingNonZeroPositive(s: string)
    requires |s| > 0 && AllDigits(s) && s[0] != '0'
    ensures DigitsToNat(s) >= 1
  {
    if |s| > 1 {
      LeadingNonZeroPositive(s[..|s| - 1]);
    }
  }

  /** Printing the number a canonical digit string denotes gives back that
      string. */
  lemma {:induction false} DigitsRoundTrip(s: string)
    requires |s| > 0 && AllDigits(s) && (|s| == 1 || s[0] != '0')
    ensures NatToString(DigitsToNat(s)) == s
  {
    if |s| > 1 {
      var p := s[..|s| - 1];
      LeadingNonZeroPositive(p);
      DigitsRoundTrip(p);
      var n := DigitsToNat(s);
      assert n / 10 == DigitsToNat(p) && n % 10 == DigitValue(s[|s| - 1]);
      assert DigitChar(n % 10) == s[|s| - 1];
      assert s == p + [s[|s| - 1]];
    }
  }

  /** The other half of the bijection: every canonical string is the printed
      form of the integer it denotes. */
  lemma ParseRoundTrip(s: string)
    requires IsCanonical(s)
    ensures IntToString(Parse(s)) == s
  {
    if s[0] == '-' {
      var t := s[1..];
      DigitsRoundTrip(t);
      LeadingNonZeroPositive(t);
      assert s == "-" + t;
    } else {
      DigitsRoundTrip(s);
    }
  }

  /** Printing is injective: distinct integers print differently. */
  lemma IntToStringInjective(i: int, j: int)
    requires IntToString(i) == IntToString(j)
    ensures i == j
  {
  }
}
