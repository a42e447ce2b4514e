/**
 * Decimal rendering of non-negative integers in ASCII digits, as Java's
 * string concatenation prints an `int` (the digits, without leading zeros;
 * `%d` prints the same under a locale whose zero digit is '0'), and the facts
 * that let a number be read back from a rendered text.
 */
module Decimal {

  predicate IsDigit(c: char) {
    '0' <= c <= '9'
  }

  predicate AllDigits(s: string) {
    forall i :: 0 <= i < |s| ==> IsDigit(s[i])
  }

  /** True when `r` does not continue a run of digits that precedes it. */
  predicate StartsWithNonDigit(r: string) {
    r == [] || !IsDigit(r[0])
  }

  /** True when `r` does not continue a run of digits that follows it. */
  predicate EndsWithNonDigit(r: string) {
    r == [] || !IsDigit(r[|r| - 1])
  }

  function DigitValue(c: char): nat
    requires IsDigit(c)
  {
    c as int - '0' as int
  }

  function DigitChar(d: nat): (c: char)
    requires d < 10
    ensures IsDigit(c) && DigitValue(c) == d
  {
    ('0' as int + d) as char
  }

  /** The decimal digits of `n`, most significant first. */
  function NatToString(n: nat): (s: string) {
    if n < 10 then [DigitChar(n)] else NatToString(n / 10) + [DigitChar(n % 10)]
  }

  /** The rendering is a non-empty run of digits, with no leading zero except for 0 itself. */
  lemma {:induction false} NatToStringIsDecimal(n: nat)
    ensures var s := NatToString(n);
            |s| >= 1 && AllDigits(s) && (s[0] == '0' <==> n == 0)
  {
    if n >= 10 {
      NatToStringIsDecimal(n / 10);
    }
  }

  function ParseNat(s: string): nat
    requires AllDigits(s)
  {
    if s == [] then 0 else ParseNat(s[..|s| - 1]) * 10 + DigitValue(s[|s| - 1])
  }

  lemma {:induction false} ParseNatToString(n: nat)
    ensures AllDigits(NatToString(n)) && ParseNat(NatToString(n)) == n
  {
    NatToStringIsDecimal(n);
    if n >= 10 {
      var s := NatToString(n);
      assert s[..|s| - 1] == NatToString(n / 10);
      ParseNatToString(n / 10);
    }
  }

  lemma NatToStringInjective(a: nat, b: nat)
    requires NatToString(a) == NatToString(b)
    ensures a == b
  {
    ParseNatToString(a);
    ParseNatToString(b);
  }

  /** Concatenation regrouped, for texts built left to right. */
  lemma Regroup(a: string, b: string, c: string)
    ensures a + b + c == a + (b + c)
  {
  }

  /** A run of digits followed by a non-digit splits a text in one way only. */
  lemma DigitRunPrefix(d1: string, r1: string, d2: string, r2: string)
    requires AllDigits(d1) && AllDigits(d2)
    requires StartsWithNonDigit(r1) && StartsWithNonDigit(r2)
    requires d1 + r1 == d2 + r2
    ensures d1 == d2 && r1 == r2
  {
    assert d1 == (d1 + r1)[..|d1|];
    assert d2 == (d2 + r2)[..|d2|];
  }

  /** A non-digit followed by a run of digits ending the text splits it in one way only. */
  lemma DigitRunSuffix(r1: string, d1: string, r2: string, d2: string)
    requires AllDigits(d1) && AllDigits(d2)
    requires EndsWithNonDigit(r1) && EndsWithNonDigit(r2)
    requires r1 + d1 == r2 + d2
    ensures r1 == r2 && d1 == d2
  {
    var s := r1 + d1;
    assert r1 == s[..|r1|];
    assert r2 == (r2 + d2)[..|r2|];
    assert d1 == s[|r1|..];
    assert d2 == (r2 + d2)[|r2|..];
  }

  /** A rendered natural number followed by a non-digit can be read back. */
  lemma LeadingNatUnique(a: nat, r1: string, b: nat, r2: string)
    requires StartsWithNonDigit(r1) && StartsWithNonDigit(r2)
    requires NatToString(a) + r1 == NatToString(b) + r2
    ensures a == b && r1 == r2
  {
    NatToStringIsDecimal(a);
    NatToStringIsDecimal(b);
    DigitRunPrefix(NatToString(a), r1, NatToString(b), r2);
    NatToStringInjective(a, b);
  }

  /** A rendered natural number that ends a text after a non-digit can be read back. */
  lemma TrailingNatUnique(r1: string, a: nat, r2: string, b: nat)
    requires EndsWithNonDigit(r1) && EndsWithNonDigit(r2)
    requires r1 + NatToString(a) == r2 + NatToString(b)
    ensures r1 == r2 && a == b
  {
    NatToStringIsDecimal(a);
    NatToStringIsDecimal(b);
    DigitRunSuffix(r1, NatToString(a), r2, NatToString(b));
    NatToStringInjective(a, b);
  }
}
