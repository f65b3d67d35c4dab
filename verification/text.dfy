/**
 * Decimal rendering of integers, as JavaScript template literals (`${i+1}`)
 * and Python f-strings (`{idx}`) render them.
 */
module Text {

  predicate IsDigit(c: char) {
    '0' <= c <= '9'
  }

  /** Every character of `s` is a decimal digit. */
  predicate AllDigits(s: string) {
    forall i :: 0 <= i < |s| ==> IsDigit(s[i])
  }

  function DigitChar(d: nat): (c: char)
    requires d < 10
    ensures IsDigit(c) && DigitValue(c) == d
  {
    (('0' as int) + d) as char
  }

  function DigitValue(c: char): (d: nat)
    requires IsDigit(c)
    ensures d < 10
  {
    (c as int) - ('0' as int)
  }

  /** The value a string of decimal digits denotes. */
  function DecimalValue(s: string): nat
    requires AllDigits(s)
  {
    if s == [] then 0
    else DecimalValue(s[..|s| - 1]) * 10 + DigitValue(s[|s| - 1])
  }

  /** Shortest decimal representation of `n`, without leading zeros. */
  function NatToString(n: nat): (s: string)
    ensures 0 < |s|
    ensures AllDigits(s)
    ensures |s| > 1 ==> s[0] != '0'
  {
    if n < 10 then [DigitChar(n)] else NatToString(n / 10) + [DigitChar(n % 10)]
  }

  function IntToString(i: int): (s: string)
    ensures 0 < |s|
    ensures (s[0] == '-') <==> i < 0
    ensures i >= 0 ==> s == NatToString(i)
    ensures i < 0 ==> s == "-" + NatToString(-i)
  {
    if i < 0 then "-" + NatToString(-i) else NatToString(i)
  }

  /** Rendering a number and reading it back gives the number again. */
  lemma {:induction false} NatToStringRoundTrip(n: nat)
    ensures DecimalValue(NatToString(n)) == n
  {
    var s := NatToString(n);
    if n >= 10 {
      NatToStringRoundTrip(n / 10);
      assert s[..|s| - 1] == NatToString(n / 10);
    }
  }

  /** Distinct numbers render to distinct strings. */
  lemma NatToStringInjective(m: nat, n: nat)
    requires NatToString(m) == NatToString(n)
    ensures m == n
  {
    NatToStringRoundTrip(m);
    NatToStringRoundTrip(n);
  }

  /** Distinct integers render differently. */
  lemma IntToStringInjective(i: int, j: int)
    requires IntToString(i) == IntToString(j)
    ensures i == j
  {
    var s := IntToString(i);
    if i < 0 {
      assert s[1..] == NatToString(-i) == NatToString(-j);
      NatToStringInjective(-i, -j);
    } else {
      NatToStringInjective(i, j);
    }
  }

  /** Number of decimal digits at the start of `s`. */
  function LeadingDigits(s: string): (n: nat)
    ensures n <= |s|
  {
    if s == [] || !IsDigit(s[0]) then 0 else 1 + LeadingDigits(s[1..])
  }

  /** A run of digits followed by a non-digit is read off exactly. */
  lemma {:induction false} LeadingDigitsOf(a: string, rest: string)
    requires AllDigits(a)
    requires |rest| > 0 && !IsDigit(rest[0])
    ensures LeadingDigits(a + rest) == |a|
  {
    if a != [] {
      assert (a + rest)[1..] == a[1..] + rest;
      LeadingDigitsOf(a[1..], rest);
    }
  }

  /** Two digit runs, each followed by a non-digit: equal texts have equal runs and equal rests. */
  lemma SplitAtDigits(a1: string, r1: string, a2: string, r2: string)
    requires AllDigits(a1) && AllDigits(a2)
    requires |r1| > 0 && !IsDigit(r1[0]) && |r2| > 0 && !IsDigit(r2[0])
    requires a1 + r1 == a2 + r2
    ensures a1 == a2 && r1 == r2
  {
    LeadingDigitsOf(a1, r1);
    LeadingDigitsOf(a2, r2);
    assert a1 == (a1 + r1)[..|a1|];
    assert a2 == (a2 + r2)[..|a2|];
    assert r1 == (a1 + r1)[|a1|..];
    assert r2 == (a2 + r2)[|a2|..];
  }

  /** A common prefix can be cancelled. */
  lemma CancelPrefix(p: string, x: string, y: string)
    requires p + x == p + y
    ensures x == y
  {
    assert x == (p + x)[|p|..];
    assert y == (p + y)[|p|..];
  }

}
