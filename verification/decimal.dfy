/**
 * Decimal rendering of integers, as a JavaScript template literal renders
 * an integral number, together with a parser that undoes it and the
 * characterisation of the leading digit by powers of ten.
 */
module Decimal {

  function Pow10(k: nat): (p: nat)
    ensures p >= 1
  {
    if k == 0 then 1 else 10 * Pow10(k - 1)
  }

  predicate IsDigit(c: char) {
    '0' <= c <= '9'
  }

  predicate AllDigits(s: string) {
    forall i :: 0 <= i < |s| ==> IsDigit(s[i])
  }

  function DigitChar(d: nat): (c: char)
    requires d < 10
    ensures IsDigit(c)
    ensures DigitValue(c) == d
  {
    ('0' as int + d) as char
  }

  function DigitValue(c: char): (d: nat)
    requires IsDigit(c)
    ensures d < 10
  {
    c as int - '0' as int
  }

  /** The digits of `n`, most significant first, without leading zeros. */
  function NatToString(n: nat): (s: string)
    ensures |s| >= 1
    ensures AllDigits(s)
    ensures s[0] == '0' ==> n == 0
  {
    if n < 10 then [DigitChar(n)] else NatToString(n / 10) + [DigitChar(n % 10)]
  }

  /** The rendering of an integer: a minus sign before the digits of a negative one. */
  function IntToString(i: int): (s: string)
    ensures |s| >= 1
    ensures s[0] == '-' <==> i < 0
  {
    if i < 0 then "-" + NatToString(-i) else NatToString(i)
  }

  /** The value of a string of digits. */
  function ParseNat(s: string): (n: nat)
    requires AllDigits(s)
  {
    if |s| == 0 then 0 else 10 * ParseNat(s[..|s| - 1]) + DigitValue(s[|s| - 1])
  }

  /** Text that is a run of digits, optionally after one minus sign. */
  predicate IsIntText(s: string) {
    if |s| > 0 && s[0] == '-' then AllDigits(s[1..]) else AllDigits(s)
  }

  function ParseInt(s: string): (i: int)
    requires IsIntText(s)
  {
    if |s| > 0 && s[0] == '-' then -(ParseNat(s[1..]) as int) else ParseNat(s)
  }

  lemma {:induction false} ParseNatRoundTrip(n: nat)
    ensures ParseNat(NatToString(n)) == n
    decreases n
  {
    if n >= 10 {
      var s := NatToString(n);
      assert s[..|s| - 1] == NatToString(n / 10);
      ParseNatRoundTrip(n / 10);
    }
  }

  /** Parsing the rendering of any integer gives the integer back. */
  lemma ParseIntRoundTrip(i: int)
    ensures IsIntText(IntToString(i))
    ensures ParseInt(IntToString(i)) == i
  {
    var s := IntToString(i);
    if i < 0 {
      assert s[1..] == NatToString(-i);
      ParseNatRoundTrip(-i);
    } else {
      ParseNatRoundTrip(i);
    }
  }

  /** Distinct integers render differently. */
  lemma IntToStringInjective(i: int, j: int)
    ensures IntToString(i) == IntToString(j) ==> i == j
  {
    ParseIntRoundTrip(i);
    ParseIntRoundTrip(j);
  }

  /** The most significant decimal digit of `n` (0 for 0). */
  function LeadingDigit(n: nat): (d: nat)
    ensures d < 10
    ensures n > 0 ==> d > 0
  {
    if n < 10 then n else LeadingDigit(n / 10)
  }

  /** The first character of a rendering is the leading digit. */
  lemma {:induction false} NatToStringHead(n: nat)
    ensures NatToString(n)[0] == DigitChar(LeadingDigit(n))
    decreases n
  {
    if n >= 10 {
      NatToStringHead(n / 10);
    }
  }

  lemma DivBounds(n: nat, lo: nat, hi: nat)
    requires 10 * lo <= n < 10 * hi
    ensures lo <= n / 10 < hi
  {
  }

  lemma ScaleBounds(n: nat, d: nat, p: nat)
    requires d * p <= n / 10 < (d + 1) * p
    ensures d * (10 * p) <= n < (d + 1) * (10 * p)
  {
  }

  /** The leading digit `d` of a positive `n` places it in [d * 10^k, (d+1) * 10^k). */
  lemma {:induction false} LeadingDigitWitness(n: nat) returns (k: nat)
    requires n > 0
    ensures LeadingDigit(n) * Pow10(k) <= n < (LeadingDigit(n) + 1) * Pow10(k)
    decreases n
  {
    if n < 10 {
      k := 0;
    } else {
      var j := LeadingDigitWitness(n / 10);
      k := j + 1;
      ScaleBounds(n, LeadingDigit(n), Pow10(j));
    }
  }

  /** Conversely, a number in [d * 10^k, (d+1) * 10^k) has leading digit `d`. */
  lemma {:induction false} LeadingDigitFromBounds(n: nat, d: nat, k: nat)
    requires 1 <= d <= 9
    requires d * Pow10(k) <= n < (d + 1) * Pow10(k)
    ensures LeadingDigit(n) == d
    decreases k
  {
    if k > 0 {
      var p := Pow10(k - 1);
      assert Pow10(k) == 10 * p;
      assert n >= 10 by {
        assert d * Pow10(k) == 10 * (d * p);
      }
      DivBounds(n, d * p, (d + 1) * p);
      LeadingDigitFromBounds(n / 10, d, k - 1);
    }
  }

  /** A positive number has leading digit `d` exactly when some power of ten brackets it. */
  lemma LeadingDigitIff(n: nat, d: nat)
    requires n > 0 && 1 <= d <= 9
    ensures LeadingDigit(n) == d <==> exists k: nat :: d * Pow10(k) <= n < (d + 1) * Pow10(k)
  {
    if LeadingDigit(n) == d {
      var k := LeadingDigitWitness(n);
    }
    if exists k: nat :: d * Pow10(k) <= n < (d + 1) * Pow10(k) {
      var k: nat :| d * Pow10(k) <= n < (d + 1) * Pow10(k);
      LeadingDigitFromBounds(n, d, k);
    }
  }
}
