/** PHP's rendering of a non-negative integer as a decimal string, as used when an id is
    concatenated into a nonce scope, a log line or a message. */
module Decimal {

  predicate IsDigit(c: char) {
    '0' <= c <= '9'
  }

  predicate AllDigits(s: string) {
    forall i :: 0 <= i < |s| ==> IsDigit(s[i])
  }

  function DigitChar(d: nat): (c: char)
    requires d < 10
    ensures IsDigit(c)
  {
    (48 + d) as char
  }

  function DigitValue(c: char): (d: nat)
    requires IsDigit(c)
    ensures d < 10
    ensures DigitChar(d) == c
  {
    c as int - 48
  }

  /** The decimal string of n, without sign and without leading zeros. */
  function NatToString(n: nat): (s: string)
    ensures |s| >= 1 && AllDigits(s)
    ensures |s| > 1 ==> s[0] != '0'
  {
    if n < 10 then [DigitChar(n)] else NatToString(n / 10) + [DigitChar(n % 10)]
  }

  /** The number a string of digits denotes (the inverse of NatToString). */
  function ParseDigits(s: string): nat
    requires AllDigits(s)
  {
    if s == [] then 0 else 10 * ParseDigits(s[..|s| - 1]) + DigitValue(s[|s| - 1])
  }

  lemma {:induction false} ParseNatToString(n: nat)
    ensures ParseDigits(NatToString(n)) == n
  {
    var s := NatToString(n);
    if n < 10 {
      assert s[..0] == [];
    } else {
      assert s[..|s| - 1] == NatToString(n / 10);
      ParseNatToString(n / 10);
    }
  }

  /** Distinct ids render as distinct strings. */
  lemma NatToStringInjective(a: nat, b: nat)
    ensures NatToString(a) == NatToString(b) <==> a == b
  {
    ParseNatToString(a);
    ParseNatToString(b);
  }

  /** In a run of digits followed by a non-digit, the first non-digit sits right after the run. */
  lemma BoundaryAt(d: string, r: string)
    requires AllDigits(d)
    requires |r| > 0 && !IsDigit(r[0])
    ensures forall i :: 0 <= i < |d| ==> IsDigit((d + r)[i])
    ensures !IsDigit((d + r)[|d|])
  {
  }

  /** A run of digits followed by a non-digit is determined by the string: the boundary between
      the number and the text after it cannot move. */
  lemma DigitRunSplit(d1: string, r1: string, d2: string, r2: string)
    requires AllDigits(d1) && AllDigits(d2)
    requires |r1| > 0 && !IsDigit(r1[0])
    requires |r2| > 0 && !IsDigit(r2[0])
    requires d1 + r1 == d2 + r2
    ensures d1 == d2 && r1 == r2
  {
    var s := d1 + r1;
    BoundaryAt(d1, r1);
    BoundaryAt(d2, r2);
    assert |d1| == |d2|;
    assert d1 == s[..|d1|];
    assert d2 == s[..|d2|];
    assert r1 == s[|d1|..];
    assert r2 == s[|d2|..];
  }

  /** The decimal rendering of one id, followed by text that starts with a non-digit, determines
      both the id and that text. */
  lemma NumberThenText(a: nat, r1: string, b: nat, r2: string)
    requires |r1| > 0 && !IsDigit(r1[0])
    requires |r2| > 0 && !IsDigit(r2[0])
    requires NatToString(a) + r1 == NatToString(b) + r2
    ensures a == b && r1 == r2
  {
    DigitRunSplit(NatToString(a), r1, NatToString(b), r2);
    NatToStringInjective(a, b);
  }

  /** In text ending with a non-digit followed by a run of digits, the last non-digit sits right
      before the run. */
  lemma EndBoundaryAt(r: string, d: string)
    requires AllDigits(d)
    requires |r| > 0 && !IsDigit(r[|r| - 1])
    ensures forall i :: |r| <= i < |r + d| ==> IsDigit((r + d)[i])
    ensures !IsDigit((r + d)[|r| - 1])
  {
  }

  /** Text ending with a non-digit, followed by the decimal rendering of an id, determines both
      the text and the id. */
  lemma TextThenNumber(r1: string, a: nat, r2: string, b: nat)
    requires |r1| > 0 && !IsDigit(r1[|r1| - 1])
    requires |r2| > 0 && !IsDigit(r2[|r2| - 1])
    requires r1 + NatToString(a) == r2 + NatToString(b)
    ensures r1 == r2 && a == b
  {
    var d1, d2 := NatToString(a), NatToString(b);
    var s := r1 + d1;
    EndBoundaryAt(r1, d1);
    EndBoundaryAt(r2, d2);
    assert |r1| == |r2|;
    assert r1 == s[..|r1|];
    assert r2 == s[..|r2|];
    assert d1 == s[|r1|..];
    assert d2 == s[|r2|..];
    NatToStringInjective(a, b);
  }

  /** Equal strings with the same suffix have the same beginning. */
  lemma StripSuffix(r1: string, r2: string, p: string)
    requires r1 + p == r2 + p
    ensures r1 == r2
  {
    assert r1 == (r1 + p)[..|r1|];
    assert r2 == (r2 + p)[..|r2|];
  }

  /** Equal strings with the same prefix have the same rest. */
  lemma StripPrefix(p: string, r1: string, r2: string)
    requires p + r1 == p + r2
    ensures r1 == r2
  {
    assert r1 == (p + r1)[|p|..];
    assert r2 == (p + r2)[|p|..];
  }
}
