/** Decimal text of integers, as Python's str() and f-strings write them, and
    the reading back that makes the rendering checkable. */
module Decimal {
  import opened Wrappers

  predicate IsDigit(c: char) {
    '0' <= c <= '9'
  }

  predicate AllDigits(s: string) {
    forall i :: 0 <= i < |s| ==> IsDigit(s[i])
  }

  function DigitChar(d: nat): (c: char)
    requires d < 10
    ensures IsDigit(c)
  {
    (48 + d) as char
  }

  function DigitValue(c: char): (d: nat)
    requires IsDigit(c)
    ensures d < 10 && DigitChar(d) == c
  {
    c as int - 48
  }

  /** The decimal digits of n, most significant first, without leading zeros. */
  function ShowNat(n: nat): (s: string)
    ensures |s| > 0 && AllDigits(s)
    ensures |s| > 1 ==> s[0] != '0'
  {
    if n < 10 then [DigitChar(n)] else ShowNat(n / 10) + [DigitChar(n % 10)]
  }

  /** f"{n}" for a Python int: a minus sign for negative numbers, then the digits. */
  function ShowInt(n: int): (s: string)
    ensures |s| > 0
    ensures s[0] == '-' <==> n < 0
    ensures n < 0 ==> s[1..] == ShowNat(-n)
    ensures n >= 0 ==> s == ShowNat(n)
  {
    if n < 0 then "-" + ShowNat(-n) else ShowNat(n)
  }

  /** The value of a non-empty run of decimal digits. */
  function ParseNat(s: string): nat
    requires |s| > 0 && AllDigits(s)
  {
    if |s| == 1 then DigitValue(s[0])
    else 10 * ParseNat(s[..|s| - 1]) + DigitValue(s[|s| - 1])
  }

  lemma {:induction false} ParseShowNat(n: nat)
    ensures ParseNat(ShowNat(n)) == n
  {
    if n >= 10 {
      var s := ShowNat(n);
      assert s[..|s| - 1] == ShowNat(n / 10);
      ParseShowNat(n / 10);
    }
  }

  /** The length of the longest prefix of s made of digits. */
  function DigitSpan(s: string): (k: nat)
    ensures k <= |s| && AllDigits(s[..k])
    ensures k < |s| ==> !IsDigit(s[k])
  {
    if s == [] || !IsDigit(s[0]) then 0
    else
      var k := 1 + DigitSpan(s[1..]);
      assert s[..k] == [s[0]] + s[1..][..k - 1];
      k
  }

  lemma DigitSpanOfDigits(d: string, t: string)
    requires AllDigits(d)
    requires t == [] || !IsDigit(t[0])
    ensures DigitSpan(d + t) == |d|
  {
    var s := d + t;
    assert forall i :: 0 <= i < |d| ==> s[i] == d[i];
    assert |d| < |s| ==> s[|d|] == t[0];
  }

  /** Reads an optional minus sign and a run of digits from the front of s:
      the number and what follows it, or None when no digit is there. */
  function ReadInt(s: string): Option<(int, string)>
  {
    var negative := |s| > 0 && s[0] == '-';
    var body := if negative then s[1..] else s;
    var k := DigitSpan(body);
    if k == 0 then None
    else
      var v: int := ParseNat(body[..k]);
      Some((if negative then -v else v, body[k..]))
  }

  /** Reading back what ShowInt wrote gives the number and leaves what follows. */
  lemma ReadShowInt(n: int, t: string)
    requires t == [] || !IsDigit(t[0])
    ensures ReadInt(ShowInt(n) + t) == Some((n, t))
  {
    var m := if n < 0 then -n else n;
    var digits := ShowNat(m);
    var s := ShowInt(n) + t;
    var body := if n < 0 then s[1..] else s;
    assert body == digits + t;
    DigitSpanOfDigits(digits, t);
    assert body[..|digits|] == digits;
    assert body[|digits|..] == t;
    ParseShowNat(m);
  }
}
