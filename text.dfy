/** String helpers shared by the command-line modules: padding, `%d`
    formatting, ASCII lower-casing and substring search. */
module Text {

  /** A run of `n` blanks. */
  function Spaces(n: nat): (r: string)
    ensures |r| == n
    ensures forall i :: 0 <= i < n ==> r[i] == ' '
  {
    seq(n, _ => ' ')
  }

  lemma SpacesSplit(a: nat, b: nat)
    ensures Spaces(a) + Spaces(b) == Spaces(a + b)
  {
  }

  // ---------------------------------------------------------------------
  // `%d` formatting of an integer, as fmt.Sprintf renders it.

  function DigitChar(d: int): (c: char)
    requires 0 <= d < 10
    ensures '0' <= c <= '9'
  {
    "0123456789"[d]
  }

  function NatDecimal(n: nat): (r: string)
    ensures |r| >= 1
    ensures forall i :: 0 <= i < |r| ==> '0' <= r[i] <= '9'
    decreases n
  {
    if n < 10 then [DigitChar(n)] else NatDecimal(n / 10) + [DigitChar(n % 10)]
  }

  function Decimal(n: int): (r: string)
    ensures |r| >= 1
    ensures r[0] == '-' <==> n < 0
  {
    if n < 0 then "-" + NatDecimal(-n) else NatDecimal(n)
  }

  function Pow10(k: nat): (p: nat)
    ensures p >= 1
  {
    if k == 0 then 1 else 10 * Pow10(k - 1)
  }

  /** A natural number below 10^k takes at most k digits. */
  lemma {:induction false} NatDecimalWidth(n: nat, k: nat)
    requires 1 <= k && n < Pow10(k)
    ensures |NatDecimal(n)| <= k
  {
    if n >= 10 {
      assert Pow10(1) == 10;
      assert k >= 2;
      assert n / 10 < Pow10(k - 1);
      NatDecimalWidth(n / 10, k - 1);
    }
  }

  /** Numbers up to 9999 print in at most four digits. */
  lemma DecimalWidth4(n: nat)
    requires n <= 9999
    ensures |NatDecimal(n)| <= 4
  {
    assert Pow10(4) == 10000;
    NatDecimalWidth(n, 4);
  }

  // ---------------------------------------------------------------------
  // strings.ToLower, restricted to ASCII letters.

  function LowerChar(c: char): char
  {
    if 'A' <= c <= 'Z' then (c as int + 32) as char else c
  }

  function ToLower(s: string): (r: string)
    ensures |r| == |s|
    ensures forall i :: 0 <= i < |s| ==> r[i] == LowerChar(s[i])
  {
    seq(|s|, i requires 0 <= i < |s| => LowerChar(s[i]))
  }

  // ---------------------------------------------------------------------
  // strings.Contains.

  predicate OccursAt(s: string, sub: string, i: int)
  {
    0 <= i && i + |sub| <= |s| && s[i..i + |sub|] == sub
  }

  predicate Contains(s: string, sub: string)
  {
    exists i | 0 <= i <= |s| - |sub| :: OccursAt(s, sub, i)
  }

  /** Any occurrence of a string is an occurrence of each of its prefixes. */
  lemma PrefixOccurs(s: string, sub: string, k: nat, i: int)
    requires OccursAt(s, sub, i) && k <= |sub|
    ensures OccursAt(s, sub[..k], i)
  {
    assert s[i..i + k] == s[i..i + |sub|][..k];
  }

  lemma ContainsPrefix(s: string, sub: string, k: nat)
    requires Contains(s, sub) && k <= |sub|
    ensures Contains(s, sub[..k])
  {
    var i :| OccursAt(s, sub, i);
    PrefixOccurs(s, sub, k, i);
  }

  /** A string without the character `c` contains no string that starts with `c`. */
  lemma AbsentCharNotContained(s: string, sub: string)
    requires |sub| > 0 && forall j :: 0 <= j < |s| ==> s[j] != sub[0]
    ensures !Contains(s, sub)
  {
    forall i | 0 <= i <= |s| - |sub|
      ensures !OccursAt(s, sub, i)
    {
      assert s[i..i + |sub|][0] == s[i] != sub[0];
    }
  }

  /** A prefix stays a prefix when more text follows. */
  lemma PrefixGrows(a: string, b: string, c: string)
    requires a <= b
    ensures a <= b + c
  {
  }

  /** When q + p begins r, so does q, and p sits in r right after q. */
  lemma PrefixPart(r: string, q: string, p: string)
    requires q + p <= r
    ensures q <= r && OccursAt(r, p, |q|)
  {
    assert r[|q|..|q| + |p|] == (q + p)[|q|..];
  }

  /** Where each part of p0 + p1 + ... + p7 + t starts. */
  lemma PartsLayout(p0: string, p1: string, p2: string, p3: string, p4: string, p5: string,
                    p6: string, p7: string, t: string)
    ensures var r := p0 + p1 + p2 + p3 + p4 + p5 + p6 + p7 + t;
      && p0 <= r
      && OccursAt(r, p1, |p0|)
      && OccursAt(r, p2, |p0| + |p1|)
      && OccursAt(r, p3, |p0| + |p1| + |p2|)
      && OccursAt(r, p4, |p0| + |p1| + |p2| + |p3|)
      && OccursAt(r, p5, |p0| + |p1| + |p2| + |p3| + |p4|)
      && OccursAt(r, p6, |p0| + |p1| + |p2| + |p3| + |p4| + |p5|)
      && OccursAt(r, p7, |p0| + |p1| + |p2| + |p3| + |p4| + |p5| + |p6|)
      && r[|p0| + |p1| + |p2| + |p3| + |p4| + |p5| + |p6| + |p7|..] == t
      && |r| == |p0| + |p1| + |p2| + |p3| + |p4| + |p5| + |p6| + |p7| + |t|
  {
    var r := p0 + p1 + p2 + p3 + p4 + p5 + p6 + p7 + t;
    var q := p0 + p1 + p2 + p3 + p4 + p5 + p6 + p7;
    PrefixPart(r, q, t);
    PrefixPart(r, p0 + p1 + p2 + p3 + p4 + p5 + p6, p7);
    PrefixPart(r, p0 + p1 + p2 + p3 + p4 + p5, p6);
    PrefixPart(r, p0 + p1 + p2 + p3 + p4, p5);
    PrefixPart(r, p0 + p1 + p2 + p3, p4);
    PrefixPart(r, p0 + p1 + p2, p3);
    PrefixPart(r, p0 + p1, p2);
    PrefixPart(r, p0, p1);
    assert r[|q|..] == t;
  }
}
