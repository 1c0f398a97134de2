/** Text helpers shared by the model: Python's `sub in s`, `s.endswith(t)`
    and the decimal rendering of integers used by `str(n)` and f-strings. */
module Strings {

  /** `sub` occurs in `s` starting at index `i`. */
  predicate OccursAt(s: string, sub: string, i: int) {
    0 <= i <= |s| - |sub| && s[i..i + |sub|] == sub
  }

  /** Python's `sub in s` on `str`: a case-sensitive substring test. */
  predicate Contains(s: string, sub: string) {
    exists i :: 0 <= i <= |s| && OccursAt(s, sub, i)
  }

  /** Every text of the shape `p + sub + q` contains `sub`. */
  lemma ContainsIntro(p: string, sub: string, q: string)
    ensures Contains(p + sub + q, sub)
  {
    var s := p + sub + q;
    assert s[|p|..|p| + |sub|] == sub;
    assert OccursAt(s, sub, |p|);
  }

  /** ... and every text that contains `sub` has that shape. */
  lemma ContainsElim(s: string, sub: string) returns (p: string, q: string)
    requires Contains(s, sub)
    ensures s == p + sub + q
  {
    var i :| 0 <= i <= |s| && OccursAt(s, sub, i);
    p, q := s[..i], s[i + |sub|..];
    assert s == s[..i] + s[i..i + |sub|] + s[i + |sub|..];
  }

  /** Adding text around a text keeps every occurrence in it. */
  lemma {:induction false} ContainsWiden(s: string, sub: string, p: string, q: string)
    requires Contains(s, sub)
    ensures Contains(p + s + q, sub)
  {
    var a, b := ContainsElim(s, sub);
    assert p + s + q == (p + a) + sub + (b + q);
    ContainsIntro(p + a, sub, b + q);
  }

  /** A text ending in `sub` contains it. */
  lemma ContainsEnd(p: string, sub: string)
    ensures Contains(p + sub, sub)
  {
    assert (p + sub)[|p|..|p| + |sub|] == sub;
    assert OccursAt(p + sub, sub, |p|);
  }

  /** Text added at the end keeps every occurrence. */
  lemma ContainsBefore(s: string, t: string, sub: string)
    requires Contains(s, sub)
    ensures Contains(s + t, sub)
  {
    var a, b := ContainsElim(s, sub);
    assert s + t == a + sub + (b + t);
    ContainsIntro(a, sub, b + t);
  }

  /** Text added in front keeps every occurrence. */
  lemma ContainsAfter(p: string, s: string, sub: string)
    requires Contains(s, sub)
    ensures Contains(p + s, sub)
  {
    var a, b := ContainsElim(s, sub);
    assert p + s == (p + a) + sub + b;
    ContainsIntro(p + a, sub, b);
  }

  /** Python's `s.endswith(suffix)`. */
  predicate EndsWith(s: string, suffix: string) {
    |suffix| <= |s| && s[|s| - |suffix|..] == suffix
  }

  predicate IsDigit(c: char) { '0' <= c <= '9' }

  predicate AllDigits(s: string) { forall i :: 0 <= i < |s| ==> IsDigit(s[i]) }

  function DigitChar(d: nat): (c: char)
    requires d < 10
    ensures IsDigit(c)
  {
    ['0', '1', '2', '3', '4', '5', '6', '7', '8', '9'][d]
  }

  /** The value of a decimal digit character. */
  function DigitValue(c: char): (d: nat)
    requires IsDigit(c)
    ensures d < 10 && DigitChar(d) == c
  {
    (c as int - '0' as int) as nat
  }

  /** `str(n)` for a non-negative integer: its decimal digits, no leading zeros. */
  function NatToString(n: nat): (s: string)
    ensures |s| > 0 && AllDigits(s)
    ensures n >= 10 <==> |s| > 1
    decreases n
  {
    if n < 10 then [DigitChar(n)] else NatToString(n / 10) + [DigitChar(n % 10)]
  }

  /** `str(n)` for any integer. */
  function IntToString(n: int): (s: string)
    ensures |s| > 0
    ensures n < 0 <==> s[0] == '-'
  {
    if n < 0 then "-" + NatToString(-n) else NatToString(n)
  }

  /** Reading the decimal digits back gives the number. */
  function ParseNat(s: string): (n: nat)
    requires AllDigits(s)
    decreases |s|
  {
    if s == [] then 0 else 10 * ParseNat(s[..|s| - 1]) + DigitValue(s[|s| - 1])
  }

  lemma {:induction false} NatToStringRoundTrip(n: nat)
    ensures ParseNat(NatToString(n)) == n
    decreases n
  {
    var s := NatToString(n);
    DigitRoundTrip(n % 10);
    if n < 10 {
      assert s == [DigitChar(n)] && s[..0] == [];
      assert ParseNat(s) == 10 * ParseNat([]) + DigitValue(DigitChar(n));
    } else {
      NatToStringRoundTrip(n / 10);
      var init := NatToString(n / 10);
      assert s == init + [DigitChar(n % 10)];
      assert s[..|s| - 1] == init && s[|s| - 1] == DigitChar(n % 10);
      assert ParseNat(s) == 10 * ParseNat(init) + DigitValue(DigitChar(n % 10));
      assert n == 10 * (n / 10) + n % 10;
    }
  }

  lemma DigitRoundTrip(d: nat)
    requires d < 10
    ensures DigitValue(DigitChar(d)) == d
  {
    assert DigitChar(d) as int == '0' as int + d;
  }
}
