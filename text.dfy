/**
 * String helpers that stand for the JavaScript built-ins the component uses:
 * `String.prototype.trim`, `Array.prototype.join` and the decimal rendering
 * of a non-negative count inside a template literal.
 */
module Text {

  /** The WhiteSpace and LineTerminator code points of ECMAScript, which `trim` strips. */
  const SpaceChars: set<char> := {
    '\t', '\n', '\U{B}', '\U{C}', '\r', ' ', '\U{A0}', '\U{1680}',
    '\U{2000}', '\U{2001}', '\U{2002}', '\U{2003}', '\U{2004}', '\U{2005}',
    '\U{2006}', '\U{2007}', '\U{2008}', '\U{2009}', '\U{200A}',
    '\U{2028}', '\U{2029}', '\U{202F}', '\U{205F}', '\U{3000}', '\U{FEFF}'
  }

  predicate IsSpace(c: char) {
    c in SpaceChars
  }

  /** Every character of `s` in `[lo, hi)` satisfies `space`. */
  predicate SpaceBetween(s: string, space: char -> bool, lo: int, hi: int)
    requires 0 <= lo && hi <= |s|
  {
    forall k :: lo <= k < hi ==> space(s[k])
  }

  /** The first index at or after `i` whose character is not a `space` one (or `|s|`). */
  function SkipForward(s: string, space: char -> bool, i: nat): (n: nat)
    requires i <= |s|
    ensures i <= n <= |s| && SpaceBetween(s, space, i, n)
    ensures n == |s| || !space(s[n])
    decreases |s| - i
  {
    if i < |s| && space(s[i]) then SkipForward(s, space, i + 1) else i
  }

  /** The last index at or before `j` that follows a character that is not a `space` one (or 0). */
  function SkipBackward(s: string, space: char -> bool, j: nat): (m: nat)
    requires j <= |s|
    ensures m <= j && SpaceBetween(s, space, m, j)
    ensures m == 0 || !space(s[m - 1])
  {
    if j > 0 && space(s[j - 1]) then SkipBackward(s, space, j - 1) else j
  }

  /** Trimming on both ends: the result is a slice of `s` that neither starts nor ends with a
      `space` character, only such characters are cut away on either side, and the result is
      empty exactly when `s` is made of them. */
  function TrimBy(s: string, space: char -> bool): (r: string)
    ensures exists i, j ::
      (0 <= i <= j <= |s| && r == s[i..j] && SpaceBetween(s, space, 0, i) && SpaceBetween(s, space, j, |s|))
    ensures r == [] || (!space(r[0]) && !space(r[|r| - 1]))
    ensures r == [] <==> SpaceBetween(s, space, 0, |s|)
  {
    var i := SkipForward(s, space, 0);
    var j := SkipBackward(s, space, |s|);
    if j <= i then
      assert SpaceBetween(s, space, 0, 0) && SpaceBetween(s, space, |s|, |s|);
      s[|s|..|s|]
    else
      assert !space(s[i]) && !space(s[j - 1]);
      s[i..j]
  }

  /** Trimming twice is trimming once. */
  lemma TrimIdempotent(s: string, space: char -> bool)
    ensures TrimBy(TrimBy(s, space), space) == TrimBy(s, space)
  {
    var r := TrimBy(s, space);
    if r != [] {
      assert SkipForward(r, space, 0) == 0;
      assert SkipBackward(r, space, |r|) == |r|;
    }
  }

  /** `s.trim()`. */
  function Trim(s: string): string {
    TrimBy(s, IsSpace)
  }

  /** `parts.join(sep)`. */
  function Join(parts: seq<string>, sep: string): (r: string)
    ensures |parts| == 0 ==> r == []
    ensures |parts| == 1 ==> r == parts[0]
  {
    if |parts| == 0 then ""
    else if |parts| == 1 then parts[0]
    else parts[0] + sep + Join(parts[1..], sep)
  }

  /** `t` occurs in `s` as a contiguous piece. */
  ghost predicate Embeds(s: string, t: string) {
    exists off :: OccursAt(s, t, off)
  }

  predicate OccursAt(s: string, t: string, off: int) {
    0 <= off <= |s| - |t| && s[off..off + |t|] == t
  }

  lemma EmbedsInRight(a: string, b: string, t: string)
    requires Embeds(b, t)
    ensures Embeds(a + b, t)
  {
    var off :| OccursAt(b, t, off);
    assert (a + b)[|a| + off..|a| + off + |t|] == b[off..off + |t|];
    assert OccursAt(a + b, t, |a| + off);
  }

  lemma EmbedsInLeft(a: string, b: string, t: string)
    requires Embeds(a, t)
    ensures Embeds(a + b, t)
  {
    var off :| OccursAt(a, t, off);
    assert (a + b)[off..off + |t|] == a[off..off + |t|];
    assert OccursAt(a + b, t, off);
  }

  lemma EmbedsSelf(t: string)
    ensures Embeds(t, t)
  {
    assert t[0..|t|] == t;
    assert OccursAt(t, t, 0);
  }

  lemma EmbedsInMiddle(a: string, m: string, b: string, t: string)
    requires Embeds(m, t)
    ensures Embeds(a + m + b, t)
  {
    EmbedsInRight(a, m, t);
    EmbedsInLeft(a + m, b, t);
  }

  /** Every part appears verbatim in the joined text. */
  lemma {:induction false} JoinEmbeds(parts: seq<string>, sep: string, i: nat)
    requires i < |parts|
    ensures Embeds(Join(parts, sep), parts[i])
  {
    if |parts| == 1 || i == 0 {
      assert Join(parts, sep)[0..|parts[0]|] == parts[0];
      assert OccursAt(Join(parts, sep), parts[i], 0);
    } else {
      JoinEmbeds(parts[1..], sep, i - 1);
      EmbedsInRight(parts[0] + sep, Join(parts[1..], sep), parts[i]);
    }
  }

  /** Joining a head part before at least one more. */
  lemma JoinCons(x: string, rest: seq<string>, sep: string)
    requires |rest| >= 1
    ensures Join([x] + rest, sep) == x + sep + Join(rest, sep)
  {
    assert ([x] + rest)[1..] == rest;
  }

  /** Joining two head parts before at least one more. */
  lemma JoinConsTwice(a: string, b: string, rest: seq<string>, sep: string)
    requires |rest| >= 1
    ensures Join([a, b] + rest, sep) == a + sep + (b + sep + Join(rest, sep))
  {
    assert [a, b] + rest == [a] + ([b] + rest);
    JoinCons(b, rest, sep);
    JoinCons(a, [b] + rest, sep);
  }

  /** Joining three head parts before at least one more. */
  lemma JoinConsThrice(a: string, b: string, c: string, rest: seq<string>, sep: string)
    requires |rest| >= 1
    ensures Join([a, b, c] + rest, sep) == a + sep + (b + sep + (c + sep + Join(rest, sep)))
  {
    assert [a, b, c] + rest == [a, b] + ([c] + rest);
    JoinCons(c, rest, sep);
    JoinConsTwice(a, b, [c] + rest, sep);
  }

  /** Joining a part that itself holds the separator is joining its two halves. */
  lemma JoinSplitSecond(a: string, b: string, c: string, rest: seq<string>, sep: string)
    requires |rest| >= 1
    ensures Join([a, b + sep + c] + rest, sep) == Join([a, b, c] + rest, sep)
  {
    JoinConsTwice(a, b + sep + c, rest, sep);
    JoinConsThrice(a, b, c, rest, sep);
    RegroupThree(b, c, Join(rest, sep), sep);
  }

  /** Concatenation, regrouped to the right. */
  lemma RegroupThree(b: string, c: string, j: string, sep: string)
    ensures b + sep + c + sep + j == b + sep + (c + sep + j)
  {
  }

  /** `JoinSplitSecond` for a second part followed by two more. */
  lemma JoinSplitSecondOfFour(a: string, b: string, c: string, d: string, e: string, sep: string)
    ensures Join([a, b + sep + c, d, e], sep) == Join([a, b, c, d, e], sep)
  {
    JoinSplitSecond(a, b, c, [d, e], sep);
    assert [a, b + sep + c] + [d, e] == [a, b + sep + c, d, e];
    assert [a, b, c] + [d, e] == [a, b, c, d, e];
  }

  /** Four parts joined, grouped to the right. */
  lemma JoinFour(a: string, b: string, c: string, d: string, sep: string)
    ensures Join([a, b, c, d], sep) == a + sep + (b + sep + (c + sep + d))
  {
    JoinCons(c, [d], sep);
    JoinCons(b, [c, d], sep);
    assert [b] + [c, d] == [b, c, d];
    JoinCons(a, [b, c, d], sep);
    assert [a] + [b, c, d] == [a, b, c, d];
  }

  /** Four parts joined, grouped to the left as a template literal writes them. */
  lemma RegroupFour(a: string, b: string, c: string, d: string, sep: string)
    ensures a + sep + (b + sep + (c + sep + d)) == a + sep + b + sep + c + sep + d
  {
  }

  /** Concatenation, regrouped to the left. */
  lemma RegroupPrefix(p: string, a: string, r: string, q: string)
    ensures p + (a + r + q) == p + a + r + q
  {
  }

  /** Concatenation, regrouped to the right. */
  lemma RegroupTail(a: string, b: string, c: string, d: string, e: string)
    ensures a + b + c + d + e == a + b + (c + d + e)
  {
  }

  /** Concatenation, regrouped to the right. */
  lemma RegroupRight(a: string, b: string, c: string)
    ensures a + b + c == a + (b + c)
  {
  }

  predicate IsDigit(c: char) {
    '0' <= c <= '9'
  }

  predicate AllDigits(s: string) {
    forall i :: 0 <= i < |s| ==> IsDigit(s[i])
  }

  function DigitChar(d: nat): (c: char)
    requires d < 10
    ensures IsDigit(c) && c as int - '0' as int == d
  {
    ('0' as int + d) as char
  }

  /** The decimal text of `n`, as a template literal renders a non-negative integer. */
  function NatToString(n: nat): (r: string)
    ensures |r| >= 1 && AllDigits(r)
    ensures |r| > 1 ==> r[0] != '0'
  {
    if n < 10 then [DigitChar(n)] else NatToString(n / 10) + [DigitChar(n % 10)]
  }

  /** Reads a string of decimal digits back as a number. */
  function ParseNat(s: string): nat
    requires AllDigits(s)
  {
    if s == [] then 0 else ParseNat(s[..|s| - 1]) * 10 + (s[|s| - 1] as int - '0' as int)
  }

  /** Reading the decimal text of a count gives the count back. */
  lemma {:induction false} ParseNatToString(n: nat)
    ensures ParseNat(NatToString(n)) == n
  {
    var r := NatToString(n);
    if n >= 10 {
      ParseNatToString(n / 10);
      assert r[..|r| - 1] == NatToString(n / 10);
    }
  }
}
