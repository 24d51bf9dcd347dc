/**
 * The few string operations the source relies on: `startsWith`, `includes`,
 * `toUpperCase` and the blank test `!s.trim()`.
 */
module Text {

  /** `s.startsWith(p)`. */
  predicate StartsWith(s: string, p: string) {
    |p| <= |s| && s[..|p|] == p
  }

  /** The characters of `p` match those of `s` from position `i + j` onwards. */
  predicate MatchesFrom(s: string, p: string, i: nat, j: nat)
    requires i + |p| <= |s|
    decreases |p| - j
  {
    j >= |p| || (s[i + j] == p[j] && MatchesFrom(s, p, i, j + 1))
  }

  /** `p` occurs in `s` at some position `i' >= i`. */
  predicate ContainsFrom(s: string, p: string, i: nat)
    decreases |s| - i
  {
    i + |p| <= |s| && (MatchesFrom(s, p, i, 0) || ContainsFrom(s, p, i + 1))
  }

  /** `s.includes(p)`. */
  predicate Contains(s: string, p: string) {
    ContainsFrom(s, p, 0)
  }

  lemma {:induction false} MatchesFromIsSlice(s: string, p: string, i: nat, j: nat)
    requires i + |p| <= |s| && j <= |p|
    ensures MatchesFrom(s, p, i, j) <==> s[i + j..i + |p|] == p[j..]
    decreases |p| - j
  {
    if j < |p| {
      MatchesFromIsSlice(s, p, i, j + 1);
      assert s[i + j..i + |p|] == [s[i + j]] + s[i + j + 1..i + |p|];
      assert p[j..] == [p[j]] + p[j + 1..];
    }
  }

  /** `p` occurs in `s` at position `k`. */
  predicate OccursAt(s: string, p: string, k: nat) {
    k + |p| <= |s| && s[k..k + |p|] == p
  }

  lemma {:induction false} ContainsFromIsOccurrence(s: string, p: string, i: nat)
    ensures ContainsFrom(s, p, i) <==> exists k: nat :: i <= k && OccursAt(s, p, k)
    decreases |s| - i
  {
    if i + |p| <= |s| {
      MatchesFromIsSlice(s, p, i, 0);
      assert p[0..] == p;
      assert MatchesFrom(s, p, i, 0) <==> OccursAt(s, p, i);
      ContainsFromIsOccurrence(s, p, i + 1);
      if exists k: nat :: i <= k && OccursAt(s, p, k) {
        var k: nat :| i <= k && OccursAt(s, p, k);
        if k > i {
          assert i + 1 <= k;
        }
      }
    } else {
      assert forall k: nat :: i <= k ==> !OccursAt(s, p, k);
    }
  }

  /** `Contains` is the usual substring relation. */
  lemma ContainsIsSubstring(s: string, p: string)
    ensures Contains(s, p) <==> exists k: nat :: OccursAt(s, p, k)
  {
    ContainsFromIsOccurrence(s, p, 0);
  }

  /** Every string that starts with `p` contains it. */
  lemma StartsWithContains(s: string, p: string)
    requires StartsWith(s, p)
    ensures Contains(s, p)
  {
    ContainsIsSubstring(s, p);
    assert OccursAt(s, p, 0);
  }

  /** A string can only contain a pattern whose characters it has. */
  lemma ContainsKeepsChars(s: string, p: string, c: char)
    requires Contains(s, p) && c in p
    ensures c in s
  {
    ContainsIsSubstring(s, p);
    var k: nat :| OccursAt(s, p, k);
    var j :| 0 <= j < |p| && p[j] == c;
    assert s[k + j] == s[k..k + |p|][j];
  }

  /** Upper-casing of one character, for the ASCII letters. */
  function UpperChar(c: char): (u: char)
    ensures 'a' <= c <= 'z' ==> u as int == c as int - 32
    ensures !('a' <= c <= 'z') ==> u == c
  {
    if 'a' <= c <= 'z' then (c as int - 32) as char else c
  }

  /** `s.toUpperCase()` for ASCII letters (other characters are kept). */
  function ToUpper(s: string): (u: string)
    ensures |u| == |s|
    ensures forall i :: 0 <= i < |s| ==> u[i] == UpperChar(s[i])
  {
    if s == [] then [] else [UpperChar(s[0])] + ToUpper(s[1..])
  }

  /**
   * The characters `trim()` removes: the ECMAScript white space (tab, line
   * tabulation, form feed, the byte-order mark and every Unicode space
   * separator) and the line terminators.
   */
  predicate IsWhitespace(c: char) {
    c == '\t' || c == '\U{0B}' || c == '\U{0C}' || c == '\U{FEFF}'
    || c == ' ' || c == '\U{A0}' || c == '\U{1680}' || '\U{2000}' <= c <= '\U{200A}'
    || c == '\U{202F}' || c == '\U{205F}' || c == '\U{3000}'
    || c == '\n' || c == '\r' || c == '\U{2028}' || c == '\U{2029}'
  }

  /** An em space alone counts as blank, as `"\u2003".trim()` is empty. */
  lemma EmSpaceIsBlank()
    ensures IsBlank("\U{2003}") && IsBlank(" \U{1680}\U{205F}") && !IsBlank(" x ")
  {
    assert " x "[1] == 'x';
  }

  /** `!s || !s.trim()`: the string is empty or only whitespace. */
  predicate IsBlank(s: string) {
    forall i :: 0 <= i < |s| ==> IsWhitespace(s[i])
  }
}
