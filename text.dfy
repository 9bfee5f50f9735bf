/**
 * Character classes and string helpers with the meaning JavaScript gives them:
 * the `\s` class, identifier characters of the scanners' patterns,
 * `String.prototype.includes`, `toLowerCase` and `trim`.
 */
module Text {

  /** JavaScript's `\s` class; `String.prototype.trim` strips exactly these characters. */
  predicate IsSpace(c: char) {
    c == ' ' || c == '\t' || c == '\n' || c == '\U{B}' || c == '\U{C}' || c == '\r'
    || c == '\U{A0}' || c == '\U{1680}' || ('\U{2000}' <= c <= '\U{200A}')
    || c == '\U{2028}' || c == '\U{2029}' || c == '\U{202F}' || c == '\U{205F}'
    || c == '\U{3000}' || c == '\U{FEFF}'
  }

  predicate IsDigit(c: char) { '0' <= c <= '9' }

  /** `[a-zA-Z_$]` */
  predicate IsIdentStart(c: char) { 'a' <= c <= 'z' || 'A' <= c <= 'Z' || c == '_' || c == '$' }

  /** `[a-zA-Z0-9_$]` */
  predicate IsIdentChar(c: char) { IsIdentStart(c) || IsDigit(c) }

  /** A string of the shape `[a-zA-Z_$][a-zA-Z0-9_$]*`. */
  predicate IsIdentifier(s: string) {
    |s| > 0 && IsIdentStart(s[0]) && forall k :: 1 <= k < |s| ==> IsIdentChar(s[k])
  }

  /** The first index at or after `i` whose character fails `p`, or `|s|`. */
  function SpanEnd(s: string, i: nat, p: char -> bool): (j: nat)
    requires i <= |s|
    ensures i <= j <= |s|
    ensures forall k :: i <= k < j ==> p(s[k])
    ensures j < |s| ==> !p(s[j])
    decreases |s| - i
  {
    if i == |s| || !p(s[i]) then i else SpanEnd(s, i + 1, p)
  }

  /** Position after the longest run of `\s` starting at `i`. */
  function SkipSpaces(s: string, i: nat): (j: nat)
    requires i <= |s|
    ensures i <= j <= |s|
    ensures forall k :: i <= k < j ==> IsSpace(s[k])
    ensures j < |s| ==> !IsSpace(s[j])
  {
    SpanEnd(s, i, IsSpace)
  }

  /** `s` has `p` as a substring starting exactly at `i`. */
  predicate StartsAt(s: string, i: nat, p: string) {
    i <= |s| && p <= s[i..]
  }

  /** The `k`-th character of a prefix found at `i` is the character at `i + k`. */
  lemma StartsAtChar(s: string, i: nat, p: string, k: nat)
    requires StartsAt(s, i, p) && k < |p|
    ensures i + k < |s| && s[i + k] == p[k]
  {
    assert s[i..][k] == p[k];
  }

  /** `s.includes(p)` restricted to positions at or after `i`. */
  predicate ContainsFrom(s: string, p: string, i: nat)
    decreases |s| - i
  {
    i + |p| <= |s| && (StartsAt(s, i, p) || ContainsFrom(s, p, i + 1))
  }

  /** `s.includes(p)` */
  predicate Contains(s: string, p: string) {
    ContainsFrom(s, p, 0)
  }

  lemma {:induction false} ContainsFromWitness(s: string, p: string, i: nat)
    ensures ContainsFrom(s, p, i) <==> exists k :: i <= k && StartsAt(s, k, p)
    decreases |s| - i
  {
    if i + |p| <= |s| {
      ContainsFromWitness(s, p, i + 1);
      forall k | i <= k && StartsAt(s, k, p)
        ensures k == i || (i + 1 <= k && StartsAt(s, k, p))
      {
      }
    } else {
      forall k | i <= k
        ensures !StartsAt(s, k, p)
      {
      }
    }
  }

  /** `s.includes(p)` holds exactly when `p` occurs somewhere in `s`. */
  lemma ContainsWitness(s: string, p: string)
    ensures Contains(s, p) <==> exists k :: StartsAt(s, k, p)
  {
    ContainsFromWitness(s, p, 0);
  }

  /** An occurrence of `p` inside a prefix of `s` is an occurrence in `s`. */
  lemma ContainsPrefix(s: string, t: string, p: string)
    requires Contains(s, p)
    ensures Contains(s + t, p)
  {
    ContainsWitness(s, p);
    var k: nat :| StartsAt(s, k, p);
    assert (s + t)[k..k + |p|] == s[k..k + |p|];
    assert StartsAt(s + t, k, p);
    ContainsWitness(s + t, p);
  }

  function LowerChar(c: char): char {
    if 'A' <= c <= 'Z' then (c as int + 32) as char else c
  }

  /** `s.toLowerCase()` on the ASCII letters. */
  function Lower(s: string): (r: string)
    ensures |r| == |s|
    ensures forall k :: 0 <= k < |s| ==> r[k] == LowerChar(s[k])
  {
    seq(|s|, k requires 0 <= k < |s| => LowerChar(s[k]))
  }

  function UpperChar(c: char): char {
    if 'a' <= c <= 'z' then (c as int - 32) as char else c
  }

  /** `s.toUpperCase()` on the ASCII letters. */
  function Upper(s: string): (r: string)
    ensures |r| == |s|
    ensures forall k :: 0 <= k < |s| ==> r[k] == UpperChar(s[k])
  {
    seq(|s|, k requires 0 <= k < |s| => UpperChar(s[k]))
  }

  /** Index just past the last non-space character of `s[..j]`. */
  function TrimEndIndex(s: string, j: nat): (e: nat)
    requires j <= |s|
    ensures e <= j
    ensures forall k :: e <= k < j ==> IsSpace(s[k])
    ensures e > 0 ==> !IsSpace(s[e - 1])
  {
    if j == 0 || !IsSpace(s[j - 1]) then j else TrimEndIndex(s, j - 1)
  }

  /** `s.trim()`: the substring between the first and the last character outside `\s`.
      Only `\s` characters are cut, all of them from both ends, and nothing inside. */
  function Trim(s: string): (r: string)
    ensures |r| > 0 ==> !IsSpace(r[0]) && !IsSpace(r[|r| - 1])
    ensures exists i, j :: 0 <= i <= j <= |s| && r == s[i..j] &&
              (forall k :: 0 <= k < i ==> IsSpace(s[k])) &&
              (forall k :: j <= k < |s| ==> IsSpace(s[k]))
  {
    var b := SkipSpaces(s, 0);
    var e := TrimEndIndex(s, |s|);
    if b >= e then (assert b == |s| && s[|s|..|s|] == []; []) else s[b..e]
  }

  /** Replaces every backslash by `/`: `.replace(/\\/g, '/')`. */
  function Slashes(s: string): (r: string)
    ensures |r| == |s|
    ensures forall k :: 0 <= k < |s| ==> r[k] == (if s[k] == '\\' then '/' else s[k])
  {
    seq(|s|, k requires 0 <= k < |s| => if s[k] == '\\' then '/' else s[k])
  }
}
