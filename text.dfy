/**
 * String operations that both the Python and the TypeScript code rely on:
 * substring search (`in`, `includes`, `find`), `split`, `replace`, the
 * whitespace classes of the two regular-expression engines, and UTF-16 length.
 */
module Text {
  import opened Wrappers

  /** The path segment of the note site's watermark-free image URLs, which both readers look for. */
  const PrePost: string := "notes_pre_post"

  /** `sub` occurs in `s` starting at index `i`. */
  predicate OccursAt(s: string, sub: string, i: nat)
  {
    i + |sub| <= |s| && s[i..i + |sub|] == sub
  }

  /** Leftmost occurrence of `sub` in `s` at or after index `from`. */
  function IndexFrom(s: string, sub: string, from: nat): (r: Option<nat>)
    decreases |s| - from
    ensures r.Some? ==> from <= r.value && OccursAt(s, sub, r.value)
    ensures r.Some? ==> forall k :: from <= k < r.value ==> !OccursAt(s, sub, k)
    ensures r.None? ==> forall k :: from <= k ==> !OccursAt(s, sub, k)
  {
    if |s| < from + |sub| then None
    else if s[from..from + |sub|] == sub then Some(from)
    else IndexFrom(s, sub, from + 1)
  }

  /** Leftmost occurrence of `sub` in `s` (Python `str.find`, JS `indexOf`). */
  function IndexOf(s: string, sub: string): (r: Option<nat>)
    ensures r.Some? ==> OccursAt(s, sub, r.value)
    ensures r.Some? ==> forall k: nat :: k < r.value ==> !OccursAt(s, sub, k)
    ensures r.None? ==> forall k: nat :: !OccursAt(s, sub, k)
  {
    IndexFrom(s, sub, 0)
  }

  /** Python `sub in s`, JS `s.includes(sub)`. */
  predicate Contains(s: string, sub: string)
  {
    IndexOf(s, sub).Some?
  }

  /** Python `s.startswith(p)`, JS `s.startsWith(p)`. */
  predicate StartsWith(s: string, p: string)
  {
    p <= s
  }

  lemma ContainsAt(s: string, sub: string, k: nat)
    requires OccursAt(s, sub, k)
    ensures Contains(s, sub)
  {
  }

  lemma OccursShifted(a: string, b: string, sub: string, k: nat)
    requires OccursAt(b, sub, k)
    ensures OccursAt(a + b, sub, |a| + k)
  {
    assert (a + b)[|a| + k..|a| + k + |sub|] == b[k..k + |sub|];
  }

  lemma OccursInPrefix(a: string, b: string, sub: string, k: nat)
    requires OccursAt(a, sub, k)
    ensures OccursAt(a + b, sub, k)
  {
    assert (a + b)[k..k + |sub|] == a[k..k + |sub|];
  }

  /** Appending text on either side keeps every occurrence. */
  lemma ContainsExtended(a: string, b: string, c: string, sub: string)
    requires Contains(b, sub)
    ensures Contains(a + b + c, sub)
  {
    var k := IndexOf(b, sub).value;
    OccursShifted(a, b, sub, k);
    OccursInPrefix(a + b, c, sub, |a| + k);
    ContainsAt(a + b + c, sub, |a| + k);
  }

  /**
   * Python `s.split(sep)[1]` and JS `s.split(sep)[1]`: the piece between the
   * first and the second occurrence of `sep` (or the end), None when `sep`
   * does not occur (Python raises IndexError, JS yields undefined).
   */
  function SplitSecond(s: string, sep: string): (r: Option<string>)
    requires |sep| > 0
    ensures r.None? <==> !Contains(s, sep)
    ensures r.Some? ==> !Contains(r.value, sep)
    ensures r.Some? ==> var i := IndexOf(s, sep).value; r.value <= s[i + |sep|..]
  {
    match IndexOf(s, sep)
    case None => None
    case Some(i) =>
      var rest := s[i + |sep|..];
      match IndexOf(rest, sep)
      case None => Some(rest)
      case Some(j) =>
        var piece := rest[..j];
        assert !Contains(piece, sep) by {
          if Contains(piece, sep) {
            var k := IndexOf(piece, sep).value;
            assert piece + rest[j..] == rest;
            OccursInPrefix(piece, rest[j..], sep, k);
          }
        }
        Some(piece)
  }

  /**
   * Python `s.replace(pat, rep)` and JS `s.replace(/pat/g, rep)` for a literal
   * `pat`: every non-overlapping occurrence, scanning left to right.
   */
  function ReplaceAll(s: string, pat: string, rep: string): string
    requires |pat| > 0
    decreases |s|
  {
    match IndexOf(s, pat)
    case None => s
    case Some(i) => s[..i] + rep + ReplaceAll(s[i + |pat|..], pat, rep)
  }

  /** JS `s.replace(pat, rep)` with a string pattern: the first occurrence only. */
  function ReplaceFirst(s: string, pat: string, rep: string): string
    requires |pat| > 0
  {
    match IndexOf(s, pat)
    case None => s
    case Some(i) => s[..i] + rep + s[i + |pat|..]
  }

  /** A replacement that shortens never lengthens, and strictly shortens when `pat` occurs. */
  lemma {:induction false} ReplaceAllShrinks(s: string, pat: string, rep: string)
    requires |pat| > 0 && |rep| < |pat|
    ensures |ReplaceAll(s, pat, rep)| <= |s|
    ensures Contains(s, pat) ==> |ReplaceAll(s, pat, rep)| < |s|
    decreases |s|
  {
    match IndexOf(s, pat)
    case None =>
    case Some(i) =>
      ReplaceAllShrinks(s[i + |pat|..], pat, rep);
  }

  /**
   * Replacing every occurrence and replacing the first one agree exactly when
   * `pat` does not occur again after its first occurrence (for a shortening
   * replacement, such as `playwm` to `play`).
   */
  lemma ReplaceFirstIsAllIff(s: string, pat: string, rep: string)
    requires |pat| > 0 && |rep| < |pat|
    ensures ReplaceFirst(s, pat, rep) == ReplaceAll(s, pat, rep)
        <==> (IndexOf(s, pat).None? || !Contains(s[IndexOf(s, pat).value + |pat|..], pat))
  {
    match IndexOf(s, pat)
    case None =>
    case Some(i) =>
      var rest := s[i + |pat|..];
      var head := s[..i] + rep;
      assert ReplaceFirst(s, pat, rep) == head + rest;
      assert ReplaceAll(s, pat, rep) == head + ReplaceAll(rest, pat, rep);
      if Contains(rest, pat) {
        ReplaceAllShrinks(rest, pat, rep);
        LongerDiffers(head, rest, ReplaceAll(rest, pat, rep));
      }
  }

  /** Two strings with a common head differ when their tails differ in length. */
  lemma LongerDiffers(head: string, a: string, b: string)
    requires |a| != |b|
    ensures head + a != head + b
  {
    assert |head + a| != |head + b|;
  }

  /** Python `s.replace(a, b)` and JS `s.replace(/a/g, b)` for one-character `a` and `b`. */
  function SubstChar(s: string, from: char, to: char): (r: string)
    ensures |r| == |s|
    ensures forall k :: 0 <= k < |s| ==> r[k] == (if s[k] == from then to else s[k])
  {
    seq(|s|, k requires 0 <= k < |s| => if s[k] == from then to else s[k])
  }

  /** Python `s.split(c)` for a one-character separator. */
  function SplitOn(s: string, c: char): (r: seq<string>)
    ensures |r| >= 1
    decreases |s|
  {
    if |s| == 0 then [""]
    else
      var rest := SplitOn(s[1..], c);
      if s[0] == c then [""] + rest
      else [[s[0]] + rest[0]] + rest[1..]
  }

  lemma {:induction false} SplitOnWithoutSeparator(s: string, c: char)
    requires c !in s
    ensures SplitOn(s, c) == [s]
    decreases |s|
  {
    if |s| > 0 {
      SplitOnWithoutSeparator(s[1..], c);
      assert [s[0]] + s[1..] == s;
    }
  }

  lemma {:induction false} SplitOnPiecesLackSeparator(s: string, c: char)
    ensures forall i :: 0 <= i < |SplitOn(s, c)| ==> c !in SplitOn(s, c)[i]
    decreases |s|
  {
    if |s| > 0 {
      SplitOnPiecesLackSeparator(s[1..], c);
    }
  }

  lemma {:induction false} SplitOnAfterPiece(a: string, b: string, c: char)
    requires c !in a
    ensures SplitOn(a + [c] + b, c) == [a] + SplitOn(b, c)
    decreases |a|
  {
    if |a| == 0 {
      assert a + [c] + b == [c] + b;
      assert ([c] + b)[1..] == b;
    } else {
      SplitOnAfterPiece(a[1..], b, c);
      assert (a + [c] + b)[1..] == a[1..] + [c] + b;
      assert [a[0]] + a[1..] == a;
    }
  }

  function AsciiLowerChar(c: char): char
  {
    if 'A' <= c <= 'Z' then (c as int + 32) as char else c
  }

  /** ASCII-only lower-casing (what a case-insensitive ASCII pattern compares). */
  function AsciiLower(s: string): (r: string)
    ensures |r| == |s|
  {
    seq(|s|, k requires 0 <= k < |s| => AsciiLowerChar(s[k]))
  }

  predicate IsAsciiAlnum(c: char)
  {
    'a' <= c <= 'z' || 'A' <= c <= 'Z' || '0' <= c <= '9'
  }

  /** Characters matched by `\s` in a Python 3 `str` pattern (str.isspace). */
  predicate IsPySpace(c: char)
  {
    c == ' ' || '\t' <= c <= '\r' || '\U{1C}' <= c <= '\U{1F}' || c == '\U{85}' || c == '\U{A0}'
    || c == '\U{1680}' || '\U{2000}' <= c <= '\U{200A}' || c == '\U{2028}' || c == '\U{2029}'
    || c == '\U{202F}' || c == '\U{205F}' || c == '\U{3000}'
  }

  /** Characters matched by `\s` in a JavaScript pattern (and removed by `trim`). */
  predicate IsJsSpace(c: char)
  {
    c == ' ' || '\t' <= c <= '\r' || c == '\U{A0}' || c == '\U{1680}'
    || '\U{2000}' <= c <= '\U{200A}' || c == '\U{2028}' || c == '\U{2029}'
    || c == '\U{202F}' || c == '\U{205F}' || c == '\U{3000}' || c == '\U{FEFF}'
  }

  /** JS `s.length`: characters outside the Basic Multilingual Plane count twice. */
  function Utf16Length(s: string): (n: nat)
    ensures n >= |s|
  {
    if |s| == 0 then 0
    else (if s[0] as int > 0xFFFF then 2 else 1) + Utf16Length(s[1..])
  }

  /** Decimal rendering of a natural number (JS template interpolation of a status code). */
  function NatToString(n: nat): (r: string)
    ensures |r| >= 1
    ensures forall k :: 0 <= k < |r| ==> '0' <= r[k] <= '9'
  {
    var d := ['0', '1', '2', '3', '4', '5', '6', '7', '8', '9'][n % 10];
    if n < 10 then [d] else NatToString(n / 10) + [d]
  }
}
