/**
 * The regular expressions the two URL resolvers share, written out as scans:
 * `https?://[^\s]+` (leftmost match, greedy run), a trailing-punctuation strip
 * `[...]+$`, and the whitespace class of each regular-expression engine.
 */
module UrlPattern {
  import opened Wrappers
  import Text

  /** Which engine's `\s` applies. */
  datatype Engine = Python | JavaScript

  predicate IsSpace(e: Engine, c: char)
  {
    match e
    case Python => Text.IsPySpace(c)
    case JavaScript => Text.IsJsSpace(c)
  }

  /** The text already is a URL: it starts with `http://` or `https://`. */
  predicate HasScheme(s: string)
  {
    Text.StartsWith(s, "http://") || Text.StartsWith(s, "https://")
  }

  /** Both commas, the full-width `，` and the ASCII `,`, become spaces. */
  function CommasToSpaces(s: string): (r: string)
    ensures |r| == |s|
    ensures forall k :: 0 <= k < |s| ==> r[k] == (if s[k] == '，' || s[k] == ',' then ' ' else s[k])
    ensures ',' !in r && '，' !in r
  {
    Text.SubstChar(Text.SubstChar(s, '，', ' '), ',', ' ')
  }

  /** Text without commas is left alone by the comma replacement. */
  lemma CommasToSpacesIdentity(s: string)
    requires ',' !in s && '，' !in s
    ensures CommasToSpaces(s) == s
  {
  }

  /** Length of the scheme `http://` or `https://` found at `i` (0 when neither). */
  function SchemeLen(s: string, i: nat): (n: nat)
    ensures n == 0 || n == 7 || n == 8
    ensures n == 7 <==> Text.OccursAt(s, "http://", i)
    ensures n == 8 <==> Text.OccursAt(s, "https://", i)
  {
    if Text.OccursAt(s, "https://", i) then
      assert s[i + 4] == s[i..i + 8][4] == 's';
      8
    else if Text.OccursAt(s, "http://", i) then 7
    else 0
  }

  /** `https?://[^\s]+` matches at `i`: a scheme followed by at least one non-space character. */
  predicate MatchesAt(e: Engine, s: string, i: nat)
  {
    var n := SchemeLen(s, i);
    n > 0 && i + n < |s| && !IsSpace(e, s[i + n])
  }

  /** End of the maximal run of non-space characters starting at `j`. */
  function RunEnd(e: Engine, s: string, j: nat): (r: nat)
    requires j <= |s|
    decreases |s| - j
    ensures j <= r <= |s|
    ensures forall k :: j <= k < r ==> !IsSpace(e, s[k])
    ensures r < |s| ==> IsSpace(e, s[r])
  {
    if j == |s| || IsSpace(e, s[j]) then j else RunEnd(e, s, j + 1)
  }

  /** Leftmost position at or after `from` where the URL pattern matches. */
  function FirstMatchFrom(e: Engine, s: string, from: nat): (r: Option<nat>)
    decreases |s| - from
    ensures r.Some? ==> from <= r.value && MatchesAt(e, s, r.value)
    ensures r.Some? ==> forall k :: from <= k < r.value ==> !MatchesAt(e, s, k)
    ensures r.None? ==> forall k :: from <= k ==> !MatchesAt(e, s, k)
  {
    if |s| <= from then None
    else if MatchesAt(e, s, from) then Some(from)
    else FirstMatchFrom(e, s, from + 1)
  }

  /** End of the match that starts at `i`. */
  function MatchEnd(e: Engine, s: string, i: nat): (r: nat)
    requires MatchesAt(e, s, i)
    ensures i + SchemeLen(s, i) < r <= |s|
  {
    RunEnd(e, s, i + SchemeLen(s, i))
  }

  /** What `re.search` / `String.match` returns for `https?://[^\s]+`. */
  function Search(e: Engine, s: string): (r: Option<string>)
    ensures r.None? <==> forall k :: !MatchesAt(e, s, k)
  {
    match FirstMatchFrom(e, s, 0)
    case None => None
    case Some(i) => Some(s[i..MatchEnd(e, s, i)])
  }

  /** A successful search returns the whole greedy run of the leftmost match. */
  lemma SearchIsLeftmost(e: Engine, s: string)
    requires Search(e, s).Some?
    ensures exists i: nat ::
      && MatchesAt(e, s, i)
      && (forall k: nat :: k < i ==> !MatchesAt(e, s, k))
      && Search(e, s).value == s[i..MatchEnd(e, s, i)]
  {
    var i := FirstMatchFrom(e, s, 0).value;
    assert Search(e, s).value == s[i..MatchEnd(e, s, i)];
  }

  /** A successful search starts with a scheme followed by a non-empty run of non-space characters. */
  lemma SearchShape(e: Engine, s: string)
    requires Search(e, s).Some?
    ensures var m := Search(e, s).value;
      (Text.StartsWith(m, "http://") && |m| > 7) || (Text.StartsWith(m, "https://") && |m| > 8)
    ensures var m := Search(e, s).value; forall k :: 0 <= k < |m| ==> !IsSpace(e, m[k])
  {
    var i := FirstMatchFrom(e, s, 0).value;
    var n := SchemeLen(s, i);
    var j := MatchEnd(e, s, i);
    var scheme := s[i..i + n];
    var run := s[i + n..j];
    assert s[i..j] == scheme + run;
    assert scheme == "http://" || scheme == "https://";
    SchemeHasNoSpace(e, scheme);
    assert forall k :: 0 <= k < |run| ==> !IsSpace(e, run[k]) by {
      forall k | 0 <= k < |run| ensures !IsSpace(e, run[k]) {
        assert run[k] == s[i + n + k];
      }
    }
    assert scheme <= scheme + run;
  }

  lemma SchemeHasNoSpace(e: Engine, scheme: string)
    requires scheme == "http://" || scheme == "https://"
    ensures forall k :: 0 <= k < |scheme| ==> !IsSpace(e, scheme[k])
  {
  }

  /** `re.sub(r'[...]+$', '', s)`: remove the maximal trailing run of characters from `cs`. */
  function StripTrailing(s: string, cs: set<char>): (r: string)
    decreases |s|
    ensures r <= s
    ensures |r| == 0 || r[|r| - 1] !in cs
    ensures forall k :: |r| <= k < |s| ==> s[k] in cs
  {
    if |s| > 0 && s[|s| - 1] in cs then StripTrailing(s[..|s| - 1], cs) else s
  }

  /** Stripping never reaches into a prefix whose last character is not strippable. */
  lemma {:induction false} StripKeepsPrefix(s: string, p: string, cs: set<char>)
    requires p <= s && |p| > 0 && p[|p| - 1] !in cs
    ensures p <= StripTrailing(s, cs)
    decreases |s|
  {
    if |s| > 0 && s[|s| - 1] in cs {
      assert |p| < |s|;
      StripKeepsPrefix(s[..|s| - 1], p, cs);
    }
  }

  /** A result of the leftmost-match-then-strip pipeline still starts with its scheme. */
  lemma StrippedSearchKeepsScheme(e: Engine, s: string, cs: set<char>)
    requires Search(e, s).Some? && '/' !in cs
    ensures var u := StripTrailing(Search(e, s).value, cs);
      Text.StartsWith(u, "http://") || Text.StartsWith(u, "https://")
  {
    var m := Search(e, s).value;
    SearchShape(e, s);
    if Text.StartsWith(m, "https://") {
      StripKeepsPrefix(m, "https://", cs);
    } else {
      StripKeepsPrefix(m, "http://", cs);
    }
  }

  /** Every character of a match comes from the searched text. */
  lemma SearchWithinText(e: Engine, s: string)
    requires Search(e, s).Some?
    ensures forall c :: c in Search(e, s).value ==> c in s
  {
    var i := FirstMatchFrom(e, s, 0).value;
    var m := s[i..MatchEnd(e, s, i)];
    forall c | c in m ensures c in s {
      var k :| 0 <= k < |m| && m[k] == c;
      assert s[i + k] == c;
    }
  }

  /** No match can start at a character other than `h`. */
  lemma NoMatchWithoutH(e: Engine, s: string, i: nat)
    requires i < |s| && s[i] != 'h'
    ensures !MatchesAt(e, s, i)
  {
    assert i + 7 <= |s| ==> s[i..i + 7][0] == s[i];
    assert i + 8 <= |s| ==> s[i..i + 8][0] == s[i];
  }

  /** The two engines agree on a text where their whitespace classes agree. */
  predicate SameSpaces(s: string)
  {
    forall k :: 0 <= k < |s| ==> (IsSpace(Python, s[k]) <==> IsSpace(JavaScript, s[k]))
  }

  lemma {:induction false} RunEndAgrees(s: string, j: nat)
    requires j <= |s| && SameSpaces(s)
    ensures RunEnd(Python, s, j) == RunEnd(JavaScript, s, j)
    decreases |s| - j
  {
    if j < |s| && !IsSpace(Python, s[j]) {
      RunEndAgrees(s, j + 1);
    }
  }

  lemma {:induction false} FirstMatchAgrees(s: string, from: nat)
    requires SameSpaces(s)
    ensures FirstMatchFrom(Python, s, from) == FirstMatchFrom(JavaScript, s, from)
    decreases |s| - from
  {
    if from < |s| {
      FirstMatchAgrees(s, from + 1);
    }
  }

  /** Where the whitespace classes agree, both engines find the same URL. */
  lemma SearchAgrees(s: string)
    requires SameSpaces(s)
    ensures Search(Python, s) == Search(JavaScript, s)
  {
    FirstMatchAgrees(s, 0);
    if FirstMatchFrom(Python, s, 0).Some? {
      var i := FirstMatchFrom(Python, s, 0).value;
      RunEndAgrees(s, i + SchemeLen(s, i));
    }
  }

  /** Stripping a larger character set leaves a prefix of what the smaller set leaves. */
  lemma {:induction false} StripMoreIsPrefix(s: string, small: set<char>, large: set<char>)
    requires small <= large
    ensures StripTrailing(s, large) <= StripTrailing(s, small)
    decreases |s|
  {
    if |s| > 0 && s[|s| - 1] in large {
      StripMoreIsPrefix(s[..|s| - 1], small, large);
      if s[|s| - 1] !in small {
        PrefixOfShorter(StripTrailing(s[..|s| - 1], large), s[..|s| - 1], s);
      }
    }
  }

  lemma PrefixOfShorter(a: string, b: string, c: string)
    requires a <= b && b <= c
    ensures a <= c
  {
  }
}
