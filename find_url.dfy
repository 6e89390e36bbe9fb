/**
 * `find_url` from the Python utilities: pull the first `http(s)://` run out of
 * free share text.
 */
module FindUrl {
  import opened Wrappers
  import Text
  import opened UrlPattern

  /** The characters `re.sub(r'[.,;:!?)]+$', '', url)` strips from the end. */
  const StripSet: set<char> := {'.', ',', ';', ':', '!', '?', ')'}

  /**
   * The search path: the leftmost `https?://[^\s]+` match in the
   * comma-normalised text with its trailing punctuation run removed.
   */
  function FindInText(s: string): (r: Option<string>)
    ensures r.None? <==> forall k :: !MatchesAt(Python, CommasToSpaces(s), k)
    ensures r.Some? ==> HasScheme(r.value)
  {
    var tmp := CommasToSpaces(s);
    match Search(Python, tmp)
    case None => None
    case Some(m) =>
      StrippedSearchKeepsScheme(Python, tmp, StripSet);
      Some(StripTrailing(m, StripSet))
  }

  /**
   * Text that already starts with a scheme is returned unchanged (trailing
   * punctuation included); otherwise the URL found in the text, or None.
   */
  function FindUrl(s: string): (r: Option<string>)
    ensures HasScheme(s) ==> r == Some(s)
    ensures !HasScheme(s) ==> (r.None? <==> forall k :: !MatchesAt(Python, CommasToSpaces(s), k))
    ensures r.Some? ==> HasScheme(r.value)
  {
    if HasScheme(s) then Some(s) else FindInText(s)
  }

  /**
   * A URL found inside text holds neither comma, no Python whitespace, and does
   * not end in `. , ; : ! ?` or `)`.
   */
  lemma FoundUrlIsClean(s: string)
    requires FindInText(s).Some?
    ensures var u := FindInText(s).value;
      && ',' !in u && '，' !in u
      && (forall k :: 0 <= k < |u| ==> !Text.IsPySpace(u[k]))
      && u[|u| - 1] !in StripSet
  {
    var tmp := CommasToSpaces(s);
    var m := Search(Python, tmp).value;
    var u := FindInText(s).value;
    assert u == StripTrailing(m, StripSet);
    SearchShape(Python, tmp);
    SearchWithinText(Python, tmp);
    PrefixChars(u, m);
  }

  /** A prefix holds the same characters at the same places. */
  lemma PrefixChars(u: string, m: string)
    requires u <= m
    ensures forall k :: 0 <= k < |u| ==> u[k] == m[k]
    ensures forall c :: c in u ==> c in m
  {
    assert m == u + m[|u|..];
  }

  /** A URL found in text is found again, unchanged, when given back. */
  lemma FindUrlIdempotent(s: string)
    requires FindUrl(s).Some?
    ensures FindUrl(FindUrl(s).value) == FindUrl(s)
  {
  }

  /** The extracted URL is the stripped leftmost match of the normalised text. */
  lemma FoundUrlIsLeftmostMatch(s: string)
    requires FindInText(s).Some?
    ensures exists i: nat ::
      && MatchesAt(Python, CommasToSpaces(s), i)
      && (forall k: nat :: k < i ==> !MatchesAt(Python, CommasToSpaces(s), k))
      && FindInText(s).value == StripTrailing(CommasToSpaces(s)[i..MatchEnd(Python, CommasToSpaces(s), i)], StripSet)
  {
    var tmp := CommasToSpaces(s);
    var i := FirstMatchFrom(Python, tmp, 0).value;
    assert FindInText(s).value == StripTrailing(tmp[i..MatchEnd(Python, tmp, i)], StripSet);
  }

  /** RunEnd stops exactly at the first space after a non-space stretch. */
  lemma {:induction false} RunEndAt(e: Engine, s: string, j: nat, k: nat)
    requires j <= k < |s| && IsSpace(e, s[k])
    requires forall m :: j <= m < k ==> !IsSpace(e, s[m])
    ensures RunEnd(e, s, j) == k
    decreases k - j
  {
    if j < k {
      RunEndAt(e, s, j + 1, k);
    }
  }

  const ExampleShortUrl: string := "http://xhslink.com/a/Ab12"
  const ExampleUrl: string := ExampleShortUrl + "!"
  const ExampleText: string := "小红书 " + ExampleUrl + " 分享"

  lemma ExampleMatchStart()
    ensures FirstMatchFrom(Python, ExampleText, 0) == Some(4)
  {
    var s := ExampleText;
    ExampleSchemeAt4();
    assert !IsSpace(Python, s[11]) by { assert s[11] == 'x'; }
    assert MatchesAt(Python, s, 4);
    assert FirstMatchFrom(Python, s, 4) == Some(4);
    assert s[3] == ' ' && s[2] == '书' && s[1] == '红' && s[0] == '小';
    NoMatchWithoutH(Python, s, 3);
    assert FirstMatchFrom(Python, s, 3) == Some(4);
    NoMatchWithoutH(Python, s, 2);
    assert FirstMatchFrom(Python, s, 2) == Some(4);
    NoMatchWithoutH(Python, s, 1);
    assert FirstMatchFrom(Python, s, 1) == Some(4);
    NoMatchWithoutH(Python, s, 0);
  }

  lemma ExampleSchemeAt4()
    ensures ExampleText[4..11] == "http://"
  {
    var prefix := "小红书 ";
    assert |prefix| == 4;
    assert ExampleText == prefix + (ExampleUrl + " 分享");
    assert ExampleText[4..11] == (ExampleUrl + " 分享")[..7];
    assert (ExampleUrl + " 分享")[..7] == ExampleShortUrl[..7];
    assert ExampleShortUrl[..7] == "http://";
  }

  lemma ExampleMatchEnd()
    ensures RunEnd(Python, ExampleText, 11) == 30
  {
    var s := ExampleText;
    assert forall k :: 11 <= k < 30 ==> s[k] == ExampleUrl[k - 4];
    assert forall k :: 7 <= k < 26 ==> !Text.IsPySpace(ExampleUrl[k]);
    assert s[30] == ' ';
    RunEndAt(Python, s, 11, 30);
  }

  lemma ExampleHasNoCommas()
    ensures CommasToSpaces(ExampleText) == ExampleText
  {
    var s := ExampleText;
    assert forall k :: 0 <= k < |s| ==> s[k] != ',' && s[k] != '，';
    CommasToSpacesIdentity(s);
  }

  lemma ExampleStripped()
    ensures StripTrailing(ExampleUrl, StripSet) == ExampleUrl[..25]
  {
    assert ExampleUrl[25] == '!' && ExampleUrl[24] == '2';
    assert StripTrailing(ExampleUrl[..25], StripSet) == ExampleUrl[..25];
  }

  /**
   * Share text around a short link, `小红书 http://xhslink.com/a/Ab12! 分享`: the
   * trailing `!` is stripped and the words around are dropped.
   */
  lemma FindUrlExample()
    ensures FindUrl(ExampleText) == Some(ExampleShortUrl)
  {
    var s := ExampleText;
    assert !HasScheme(s) by {
      assert s[0] == '小';
      assert !("http://" <= s) && !("https://" <= s);
    }
    ExampleHasNoCommas();
    ExampleMatchStart();
    ExampleMatchEnd();
    assert MatchEnd(Python, s, 4) == 30;
    assert Search(Python, s) == Some(s[4..30]);
    assert s[4..30] == ExampleUrl;
    ExampleStripped();
    assert ExampleUrl[..25] == ExampleShortUrl;
    assert FindInText(s) == Some(ExampleShortUrl);
  }
}
