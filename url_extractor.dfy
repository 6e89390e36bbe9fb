/**
 * `UrlExtractor` from the TypeScript service: the URL resolver with the
 * short-code fallbacks for the short-video site and the note site.
 */
module UrlExtractor {
  import opened Wrappers
  import Text
  import opened UrlPattern
  import FindUrl

  /** The characters `/[.,;:!?)`]+$/` strips from the end: the Python set plus the backtick. */
  const StripSet: set<char> := {'.', ',', ';', ':', '!', '?', ')', '`'}

  const DouyinShortBase: string := "https://v.douyin.com/"
  const XhsShortBase: string := "https://xhslink.com/"

  /** End of the maximal run of ASCII letters and digits starting at `j`. */
  function AlnumEnd(s: string, j: nat): (r: nat)
    requires j <= |s|
    decreases |s| - j
    ensures j <= r <= |s|
    ensures forall k :: j <= k < r ==> Text.IsAsciiAlnum(s[k])
    ensures r < |s| ==> !Text.IsAsciiAlnum(s[r])
  {
    if j == |s| || !Text.IsAsciiAlnum(s[j]) then j else AlnumEnd(s, j + 1)
  }

  /** End of the maximal run of JavaScript whitespace starting at `j`. */
  function SpaceEnd(s: string, j: nat): (r: nat)
    requires j <= |s|
    decreases |s| - j
    ensures j <= r <= |s|
    ensures forall k :: j <= k < r ==> Text.IsJsSpace(s[k])
    ensures r < |s| ==> !Text.IsJsSpace(s[r])
  {
    if j == |s| || !Text.IsJsSpace(s[j]) then j else SpaceEnd(s, j + 1)
  }

  /**
   * `([a-zA-Z0-9]{3,}):\s*\/\s*` matches at `i`: at least three letters or
   * digits, a colon, optional whitespace and a slash.
   */
  predicate DouyinCodeAt(s: string, i: nat)
  {
    i <= |s| &&
    var e := AlnumEnd(s, i);
    e - i >= 3 && e < |s| && s[e] == ':' && SpaceEnd(s, e + 1) < |s| && s[SpaceEnd(s, e + 1)] == '/'
  }

  function FirstDouyinCodeFrom(s: string, from: nat): (r: Option<nat>)
    decreases |s| - from
    ensures r.Some? ==> from <= r.value && DouyinCodeAt(s, r.value)
    ensures r.Some? ==> forall k :: from <= k < r.value ==> !DouyinCodeAt(s, k)
    ensures r.None? ==> forall k :: from <= k ==> !DouyinCodeAt(s, k)
  {
    if |s| <= from then None
    else if DouyinCodeAt(s, from) then Some(from)
    else FirstDouyinCodeFrom(s, from + 1)
  }

  /** Capture group 1 of the leftmost short-video share code. */
  function DouyinCode(s: string): (r: Option<string>)
    ensures r.None? <==> forall k :: !DouyinCodeAt(s, k)
    ensures r.Some? ==> |r.value| >= 3 && forall k :: 0 <= k < |r.value| ==> Text.IsAsciiAlnum(r.value[k])
  {
    match FirstDouyinCodeFrom(s, 0)
    case None => None
    case Some(i) =>
      var code := s[i..AlnumEnd(s, i)];
      assert forall k :: 0 <= k < |code| ==> code[k] == s[i + k];
      Some(code)
  }

  /** `([a-zA-Z0-9]{11})` matches at `i`. */
  predicate XhsCodeAt(s: string, i: nat)
  {
    i + 11 <= |s| && forall k :: i <= k < i + 11 ==> Text.IsAsciiAlnum(s[k])
  }

  function FirstXhsCodeFrom(s: string, from: nat): (r: Option<nat>)
    decreases |s| - from
    ensures r.Some? ==> from <= r.value && XhsCodeAt(s, r.value)
    ensures r.Some? ==> forall k :: from <= k < r.value ==> !XhsCodeAt(s, k)
    ensures r.None? ==> forall k :: from <= k ==> !XhsCodeAt(s, k)
  {
    if |s| <= from then None
    else if XhsCodeAt(s, from) then Some(from)
    else FirstXhsCodeFrom(s, from + 1)
  }

  /** Capture group 1 of the leftmost eleven-character note-site share code. */
  function XhsCode(s: string): (r: Option<string>)
    ensures r.None? <==> forall k :: !XhsCodeAt(s, k)
    ensures r.Some? ==> |r.value| == 11 && forall k :: 0 <= k < 11 ==> Text.IsAsciiAlnum(r.value[k])
  {
    match FirstXhsCodeFrom(s, 0)
    case None => None
    case Some(i) =>
      var code := s[i..i + 11];
      assert forall k :: 0 <= k < 11 ==> code[k] == s[i + k];
      Some(code)
  }

  /**
   * The search path of `extractUrl`, after the comma replacement: the first
   * full URL (trailing punctuation and backticks stripped), else a short-video
   * link built from the first `code:/` share code, else a note-site link built
   * from the first run of eleven letters and digits, else null.
   */
  function ExtractFromText(text: string): (r: Option<string>)
    ensures r.Some? ==> HasScheme(r.value)
    ensures Search(JavaScript, CommasToSpaces(text)).Some? ==>
      r == Some(StripTrailing(Search(JavaScript, CommasToSpaces(text)).value, StripSet))
    ensures r.None? <==>
      && Search(JavaScript, CommasToSpaces(text)).None?
      && DouyinCode(CommasToSpaces(text)).None?
      && XhsCode(CommasToSpaces(text)).None?
  {
    var tmp := CommasToSpaces(text);
    match Search(JavaScript, tmp)
    case Some(m) =>
      StrippedSearchKeepsScheme(JavaScript, tmp, StripSet);
      Some(StripTrailing(m, StripSet))
    case None =>
      match DouyinCode(tmp)
      case Some(code) =>
        ShortLinkHasScheme(DouyinShortBase, code);
        Some(DouyinShortBase + code)
      case None =>
        match XhsCode(tmp)
        case Some(code) =>
          ShortLinkHasScheme(XhsShortBase, code);
          Some(XhsShortBase + code)
        case None => None
  }

  lemma ShortLinkHasScheme(base: string, code: string)
    requires base == DouyinShortBase || base == XhsShortBase
    ensures HasScheme(base + code)
  {
    assert (base + code)[..8] == base[..8] == "https://";
  }

  /** `extractUrl`: text starting with a scheme is returned as-is, anything else is searched. */
  function ExtractUrl(text: string): (r: Option<string>)
    ensures HasScheme(text) ==> r == Some(text)
    ensures r.Some? ==> HasScheme(r.value)
    ensures !HasScheme(text) ==> r == ExtractFromText(text)
  {
    if HasScheme(text) then Some(text) else ExtractFromText(text)
  }

  /** With no full URL, a short-video share code yields a `v.douyin.com` link. */
  lemma ExtractDouyinShortCode(text: string)
    requires Search(JavaScript, CommasToSpaces(text)).None?
    requires DouyinCode(CommasToSpaces(text)).Some?
    ensures var code := DouyinCode(CommasToSpaces(text)).value;
      ExtractFromText(text) == Some(DouyinShortBase + code) && |code| >= 3
  {
  }

  /** Only when both earlier steps fail does an eleven-character code yield an `xhslink.com` link. */
  lemma ExtractXhsShortCode(text: string)
    requires Search(JavaScript, CommasToSpaces(text)).None?
    requires DouyinCode(CommasToSpaces(text)).None?
    requires XhsCode(CommasToSpaces(text)).Some?
    ensures var code := XhsCode(CommasToSpaces(text)).value;
      ExtractFromText(text) == Some(XhsShortBase + code) && |code| == 11
  {
  }

  /** The empty string yields null. */
  lemma ExtractUrlEmpty()
    ensures ExtractUrl("") == None
  {
    assert !HasScheme("");
    assert CommasToSpaces("") == "";
    assert Search(JavaScript, "") == None;
    assert DouyinCode("") == None by { assert !DouyinCodeAt("", 0); }
    assert XhsCode("") == None;
  }

  /** Every extracted URL, full or built from a short code, is extracted again unchanged. */
  lemma ExtractUrlIdempotent(text: string)
    requires ExtractUrl(text).Some?
    ensures ExtractUrl(ExtractUrl(text).value) == ExtractUrl(text)
  {
  }

  /**
   * On text whose whitespace the two engines classify alike, the TypeScript
   * resolver finds a URL whenever the Python one does from inside text, and
   * its URL is a prefix of the Python one: the two differ only in the backticks
   * the TypeScript strip also removes.
   */
  lemma ExtractUrlRefinesFindUrl(text: string)
    requires SameSpaces(CommasToSpaces(text))
    requires FindUrl.FindUrl(text).Some?
    ensures ExtractUrl(text).Some?
    ensures ExtractUrl(text).value <= FindUrl.FindUrl(text).value
  {
    if !HasScheme(text) {
      var tmp := CommasToSpaces(text);
      SearchAgrees(tmp);
      StripMoreIsPrefix(Search(Python, tmp).value, FindUrl.StripSet, StripSet);
    }
  }

  /** `isValidUrl`: true exactly when the URL parses and its protocol is `http:` or `https:`. */
  function IsValidUrl(url: string, protocolOf: string -> Option<string>): (r: bool)
    ensures r <==> protocolOf(url) == Some("http:") || protocolOf(url) == Some("https:")
    ensures protocolOf(url).None? ==> !r
  {
    match protocolOf(url)
    case None => false
    case Some(p) => p == "http:" || p == "https:"
  }
}
