/**
 * `XiaohongshuService`, the TypeScript note-site extractor: redirect
 * resolution, the error-page test, the brace scanner that cuts the embedded
 * state out of its script, the note selection of `parseInitialState`, and
 * the watermark rewrite of image URLs.
 */
module XiaohongshuService {
  import opened Wrappers
  import opened JsonTree
  import opened JsOps
  import opened PageInput
  import opened ScriptScan
  import Text
  import UrlExtractor
  import MediaTs
  import ResponseTs

  const Marker: string := "window.__INITIAL_STATE__"
  const MarkerAssign: string := "window.__INITIAL_STATE__="
  const ExplorePath: string := "xiaohongshu.com/explore/"
  const NoWatermarkSuffix: string := "imageView2/2/w/1080/format/jpg"

  // ---------------------------------------------------------------------------
  // handleRedirect and the error-page test

  /**
   * The final URL `handleRedirect` settles on. It never throws: a rejected
   * fetch, or a resolved URL containing "404", falls back to the URL itself.
   */
  function RedirectTarget(url: string, fetch: string -> JsFetch): string
  {
    if Text.Contains(url, ExplorePath) then url
    else
      match fetch(url)
      case FetchRejected(_) => url
      case Responded(_, _, _, resolved, _) =>
        var f := if resolved == "" then url else resolved;
        if Text.Contains(f, "404") then url else f
  }

  /** The page looks like an error page: a 404 or not-found marker, or fewer than 500 UTF-16 units. */
  predicate LooksLikeErrorPage(html: string)
  {
    Text.Contains(html, "404") || Text.Contains(html, "页面不存在") || Text.Contains(html, "页面未找到")
    || Text.Contains(html, "内容不存在") || Text.Utf16Length(html) < 500
  }

  predicate HasNoteSiteElements(html: string)
  {
    Text.Contains(html, "__INITIAL_STATE__") || Text.Contains(html, "xiaohongshu") || Text.Contains(html, "小红书")
  }

  /** The page is refused only when it looks like an error page and shows none of the site's elements. */
  predicate RejectedPage(html: string)
  {
    LooksLikeErrorPage(html) && !HasNoteSiteElements(html)
  }

  // ---------------------------------------------------------------------------
  // The JSON-end scanner

  /** The scanner's variables `braceCount`, `inString` and `escapeNext`. */
  datatype ScanState = ScanState(depth: int, inString: bool, escapeNext: bool)

  /** One character: an escaped character is skipped, a backslash escapes, a quote toggles, braces count outside strings. */
  function ScanStep(st: ScanState, c: char): ScanState
  {
    if st.escapeNext then st.(escapeNext := false)
    else if c == '\\' then st.(escapeNext := true)
    else if c == '"' then st.(inString := !st.inString)
    else if st.inString then st
    else if c == '{' then st.(depth := st.depth + 1)
    else if c == '}' then st.(depth := st.depth - 1)
    else st
  }

  /** The scanner's variables after the first `k` characters. */
  function StateAfter(t: string, k: nat): ScanState
    requires k <= |t|
  {
    if k == 0 then ScanState(0, false, false) else ScanStep(StateAfter(t, k - 1), t[k - 1])
  }

  /** The character at `i` is a `}` outside any string that brings the depth from 1 back to 0. */
  predicate ClosesAt(t: string, i: nat)
    requires i < |t|
  {
    var st := StateAfter(t, i);
    !st.escapeNext && !st.inString && t[i] == '}' && st.depth == 1
  }

  /** The first closing position at or after `from`. */
  function FirstCloseFrom(t: string, from: nat): (r: Option<nat>)
    requires from <= |t|
    decreases |t| - from
    ensures r.Some? ==> from <= r.value < |t| && ClosesAt(t, r.value)
    ensures r.Some? ==> forall i :: from <= i < r.value ==> !ClosesAt(t, i)
    ensures r.None? ==> forall i :: from <= i < |t| ==> !ClosesAt(t, i)
  {
    if from == |t| then None
    else if ClosesAt(t, from) then Some(from)
    else FirstCloseFrom(t, from + 1)
  }

  /** Where the embedded object ends: the first position that closes it. */
  function JsonEnd(t: string): (r: Option<nat>)
    ensures r.Some? ==> r.value < |t| && ClosesAt(t, r.value) && forall i :: 0 <= i < r.value ==> !ClosesAt(t, i)
    ensures r.None? ==> forall i :: 0 <= i < |t| ==> !ClosesAt(t, i)
  {
    FirstCloseFrom(t, 0)
  }

  /** `dataText.substring(0, endIndex)` when an end was found, the whole text otherwise. */
  function CutAtJsonEnd(t: string): (r: string)
    ensures r <= t
    ensures JsonEnd(t).Some? ==> |r| == JsonEnd(t).value + 1 && r[|r| - 1] == '}'
    ensures JsonEnd(t).None? ==> r == t
  {
    match JsonEnd(t)
    case None => t
    case Some(i) => t[..i + 1]
  }

  /**
   * The scanning loop of `extractXiaohongshuData`: -1 when the object never
   * closes, else one past the closing brace.
   */
  method FindJsonEnd(t: string) returns (endIndex: int)
    ensures JsonEnd(t).None? ==> endIndex == -1
    ensures JsonEnd(t).Some? ==> endIndex == JsonEnd(t).value + 1
  {
    endIndex := -1;
    var braceCount := 0;
    var inString := false;
    var escapeNext := false;
    for i := 0 to |t|
      invariant ScanState(braceCount, inString, escapeNext) == StateAfter(t, i)
      invariant forall k :: 0 <= k < i ==> !ClosesAt(t, k)
      invariant endIndex == -1
    {
      var c := t[i];
      if escapeNext {
        escapeNext := false;
        continue;
      }
      if c == '\\' {
        escapeNext := true;
        continue;
      }
      if c == '"' && !escapeNext {
        inString := !inString;
        continue;
      }
      if !inString {
        if c == '{' {
          braceCount := braceCount + 1;
        } else if c == '}' {
          braceCount := braceCount - 1;
          if braceCount == 0 {
            assert ClosesAt(t, i);
            endIndex := i + 1;
            return;
          }
        }
      }
    }
  }

  /**
   * The text handed to `JSON.parse`: the part after the first
   * `window.__INITIAL_STATE__=` (up to the next one), cut at the object's
   * end, with every `undefined` turned into `null`. None stands for the split
   * yielding `undefined`, whose `.length` then throws.
   */
  function Payload(script: string): Option<string>
  {
    match Text.SplitSecond(script, MarkerAssign)
    case None => None
    case Some(d) => Some(Text.ReplaceAll(CutAtJsonEnd(d), "undefined", "null"))
  }

  // ---------------------------------------------------------------------------
  // parseInitialState

  /** The `noteData` branch (or `{}`) and the note being read. */
  datatype Notes = Notes(noteData: JsVal, current: JsVal)

  /**
   * Which note is read: `noteData.data.noteData` when a `noteData` branch
   * exists, otherwise `noteDetailMap[firstNoteId].note`, otherwise the note of
   * the map's first key. Only a `null` state throws.
   */
  function SelectNotes(init: Json): (r: Result<Notes, string>)
    ensures r.Failure? <==> init == JNull
    ensures r.Success? ==> Truthy(r.value.noteData) && Truthy(r.value.current)
  {
    var state := Val(init);
    if Nullish(state) then Failure("Cannot read properties of null (reading 'noteData')")
    else
      var branch := Member(state, "noteData");
      if Truthy(branch) then
        var data := Member(branch, "data");
        var current := if Truthy(data) && Truthy(Member(data, "noteData")) then Member(data, "noteData") else Val(EmptyObj);
        Success(Notes(branch, current))
      else
        var note := Or(Member(state, "note"), Val(EmptyObj));
        var detailMap := Or(Member(note, "noteDetailMap"), Val(EmptyObj));
        var firstId := Or(Member(note, "firstNoteId"), Val(JStr("")));
        var current :=
          if Truthy(firstId) && Truthy(Member(detailMap, ToJsString(firstId.j))) then
            Or(Member(Member(detailMap, ToJsString(firstId.j)), "note"), Val(EmptyObj))
          else
            var ids := ObjectKeys(detailMap);
            if |ids| > 0 then Or(OptProp(Member(detailMap, ids[0]), "note"), Val(EmptyObj)) else Val(EmptyObj);
        Success(Notes(Val(EmptyObj), current))
  }

  /** `normalNotePreloadData` takes precedence over the note for the title and the description. */
  function TitleAndDescription(notes: Notes, title: Json, description: Json): (Json, Json)
    requires Truthy(notes.noteData) && Truthy(notes.current)
  {
    var preload := Member(notes.noteData, "normalNotePreloadData");
    if Truthy(preload) then
      (OrVal(Or(Member(preload, "title"), Member(notes.current, "title")), title),
       OrVal(Or(Member(preload, "desc"), Member(notes.current, "desc")), description))
    else
      (OrVal(Member(notes.current, "title"), title), OrVal(Member(notes.current, "desc"), description))
  }

  /**
   * The image source: `normalNotePreloadData.imagesList`, replaced by the
   * note's `imageList` only when that is strictly longer, and by
   * `noteData.data.noteData.imageList` when the length is still 0.
   */
  function ImageSource(notes: Notes): (r: JsVal)
    requires Truthy(notes.noteData) && Truthy(notes.current)
    ensures !Nullish(r)
  {
    var preloaded := OptProp(Member(notes.noteData, "normalNotePreloadData"), "imagesList");
    var first := if Truthy(preloaded) then preloaded else Val(JArr([]));
    var own := Member(notes.current, "imageList");
    var second :=
      if Truthy(own) && Greater(Member(own, "length"), Val(JNum(0.0))) && Greater(Member(own, "length"), Member(first, "length"))
      then own else first;
    if Member(second, "length") == Val(JNum(0.0)) then
      var nested := OptProp(OptProp(Member(notes.noteData, "data"), "noteData"), "imageList");
      if Truthy(nested) then nested else second
    else second
  }

  /** `isUuidFormat`: some 36-character window is 8-4-4-4-12 hexadecimal digits, in either case. */
  predicate IsHexDigit(c: char)
  {
    '0' <= c <= '9' || 'a' <= c <= 'f' || 'A' <= c <= 'F'
  }

  /** The character expected at offset `p` of a UUID: a dash at 8, 13, 18 and 23, a hex digit elsewhere. */
  predicate UuidCharAt(c: char, p: int)
  {
    if p == 8 || p == 13 || p == 18 || p == 23 then c == '-' else IsHexDigit(c)
  }

  predicate UuidAt(s: string, i: nat)
  {
    i + 36 <= |s| && forall k :: i <= k < i + 36 ==> UuidCharAt(s[k], k - i)
  }

  predicate IsUuidFormat(s: string)
  {
    exists i :: 0 <= i <= |s| && UuidAt(s, i)
  }

  /** `tryConvertToNoWatermark`: a URL already carrying `imageView2` is kept, others gain the suffix after `?` or `&`. */
  function TryConvertToNoWatermark(url: string): (r: string)
    ensures Text.Contains(url, "imageView2") ==> r == url
    ensures !Text.Contains(url, "imageView2") ==>
      r == url + (if Text.Contains(url, "?") then "&" else "?") + NoWatermarkSuffix
  {
    if Text.Contains(url, "imageView2") then url
    else url + (if Text.Contains(url, "?") then "&" else "?") + NoWatermarkSuffix
  }

  /** `v && v.includes('notes_pre_post')`. */
  function HasPrePost(v: JsVal): Result<bool, string>
  {
    if Truthy(v) then Includes(v, Text.PrePost) else Success(false)
  }

  /**
   * `tryConvertToNoWatermark` on whatever value was chosen. Its parameter is
   * typed as a string but is not checked: on an array `includes` compares
   * whole elements and the template literal joins the elements; on any other
   * value `includes` throws, the catch returns null and the value is kept.
   */
  function ConvertValue(v: Json): (r: Json)
    ensures v.JStr? ==> r == JStr(TryConvertToNoWatermark(v.s))
    ensures v.JArr? && JStr("imageView2") in v.items ==> r == v
    ensures v.JArr? && JStr("imageView2") !in v.items ==>
      r == JStr(ToJsString(v) + (if JStr("?") in v.items then "&" else "?") + NoWatermarkSuffix)
    ensures !v.JStr? && !v.JArr? ==> r == v
    ensures r == v || (r.JStr? && Text.Contains(r.s, NoWatermarkSuffix))
  {
    match Includes(Val(v), "imageView2")
    case Failure(_) => v
    case Success(true) => v
    case Success(false) =>
      var prefix := ToJsString(v) + (if Includes(Val(v), "?") == Success(true) then "&" else "?");
      SuffixContained(prefix);
      JStr(prefix + NoWatermarkSuffix)
  }

  lemma SuffixContained(prefix: string)
    ensures Text.Contains(prefix + NoWatermarkSuffix, NoWatermarkSuffix)
  {
    assert (prefix + NoWatermarkSuffix)[|prefix|..|prefix| + |NoWatermarkSuffix|] == NoWatermarkSuffix;
    Text.ContainsAt(prefix + NoWatermarkSuffix, NoWatermarkSuffix, |prefix|);
  }

  /**
   * The URL taken when no candidate is a pre-post URL: the first truthy one;
   * when its string form holds a UUID it is converted (`uuidPattern.test`
   * converts its argument to a string first).
   */
  function FallbackUrl(large: JsVal, url: JsVal, default: JsVal): (r: JsVal)
    ensures Truthy(large) && !IsUuidFormat(ToJsString(large.j)) ==> r == large
    ensures Truthy(large) && IsUuidFormat(ToJsString(large.j)) ==> r == Val(ConvertValue(large.j))
    ensures !Truthy(large) && Truthy(url) && !IsUuidFormat(ToJsString(url.j)) ==> r == url
    ensures !Truthy(large) && Truthy(url) && IsUuidFormat(ToJsString(url.j)) ==> r == Val(ConvertValue(url.j))
    ensures !Truthy(large) && !Truthy(url) && Truthy(default) && !IsUuidFormat(ToJsString(default.j)) ==> r == default
    ensures !Truthy(large) && !Truthy(url) && Truthy(default) && IsUuidFormat(ToJsString(default.j)) ==> r == Val(ConvertValue(default.j))
    ensures !Truthy(large) && !Truthy(url) && !Truthy(default) ==> r == default
    ensures r == large || r == url || r == default || (r.Val? && r.j.JStr? && Text.Contains(r.j.s, NoWatermarkSuffix))
    ensures Truthy(r) <==> Truthy(large) || Truthy(url) || Truthy(default)
  {
    var chosen := Or(Or(large, url), default);
    if Truthy(chosen) && IsUuidFormat(ToJsString(chosen.j)) then Val(ConvertValue(chosen.j))
    else chosen
  }

  /** `x?.stream?.h264?.[0]?.masterUrl`. */
  function H264Master(x: JsVal): JsVal
  {
    OptProp(OptProp(OptProp(OptProp(x, "stream"), "h264"), "0"), "masterUrl")
  }

  /** One entry of `imageList.map(...)`: the image URL and the live URL. */
  datatype Entry = Entry(url: JsVal, live: JsVal)

  /** A candidate `includes` can be called on when the `&&` guard reaches it. */
  predicate Includable(v: JsVal)
  {
    !Truthy(v) || (v.j.JStr? || v.j.JArr?)
  }

  /**
   * One image of `imageList.map(...)`: a null image, or a truthy candidate
   * that is neither a string nor an array, throws. Otherwise the URL is one
   * of the three candidates or a converted string carrying the suffix, and
   * it is truthy exactly when some candidate is.
   */
  function ImageEntry(img: Json): (r: Result<Entry, string>)
    ensures img == JNull ==> r.Failure?
    ensures (img != JNull && Includable(Member(Val(img), "urlSizeLarge")) && Includable(Member(Val(img), "url"))
             && Includable(Member(Val(img), "urlDefault"))) ==> r.Success?
    ensures r.Success? ==>
      var image := Val(img);
      && (r.value.url == Member(image, "urlSizeLarge") || r.value.url == Member(image, "url")
          || r.value.url == Member(image, "urlDefault")
          || (r.value.url.Val? && r.value.url.j.JStr? && Text.Contains(r.value.url.j.s, NoWatermarkSuffix)))
      && (Truthy(r.value.url) <==>
            Truthy(Member(image, "urlSizeLarge")) || Truthy(Member(image, "url")) || Truthy(Member(image, "urlDefault")))
  {
    var image := Val(img);
    if Nullish(image) then Failure("Cannot read properties of null (reading 'urlSizeLarge')")
    else
      var large := Member(image, "urlSizeLarge");
      var url := Member(image, "url");
      var default := Member(image, "urlDefault");
      var inLarge :- HasPrePost(large);
      var inUrl :- if inLarge then Success(false) else HasPrePost(url);
      var inDefault :- if inLarge || inUrl then Success(false) else HasPrePost(default);
      var chosen :=
        if inLarge then large else if inUrl then url else if inDefault then default
        else FallbackUrl(large, url, default);
      var live := Or(Or(Or(H264Master(Member(image, "livePhoto")), H264Master(image)), Member(image, "livePhoto")),
                     Member(image, "videoUrl"));
      Success(Entry(chosen, live))
  }

  /** `imageList.map(f)` over the first `n` images, stopping at the first throw. */
  function MapEntries(images: seq<Json>, f: Json -> Result<Entry, string>, n: nat): Result<seq<Entry>, string>
    requires n <= |images|
  {
    if n == 0 then Success([])
    else
      match MapEntries(images, f, n - 1)
      case Failure(e) => Failure(e)
      case Success(prev) =>
        match f(images[n - 1])
        case Failure(e) => Failure(e)
        case Success(entry) => Success(prev + [entry])
  }

  function UrlsOf(entries: seq<Entry>): (r: seq<JsVal>)
    ensures |r| == |entries| && forall k :: 0 <= k < |entries| ==> r[k] == entries[k].url
  {
    if entries == [] then [] else UrlsOf(entries[..|entries| - 1]) + [entries[|entries| - 1].url]
  }

  function LivesOf(entries: seq<Entry>): (r: seq<JsVal>)
    ensures |r| == |entries| && forall k :: 0 <= k < |entries| ==> r[k] == entries[k].live
  {
    if entries == [] then [] else LivesOf(entries[..|entries| - 1]) + [entries[|entries| - 1].live]
  }

  /** The new `imageList` and `liveList`: `.map` on a non-array throws; falsy entries are dropped. */
  function MediaLists(source: JsVal): Result<(seq<Json>, seq<Json>), string>
  {
    if !(source.Val? && source.j.JArr?) then Failure("imageList.map is not a function")
    else
      var entries :- MapEntries(source.j.items, ImageEntry, |source.j.items|);
      Success((FilterTruthy(UrlsOf(entries)), FilterTruthy(LivesOf(entries))))
  }

  /** `video` is replaced only by a truthy `video.media.stream.h264[0].masterUrl`. */
  function VideoOf(current: JsVal, video: Json): Json
  {
    OrVal(H264Master(Or(OptProp(OptProp(current, "video"), "media"), Val(EmptyObj))), video)
  }

  /** The mutable fields of the service. */
  datatype State = State(finalUrl: string, title: Json, description: Json, imageList: seq<Json>,
                         liveList: seq<Json>, video: Json, html: string, dataDict: Json)

  /**
   * `parseInitialState`: the title and description are assigned before the
   * image lists are built, so a throw there keeps them.
   */
  function ParseInitialState(s: State, init: Json): Step<State>
  {
    match SelectNotes(init)
    case Failure(_) => Step(s, false)
    case Success(notes) => ApplyNotes(s, notes)
  }

  /** The assignments `parseInitialState` makes once the note is selected. */
  function ApplyNotes(s: State, notes: Notes): Step<State>
    requires Truthy(notes.noteData) && Truthy(notes.current)
  {
    var td := TitleAndDescription(notes, s.title, s.description);
    var s1 := s.(title := td.0, description := td.1);
    match MediaLists(ImageSource(notes))
    case Failure(_) => Step(s1, false)
    case Success(lists) => Step(s1.(imageList := lists.0, liveList := lists.1, video := VideoOf(notes.current, s.video)), true)
  }

  /** One pass of the script loop; `done` means the loop breaks after it. */
  function ScriptStep(s: State, script: string, parse: Parser): Step<State>
  {
    if !Text.Contains(script, Marker) then Step(s, false)
    else
      match Payload(script)
      case None => Step(s, false)
      case Some(p) =>
        match parse(p)
        case None => Step(s, false)
        case Some(d) => ParseInitialState(s.(dataDict := d), d)
  }

  /** The script loop over the first `n` scripts. */
  function ScanScripts(s: State, scripts: seq<string>, parse: Parser, n: nat): Step<State>
    requires n <= |scripts|
  {
    Scan(s, scripts, (st, script) => ScriptStep(st, script, parse), n)
  }

  /** `extractXiaohongshuData`: the script loop, then the meta description if the description is still falsy. */
  function Extract(s: State, page: Page, parse: Parser): State
  {
    var scanned := ScanScripts(s, page.scripts, parse, |page.scripts|).state;
    var meta := TsMetaDescription(page);
    if !Truthy(Val(scanned.description)) && meta != "" then scanned.(description := JStr(meta)) else scanned
  }

  const Initial: State := State("", JStr(""), JStr(""), [], [], JStr(""), "", EmptyObj)

  /** `analyze()`: the final state, or the message of the error it rethrows. */
  function AnalyzeResult(url: string, s: State, fetch: string -> JsFetch, parse: Parser): Result<State, string>
  {
    var final := RedirectTarget(url, fetch);
    match fetch(final)
    case FetchRejected(m) => Failure(m)
    case Responded(ok, status, statusText, _, page) =>
      if !ok then Failure("HTTP错误: " + Text.NatToString(status) + " - " + statusText)
      else if RejectedPage(page.html) then Failure("小红书链接已失效或页面不存在: " + final)
      else Success(Extract(s.(finalUrl := final, html := page.html, title := JStr(page.title)), page, parse))
  }

  function MediaOf(url: string, s: State): MediaTs.MediaData
  {
    MediaTs.MediaData(url, s.finalUrl, s.title, s.description, s.imageList, Some(s.liveList), s.video, "xiaohongshu")
  }

  /** `isPlatformUrl`: a case-insensitive match of one of the site's three domains. */
  predicate IsPlatformUrl(url: string)
  {
    var lower := Text.AsciiLower(url);
    Text.Contains(lower, "xiaohongshu.com") || Text.Contains(lower, "xhslink.com") || Text.Contains(lower, "xhs.link")
  }

  // ---------------------------------------------------------------------------
  // Properties of the specification

  /** The redirect target is the URL itself, or a resolved URL that does not contain "404". */
  lemma RedirectTargetCases(url: string, fetch: string -> JsFetch)
    ensures Text.Contains(url, ExplorePath) ==> RedirectTarget(url, fetch) == url
    ensures RedirectTarget(url, fetch) == url
      || (fetch(url).Responded? && RedirectTarget(url, fetch) == fetch(url).url && !Text.Contains(fetch(url).url, "404"))
    ensures fetch(url).FetchRejected? ==> RedirectTarget(url, fetch) == url
  {
  }

  /** A page carrying the state marker is never refused, however short or 404-like. */
  lemma MarkedPageAccepted(html: string)
    requires Text.Contains(html, Marker)
    ensures !RejectedPage(html)
  {
    var k := Text.IndexOf(html, Marker).value;
    assert html[k + 7..k + 24] == Marker[7..];
    Text.ContainsAt(html, "__INITIAL_STATE__", k + 7);
  }

  /** A short page without the site's elements is refused. */
  lemma ShortBarePageRejected(html: string)
    requires |html| < 250 && !HasNoteSiteElements(html)
    ensures RejectedPage(html)
  {
    Utf16AtMostTwice(html);
  }

  lemma {:induction false} Utf16AtMostTwice(s: string)
    ensures Text.Utf16Length(s) <= 2 * |s|
  {
    if |s| > 0 {
      Utf16AtMostTwice(s[1..]);
    }
  }

  /** Text without any brace, quote or backslash never closes: the whole payload is kept. */
  lemma {:induction false} NoBracesKeepsAll(t: string)
    requires forall k :: 0 <= k < |t| ==> t[k] != '{' && t[k] != '}' && t[k] != '"' && t[k] != '\\'
    ensures CutAtJsonEnd(t) == t
  {
    forall i | 0 <= i < |t|
      ensures !ClosesAt(t, i)
    {
      StateAfterPlain(t, i);
    }
  }

  lemma {:induction false} StateAfterPlain(t: string, k: nat)
    requires k <= |t|
    requires forall j :: 0 <= j < |t| ==> t[j] != '{' && t[j] != '}' && t[j] != '"' && t[j] != '\\'
    ensures StateAfter(t, k) == ScanState(0, false, false)
  {
    if k > 0 {
      StateAfterPlain(t, k - 1);
    }
  }

  /** The scanner only looks at the prefix: text after a closing position does not move it. */
  lemma {:induction false} StateAfterPrefix(a: string, b: string, k: nat)
    requires k <= |a|
    ensures StateAfter(a + b, k) == StateAfter(a, k)
  {
    if k > 0 {
      StateAfterPrefix(a, b, k - 1);
    }
  }

  /** An object followed by trailing script text is cut right after its closing brace. */
  lemma CutDropsTrailingText(a: string, b: string)
    requires JsonEnd(a) == Some(|a| - 1)
    ensures CutAtJsonEnd(a + b) == a
  {
    forall i | 0 <= i < |a|
      ensures ClosesAt(a + b, i) == ClosesAt(a, i)
    {
      StateAfterPrefix(a, b, i);
    }
    assert (a + b)[..|a|] == a;
  }

  /** `tryConvertToNoWatermark` is idempotent. */
  lemma TryConvertIdempotent(url: string)
    ensures TryConvertToNoWatermark(TryConvertToNoWatermark(url)) == TryConvertToNoWatermark(url)
  {
    if !Text.Contains(url, "imageView2") {
      var prefix := url + (if Text.Contains(url, "?") then "&" else "?");
      assert Text.OccursAt(NoWatermarkSuffix, "imageView2", 0);
      Text.OccursShifted(prefix, NoWatermarkSuffix, "imageView2", 0);
      Text.ContainsAt(prefix + NoWatermarkSuffix, "imageView2", |prefix|);
    }
  }

  /** A pre-post `urlSizeLarge` wins over every other candidate. */
  lemma PrePostLargeWins(img: Json, large: string)
    requires img.JObj? && Lookup(img.fields, "urlSizeLarge") == Some(JStr(large))
    requires Text.Contains(large, Text.PrePost)
    ensures ImageEntry(img).Success? && ImageEntry(img).value.url == Val(JStr(large))
  {
  }

  /** Among pre-post candidates `url` comes before `urlDefault`, which is then never looked at. */
  lemma PrePostUrlBeatsDefault(img: Json, u: string)
    requires img.JObj? && Lookup(img.fields, "urlSizeLarge").None? && Lookup(img.fields, "url") == Some(JStr(u))
    requires Text.Contains(u, Text.PrePost)
    ensures ImageEntry(img).Success? && ImageEntry(img).value.url == Val(JStr(u))
  {
  }

  /** A pre-post `urlDefault` is taken when neither earlier candidate is a pre-post URL. */
  lemma PrePostDefaultChosen(img: Json, u: string, d: string)
    requires img.JObj? && Lookup(img.fields, "urlSizeLarge").None? && Lookup(img.fields, "url") == Some(JStr(u))
    requires !Text.Contains(u, Text.PrePost)
    requires Lookup(img.fields, "urlDefault") == Some(JStr(d)) && Text.Contains(d, Text.PrePost)
    ensures ImageEntry(img).Success? && ImageEntry(img).value.url == Val(JStr(d))
  {
  }

  /**
   * With no pre-post candidate, the first truthy of `urlSizeLarge`, `url`,
   * `urlDefault` is taken, and a UUID URL gains the no-watermark suffix.
   */
  lemma UuidUrlRewritten(img: Json, u: string)
    requires img.JObj? && Lookup(img.fields, "urlSizeLarge").None? && Lookup(img.fields, "url") == Some(JStr(u))
    requires u != "" && !Text.Contains(u, Text.PrePost) && IsUuidFormat(u)
    requires Lookup(img.fields, "urlDefault").None?
    ensures ImageEntry(img).Success?
    ensures ImageEntry(img).value.url == Val(JStr(TryConvertToNoWatermark(u)))
  {
    var image := Val(img);
    assert Member(image, "urlSizeLarge") == Undefined;
    assert Member(image, "url") == Val(JStr(u));
    assert Member(image, "urlDefault") == Undefined;
    assert HasPrePost(Val(JStr(u))) == Success(false);
    assert FallbackUrl(Undefined, Val(JStr(u)), Undefined) == Val(JStr(TryConvertToNoWatermark(u)));
  }

  /**
   * A UUID URL inside an array is converted too: the array's string form
   * gains the suffix after `?`, and the image URL becomes that string.
   */
  lemma UuidArrayRewritten(img: Json, u: string)
    requires img.JObj? && Lookup(img.fields, "urlSizeLarge").None? && Lookup(img.fields, "url") == Some(JArr([JStr(u)]))
    requires Lookup(img.fields, "urlDefault").None? && IsUuidFormat(u)
    ensures ImageEntry(img).Success?
    ensures ImageEntry(img).value.url == Val(JStr(u + "?" + NoWatermarkSuffix))
  {
    var image := Val(img);
    var arr := JArr([JStr(u)]);
    assert Member(image, "urlSizeLarge") == Undefined;
    assert Member(image, "url") == Val(arr);
    assert Member(image, "urlDefault") == Undefined;
    var i :| 0 <= i <= |u| && UuidAt(u, i);
    assert |u| >= 36;
    assert JStr(Text.PrePost) !in arr.items && JStr("imageView2") !in arr.items && JStr("?") !in arr.items;
    assert HasPrePost(Val(arr)) == Success(false);
    assert JoinPrefix(arr, 1) == u;
    assert FallbackUrl(Undefined, Val(arr), Undefined) == Val(JStr(u + "?" + NoWatermarkSuffix));
  }

  /**
   * When both lists are empty or missing, the image source falls back to
   * `noteData.data.noteData.imageList` if that is truthy.
   */
  lemma EmptyListFallsBack(notes: Notes, nested: Json)
    requires Truthy(notes.noteData) && Truthy(notes.current)
    requires !Truthy(OptProp(Member(notes.noteData, "normalNotePreloadData"), "imagesList"))
             || OptProp(Member(notes.noteData, "normalNotePreloadData"), "imagesList") == Val(JArr([]))
    requires !Truthy(Member(notes.current, "imageList")) || Member(notes.current, "imageList") == Val(JArr([]))
    requires OptProp(OptProp(Member(notes.noteData, "data"), "noteData"), "imageList") == Val(nested) && Truthy(Val(nested))
    ensures ImageSource(notes) == Val(nested)
  {
  }

  /** The note's own image list replaces the preloaded one only when strictly longer. */
  lemma LongerOwnListWins(notes: Notes, pre: seq<Json>, own: seq<Json>)
    requires Truthy(notes.noteData) && Truthy(notes.current)
    requires OptProp(Member(notes.noteData, "normalNotePreloadData"), "imagesList") == Val(JArr(pre)) && |pre| > 0
    requires Member(notes.current, "imageList") == Val(JArr(own))
    ensures ImageSource(notes) == (if |own| > |pre| then Val(JArr(own)) else Val(JArr(pre)))
  {
  }

  /** A `noteData` branch with `data.noteData` selects that note. */
  lemma NoteDataBranchSelected(init: Json, branch: Json, data: Json, note: Json)
    requires init.JObj? && Lookup(init.fields, "noteData") == Some(branch) && Truthy(Val(branch))
    requires branch.JObj? && Lookup(branch.fields, "data") == Some(data)
    requires data.JObj? && Lookup(data.fields, "noteData") == Some(note) && Truthy(Val(note))
    ensures SelectNotes(init) == Success(Notes(Val(branch), Val(note)))
  {
  }

  /** Without that branch, `noteDetailMap[firstNoteId].note` is read. */
  lemma FirstNoteIdSelected(init: Json, note: Json, detailMap: Json, id: string, entry: Json, current: Json)
    requires init.JObj? && Lookup(init.fields, "noteData").None? && Lookup(init.fields, "note") == Some(note)
    requires note.JObj? && Lookup(note.fields, "noteDetailMap") == Some(detailMap) && Lookup(note.fields, "firstNoteId") == Some(JStr(id))
    requires id != "" && detailMap.JObj? && Lookup(detailMap.fields, id) == Some(entry)
    requires entry.JObj? && Lookup(entry.fields, "note") == Some(current) && Truthy(Val(current))
    ensures SelectNotes(init) == Success(Notes(Val(EmptyObj), Val(current)))
  {
  }

  /** Without a usable first note id, the note under the map's first key is read. */
  lemma FirstKeySelected(init: Json, note: Json, key: string, entry: Json, rest: seq<(string, Json)>, current: Json)
    requires init.JObj? && Lookup(init.fields, "noteData").None? && Lookup(init.fields, "note") == Some(note)
    requires note.JObj? && Lookup(note.fields, "noteDetailMap") == Some(JObj([(key, entry)] + rest))
    requires Lookup(note.fields, "firstNoteId").None?
    requires entry.JObj? && Lookup(entry.fields, "note") == Some(current) && Truthy(Val(current))
    ensures SelectNotes(init) == Success(Notes(Val(EmptyObj), Val(current)))
  {
    assert Keys([(key, entry)] + rest)[0] == key;
  }

  /** The script loop goes on past a marker script whose payload does not parse. */
  lemma ParseFailureSkipsScript(s: State, script: string, parse: Parser)
    requires Payload(script).Some? && parse(Payload(script).value).None?
    ensures ScriptStep(s, script, parse) == Step(s, false)
  {
  }

  /** The description comes from the meta tags only when the state left it falsy. */
  lemma MetaOnlyWhenEmpty(s: State, page: Page, parse: Parser)
    requires Truthy(Val(ScanScripts(s, page.scripts, parse, |page.scripts|).state.description))
    ensures Extract(s, page, parse) == ScanScripts(s, page.scripts, parse, |page.scripts|).state
  {
  }

  /** The video changes only when `masterUrl` is truthy. */
  lemma VideoOnlyFromMasterUrl(current: JsVal, video: Json)
    ensures VideoOf(current, video) == video || Truthy(Val(VideoOf(current, video)))
  {
  }

  /** Both lists hold only truthy entries, at most one per image. */
  lemma MediaListsShape(source: JsVal)
    requires MediaLists(source).Success?
    ensures source.Val? && source.j.JArr?
    ensures |MediaLists(source).value.0| <= |source.j.items| && |MediaLists(source).value.1| <= |source.j.items|
    ensures forall k :: 0 <= k < |MediaLists(source).value.0| ==> Truthy(Val(MediaLists(source).value.0[k]))
    ensures forall k :: 0 <= k < |MediaLists(source).value.1| ==> Truthy(Val(MediaLists(source).value.1[k]))
  {
    EntriesLength(source.j.items, ImageEntry, |source.j.items|);
  }

  lemma {:induction false} EntriesLength(images: seq<Json>, f: Json -> Result<Entry, string>, n: nat)
    requires n <= |images| && MapEntries(images, f, n).Success?
    ensures |MapEntries(images, f, n).value| == n
  {
    if n > 0 {
      EntriesLength(images, f, n - 1);
    }
  }

  lemma {:induction false} EntriesFailurePersists(images: seq<Json>, f: Json -> Result<Entry, string>, j: nat, n: nat)
    requires j <= n <= |images| && MapEntries(images, f, j).Failure?
    ensures MapEntries(images, f, n) == MapEntries(images, f, j)
    decreases n - j
  {
    if j < n {
      EntriesFailurePersists(images, f, j, n - 1);
    }
  }

  /** One throwing image makes the whole map throw. */
  lemma {:induction false} EntriesFailAt(images: seq<Json>, f: Json -> Result<Entry, string>, k: nat)
    requires k < |images| && f(images[k]).Failure?
    ensures MapEntries(images, f, |images|).Failure?
  {
    if MapEntries(images, f, k).Failure? {
      EntriesFailurePersists(images, f, k, k + 1);
    }
    EntriesFailurePersists(images, f, k + 1, |images|);
  }

  /** A null image makes `.map` throw, so neither list is replaced. */
  lemma NullImageThrows(images: seq<Json>, k: nat)
    requires k < |images| && images[k] == JNull
    ensures MediaLists(Val(JArr(images))).Failure?
  {
    EntriesFailAt(images, ImageEntry, k);
  }

  // ---------------------------------------------------------------------------
  // The service object

  class Service {
    const text: string
    const kind: string
    const url: string
    var description: Json
    var imageList: seq<Json>
    var liveList: seq<Json>
    var video: Json
    var title: Json
    var html: string
    var finalUrl: string
    var dataDict: Json

    function Snapshot(): State
      reads this
    {
      State(finalUrl, title, description, imageList, liveList, video, html, dataDict)
    }

    /** The field initializers, for a text from which a URL was extracted (see `Create`). */
    constructor (text: string, kind: string, url: string)
      ensures this.text == text && this.kind == kind && this.url == url
      ensures Snapshot() == Initial
    {
      this.text := text;
      this.kind := kind;
      this.url := url;
      description := JStr("");
      imageList := [];
      liveList := [];
      video := JStr("");
      title := JStr("");
      html := "";
      finalUrl := "";
      dataDict := EmptyObj;
    }

    /** `analyze()`: the record, or the message of the error it rethrows. */
    method Analyze(fetch: string -> JsFetch, parse: Parser) returns (r: Result<MediaTs.MediaData, string>)
      modifies this
      ensures r.Failure? <==> AnalyzeResult(url, old(Snapshot()), fetch, parse).Failure?
      ensures r.Failure? ==> r.error == AnalyzeResult(url, old(Snapshot()), fetch, parse).error
      ensures r.Success? ==> Snapshot() == AnalyzeResult(url, old(Snapshot()), fetch, parse).value
      ensures r.Success? ==> r.value == MediaOf(url, Snapshot())
    {
      HandleRedirect(fetch);
      match fetch(finalUrl) {
        case FetchRejected(m) =>
          return Failure(m);
        case Responded(ok, status, statusText, _, page) =>
          if !ok {
            return Failure("HTTP错误: " + Text.NatToString(status) + " - " + statusText);
          }
          html := page.html;
          if RejectedPage(html) {
            return Failure("小红书链接已失效或页面不存在: " + finalUrl);
          }
          title := JStr(page.title);
          ExtractXiaohongshuData(page, parse);
          return Success(MediaOf(url, Snapshot()));
      }
    }

    /** `handleRedirect`: sets `finalUrl` and nothing else; it never throws. */
    method HandleRedirect(fetch: string -> JsFetch)
      modifies this
      ensures Snapshot() == old(Snapshot()).(finalUrl := RedirectTarget(url, fetch))
    {
      if Text.Contains(url, ExplorePath) {
        finalUrl := url;
        return;
      }
      match fetch(url) {
        case FetchRejected(_) =>
          finalUrl := url;
        case Responded(_, _, _, resolved, _) =>
          finalUrl := if resolved == "" then url else resolved;
          if Text.Contains(finalUrl, "404") {
            finalUrl := url;
          }
      }
    }

    /** `extractXiaohongshuData`: the script loop, then the meta fallback. */
    method ExtractXiaohongshuData(page: Page, parse: Parser)
      modifies this
      ensures Snapshot() == Extract(old(Snapshot()), page, parse)
    {
      ScanPageScripts(page.scripts, parse);
      if !Truthy(Val(description)) {
        GetMetaDescription(page);
      }
    }

    /** The script loop: a throw moves on to the next script, a success breaks. */
    method ScanPageScripts(scripts: seq<string>, parse: Parser)
      modifies this
      ensures Snapshot() == ScanScripts(old(Snapshot()), scripts, parse, |scripts|).state
    {
      ghost var start := Snapshot();
      ghost var step := (st, script) => ScriptStep(st, script, parse);
      for i := 0 to |scripts|
        invariant Scan(start, scripts, step, i) == Step(Snapshot(), false)
      {
        ScanNext(start, scripts, step, i);
        var done := ProcessScript(scripts[i], parse);
        if done {
          ScanDonePersists(start, scripts, step, i + 1, |scripts|);
          return;
        }
      }
    }

    /**
     * The body of the script loop for one script: true when it breaks. A
     * missing split, a parse failure or a throw from `parseInitialState` is
     * caught and the loop continues.
     */
    method ProcessScript(script: string, parse: Parser) returns (done: bool)
      modifies this
      ensures Step(Snapshot(), done) == ScriptStep(old(Snapshot()), script, parse)
    {
      if script == "" || !Text.Contains(script, Marker) {
        return false;
      }
      var split := Text.SplitSecond(script, MarkerAssign);
      if split.None? {
        return false;
      }
      var dataText := split.value;
      var endIndex := FindJsonEnd(dataText);
      if endIndex != -1 {
        dataText := dataText[..endIndex];
      }
      var sanitized := Text.ReplaceAll(dataText, "undefined", "null");
      assert Payload(script) == Some(sanitized);
      var parsed := parse(sanitized);
      if parsed.None? {
        return false;
      }
      dataDict := parsed.value;
      done := ParseInitialStateInto(parsed.value);
    }

    /** `getMetaDescription`: a non-empty meta description replaces the description. */
    method GetMetaDescription(page: Page)
      modifies this
      ensures var meta := TsMetaDescription(page);
        Snapshot() == if meta != "" then old(Snapshot()).(description := JStr(meta)) else old(Snapshot())
    {
      var metaDesc := TsMetaDescription(page);
      if metaDesc != "" {
        description := JStr(metaDesc);
      }
    }

    /** `parseInitialState` on the fields; false when it throws, after assigning the title and description. */
    method ParseInitialStateInto(init: Json) returns (ok: bool)
      modifies this
      ensures Step(Snapshot(), ok) == ParseInitialState(old(Snapshot()), init)
    {
      var notes := SelectNotes(init);
      if notes.Failure? {
        return false;
      }
      ok := ApplyNotesInto(notes.value);
    }

    /** The second half of `parseInitialState`: title and description first, then the lists and the video. */
    method ApplyNotesInto(notes: Notes) returns (ok: bool)
      requires Truthy(notes.noteData) && Truthy(notes.current)
      modifies this
      ensures Step(Snapshot(), ok) == ApplyNotes(old(Snapshot()), notes)
    {
      ghost var s0 := Snapshot();
      var td := TitleAndDescription(notes, title, description);
      title := td.0;
      description := td.1;
      ghost var s1 := Snapshot();
      assert s1 == s0.(title := td.0, description := td.1);
      var lists := MediaLists(ImageSource(notes));
      if lists.Failure? {
        return false;
      }
      imageList := lists.value.0;
      liveList := lists.value.1;
      video := VideoOf(notes.current, video);
      assert Snapshot() == s1.(imageList := lists.value.0, liveList := lists.value.1, video := VideoOf(notes.current, s0.video));
      return true;
    }

    /** `toApiResponse`: the record in a code-200 envelope. */
    function ToApiResponse(): (r: ResponseTs.ApiResponse<Json>)
      reads this
      ensures r.code == ResponseTs.SuccessCode && r.message == ResponseTs.DefaultSuccessMessage
      ensures r.data == MediaTs.AsJson(MediaOf(url, Snapshot()))
    {
      MediaTs.SuccessResponse(MediaOf(url, Snapshot()))
    }
  }

  /** `new XiaohongshuService(text, type)`: throws when no URL can be extracted. */
  method Create(text: string, kind: string) returns (r: Result<Service, string>)
    ensures r.Failure? <==> UrlExtractor.ExtractUrl(text).None?
    ensures r.Failure? ==> r.error == "无法从文本 '" + text + "' 中提取 URL"
    ensures r.Success? ==> r.value.url == UrlExtractor.ExtractUrl(text).value && r.value.Snapshot() == Initial
    ensures r.Success? ==> fresh(r.value)
  {
    var url := UrlExtractor.ExtractUrl(text);
    if url.None? {
      return Failure("无法从文本 '" + text + "' 中提取 URL");
    }
    var s := new Service(text, kind, url.value);
    return Success(s);
  }
}
