/**
 * `DouyinService`, the TypeScript short-video extractor: the router-data
 * script loop (a failure moves on, the first usable script breaks), the
 * `||`-defaulted walk of `parseDataDict`, the image loop that skips empty
 * `url_list`s, and the video rewrite that replaces only the first `playwm`.
 */
module DouyinService {
  import opened Wrappers
  import opened JsonTree
  import opened JsOps
  import opened PageInput
  import opened ScriptScan
  import Text
  import UrlExtractor
  import MediaTs
  import ResponseTs
  import DouyinPage

  const Marker: string := "window._ROUTER_DATA"
  const MarkerAssign: string := "window._ROUTER_DATA = "
  const EmptyArr: Json := JArr([])

  /** The fields `analyze` fills in, in the order of the class declaration. */
  datatype State = State(title: string, description: Json, imageList: seq<JsVal>, video: string, html: string)

  const Initial: State := State("", JStr(""), [], "", "")

  // ---------------------------------------------------------------------------
  // The script loop of extractDouyinData

  /**
   * The text after the marker assignment, in a non-empty script containing
   * the marker. None also when the split has no second piece:
   * `JSON.parse(undefined)` throws and the loop moves on.
   */
  function Payload(script: string): Option<string>
  {
    if script != "" && Text.Contains(script, Marker) then Text.SplitSecond(script, MarkerAssign) else None
  }

  /**
   * The value handed to `parseDataDict` for one script, None when the try
   * block throws before that call: a payload that does not parse, or a
   * parsed `null` whose `loaderData` cannot be read.
   */
  function DataDictOf(script: string, parse: Parser): (r: Option<JsVal>)
    ensures r.Some? ==> !Nullish(r.value)
  {
    match Payload(script)
    case None => None
    case Some(p) =>
      match parse(p)
      case None => None
      case Some(router) =>
        if router == JNull then None
        else
          var loaderData := OrElse(Member(Val(router), "loaderData"), EmptyObj);
          Some(OrElse(Member(loaderData, DouyinPage.PageKey(p)), EmptyObj))
  }

  // ---------------------------------------------------------------------------
  // parseDataDict and its helpers

  /** `(dataDict.videoInfoRes || {}).item_list || []` and its first entry, `|| {}`. */
  function ItemData(dataDict: JsVal): (r: JsVal)
    requires !Nullish(dataDict)
    ensures !Nullish(r)
  {
    var info := OrElse(Member(dataDict, "videoInfoRes"), EmptyObj);
    var items := OrElse(Member(info, "item_list"), EmptyArr);
    OrElse(Member(items, "0"), EmptyObj)
  }

  /** What one image contributes: `url_list[0]` when `(image.url_list || []).length > 0`. */
  function ImageUrl(image: Json): Option<JsVal>
    requires image != JNull
  {
    var urls := OrElse(Member(Val(image), "url_list"), EmptyArr);
    if Greater(Member(urls, "length"), Val(JNum(0.0))) then Some(Member(urls, "0")) else None
  }

  /** The pushes of the image loop so far, and whether a `null` image threw (ending the loop). */
  datatype Pushes = Pushes(pushed: seq<JsVal>, stopped: bool)

  /** The `for (const image of images)` loop over the first `n` images of an array. */
  function Collect(items: seq<Json>, n: nat): Pushes
    requires n <= |items|
  {
    if n == 0 then Pushes([], false)
    else
      var p := Collect(items, n - 1);
      if p.stopped then p
      else if items[n - 1] == JNull then Pushes(p.pushed, true)
      else
        match ImageUrl(items[n - 1])
        case None => p
        case Some(u) => Pushes(p.pushed + [u], false)
  }

  /**
   * `parseImageData`: what it pushes. Only an array yields anything: a
   * string iterates over one-character strings, which have no `url_list`,
   * and any other value is not iterable and throws before the first push.
   * A throw is caught inside, keeping what was pushed.
   */
  function PushedImages(images: JsVal): seq<JsVal>
  {
    match images
    case Val(JArr(items)) => Collect(items, |items|).pushed
    case _ => []
  }

  /** `parseVideoData`: the new `video` field, starting from `current`. A throw inside leaves it unchanged. */
  function VideoAfter(video: JsVal, current: string): string
    requires !Nullish(video)
  {
    var playAddr := OrElse(Member(video, "play_addr"), EmptyObj);
    var urls := OrElse(Member(playAddr, "url_list"), EmptyArr);
    if !Greater(Member(urls, "length"), Val(JNum(0.0))) then current
    else
      var first := Member(urls, "0");
      match Includes(first, "mp3")
      case Failure(_) => current
      case Success(true) => ""
      case Success(false) =>
        // An array has `includes` but no `replace`: the TypeError is caught.
        if first.Val? && first.j.JStr? then Text.ReplaceFirst(first.j.s, "playwm", "play") else current
  }

  /** `parseDataDict`: the description, then the images and the video when present. It never throws. */
  function ParseDataDict(s: State, dataDict: JsVal): State
    requires !Nullish(dataDict)
  {
    var item := ItemData(dataDict);
    var s1 := s.(description := OrVal(Member(item, "desc"), JStr("")));
    var images := OrElse(Member(item, "images"), EmptyArr);
    var s2 := if Greater(Member(images, "length"), Val(JNum(0.0)))
              then s1.(imageList := s1.imageList + PushedImages(images)) else s1;
    var video := OrElse(Member(item, "video"), EmptyObj);
    if |ObjectKeys(video)| > 0 then s2.(video := VideoAfter(video, s2.video)) else s2
  }

  /** One pass of the script loop: continue, or parse the data dictionary and break. */
  function ScriptStep(s: State, script: string, parse: Parser): Step<State>
  {
    match DataDictOf(script, parse)
    case None => Step(s, false)
    case Some(d) => Step(ParseDataDict(s, d), true)
  }

  /** The script loop over the first `n` scripts. */
  function ScanScripts(s: State, scripts: seq<string>, parse: Parser, n: nat): Step<State>
    requires n <= |scripts|
  {
    Scan(s, scripts, (st, script) => ScriptStep(st, script, parse), n)
  }

  /** `extractDouyinData`. */
  function Extract(s: State, page: Page, parse: Parser): State
  {
    ScanScripts(s, page.scripts, parse, |page.scripts|).state
  }

  /** `analyze()`: the fetch, the status test, the title, then the extraction. */
  function AnalyzeResult(url: string, s: State, fetch: string -> JsFetch, parse: Parser): Result<State, string>
  {
    match fetch(url)
    case FetchRejected(m) => Failure(m)
    case Responded(ok, status, _, _, page) =>
      if !ok then Failure("HTTP错误: " + Text.NatToString(status))
      else Success(Extract(s.(html := page.html, title := page.title), page, parse))
  }

  /** The image list as the response serializes it: an `undefined` entry becomes `null`. */
  function Serialized(xs: seq<JsVal>): (r: seq<Json>)
    ensures |r| == |xs|
    ensures forall k :: 0 <= k < |xs| ==> r[k] == (if xs[k].Undefined? then JNull else xs[k].j)
  {
    if xs == [] then [] else Serialized(xs[..|xs| - 1]) + [if xs[|xs| - 1].Undefined? then JNull else xs[|xs| - 1].j]
  }

  /** `toMediaData`. */
  function MediaOf(url: string, s: State): MediaTs.MediaData
  {
    MediaTs.MediaData(url, "", JStr(s.title), s.description, Serialized(s.imageList), None, JStr(s.video), "douyin")
  }

  /** `isPlatformUrl`: one of three case-insensitive patterns. */
  predicate IsPlatformUrl(url: string)
  {
    var lower := Text.AsciiLower(url);
    Text.Contains(lower, "douyin.com") || Text.Contains(lower, "v.douyin.com") || Text.Contains(lower, "iesdouyin.com")
  }

  // ---------------------------------------------------------------------------
  // Properties of the specification

  /** Scripts without the marker, and marker scripts whose payload does not parse or is null, are skipped. */
  lemma UnusableScriptSkipped(s: State, script: string, parse: Parser)
    ensures !Text.Contains(script, Marker) ==> ScriptStep(s, script, parse) == Step(s, false)
    ensures Payload(script).Some? && parse(Payload(script).value).None? ==> ScriptStep(s, script, parse) == Step(s, false)
    ensures Payload(script).Some? && parse(Payload(script).value) == Some(JNull) ==> ScriptStep(s, script, parse) == Step(s, false)
  {
  }

  /** A marker script whose payload parses to a non-null value always ends the loop. */
  lemma ParsedScriptBreaks(s: State, script: string, parse: Parser)
    requires Payload(script).Some? && parse(Payload(script).value).Some? && parse(Payload(script).value) != Some(JNull)
    ensures ScriptStep(s, script, parse).done
  {
  }

  /** Before the first usable script the loop has changed nothing. */
  lemma {:induction false} SkippedPrefix(s: State, scripts: seq<string>, parse: Parser, n: nat)
    requires n <= |scripts|
    requires forall k :: 0 <= k < n ==> DataDictOf(scripts[k], parse).None?
    ensures ScanScripts(s, scripts, parse, n) == Step(s, false)
  {
    if n > 0 {
      SkippedPrefix(s, scripts, parse, n - 1);
      ScanNext(s, scripts, (st, script) => ScriptStep(st, script, parse), n - 1);
    }
  }

  /** Only the first usable script is used; every later script is ignored. */
  lemma OnlyFirstUsableScript(s: State, scripts: seq<string>, parse: Parser, j: nat)
    requires j < |scripts| && DataDictOf(scripts[j], parse).Some?
    requires forall k :: 0 <= k < j ==> DataDictOf(scripts[k], parse).None?
    ensures ScanScripts(s, scripts, parse, |scripts|) == Step(ParseDataDict(s, DataDictOf(scripts[j], parse).value), true)
  {
    var step := (st, script) => ScriptStep(st, script, parse);
    SkippedPrefix(s, scripts, parse, j);
    ScanNext(s, scripts, step, j);
    ScanDonePersists(s, scripts, step, j + 1, |scripts|);
  }

  /** With no usable script, nothing is extracted and nothing is thrown. */
  lemma NoUsableScriptKeepsState(s: State, page: Page, parse: Parser)
    requires forall k :: 0 <= k < |page.scripts| ==> DataDictOf(page.scripts[k], parse).None?
    ensures Extract(s, page, parse) == s
  {
    SkippedPrefix(s, page.scripts, parse, |page.scripts|);
  }

  /** A data dictionary without `videoInfoRes` leaves the defaults: an empty description, no images, the old video. */
  lemma MissingInfoGivesDefaults(s: State, dataDict: JsVal)
    requires !Nullish(dataDict) && Member(dataDict, "videoInfoRes") == Undefined
    ensures ParseDataDict(s, dataDict) == s.(description := JStr(""))
  {
    assert ItemData(dataDict) == Val(EmptyObj);
  }

  /** The description is `item_list[0].desc` when that is truthy, and "" otherwise. */
  lemma DescriptionFromFirstItem(s: State, dataDict: JsVal, item: Json, desc: Json)
    requires !Nullish(dataDict)
    requires Member(dataDict, "videoInfoRes") == Val(JObj([("item_list", JArr([item]))]))
    requires item.JObj? && Lookup(item.fields, "desc") == Some(desc)
    ensures Truthy(Val(desc)) ==> ParseDataDict(s, dataDict).description == desc
    ensures !Truthy(Val(desc)) ==> ParseDataDict(s, dataDict).description == JStr("")
  {
    assert Member(Val(JArr([item])), "0") == Val(item) by {
      assert ArrayIndex("0") == Some(0);
    }
    assert ItemData(dataDict) == Val(item);
  }

  /** An image whose `url_list` is an empty array is skipped; a non-empty one contributes its first entry. */
  lemma ImageUrlOfList(image: Json, urls: seq<Json>)
    requires image.JObj? && Lookup(image.fields, "url_list") == Some(JArr(urls))
    ensures |urls| == 0 ==> ImageUrl(image).None?
    ensures |urls| > 0 ==> ImageUrl(image) == Some(Val(urls[0]))
  {
    if |urls| > 0 {
      assert ArrayIndex("0") == Some(0);
    }
  }

  /** The images' contributions in source order, as an independent right-to-left definition. */
  function FirstUrls(items: seq<Json>): seq<JsVal>
    requires forall k :: 0 <= k < |items| ==> items[k] != JNull
  {
    if items == [] then []
    else (match ImageUrl(items[0]) case None => [] case Some(u) => [u]) + FirstUrls(items[1..])
  }

  lemma {:induction false} FirstUrlsAppend(items: seq<Json>, last: Json)
    requires forall k :: 0 <= k < |items| ==> items[k] != JNull
    requires last != JNull
    ensures FirstUrls(items + [last]) == FirstUrls(items) + (match ImageUrl(last) case None => [] case Some(u) => [u])
  {
    if items != [] {
      assert (items + [last])[1..] == items[1..] + [last];
      FirstUrlsAppend(items[1..], last);
    } else {
      assert [last][1..] == [];
    }
  }

  /** Without `null` images the loop runs to the end and pushes exactly the images' contributions, in order. */
  lemma {:induction false} CollectIsFirstUrls(items: seq<Json>, n: nat)
    requires n <= |items|
    requires forall k :: 0 <= k < n ==> items[k] != JNull
    ensures !Collect(items, n).stopped
    ensures Collect(items, n).pushed == FirstUrls(items[..n])
  {
    if n > 0 {
      CollectIsFirstUrls(items, n - 1);
      assert items[..n] == items[..n - 1] + [items[n - 1]];
      FirstUrlsAppend(items[..n - 1], items[n - 1]);
    }
  }

  /** Once a `null` image has thrown, later images change nothing. */
  lemma {:induction false} CollectStopPersists(items: seq<Json>, j: nat, n: nat)
    requires j <= n <= |items| && Collect(items, j).stopped
    ensures Collect(items, n) == Collect(items, j)
    decreases n - j
  {
    if j < n {
      CollectStopPersists(items, j, n - 1);
    }
  }

  /** A `null` image ends the loop, but the URLs pushed before it are kept. */
  lemma NullImageKeepsEarlier(items: seq<Json>, j: nat)
    requires j < |items| && items[j] == JNull
    requires forall k :: 0 <= k < j ==> items[k] != JNull
    ensures PushedImages(Val(JArr(items))) == FirstUrls(items[..j])
  {
    CollectIsFirstUrls(items, j);
    CollectStopPersists(items, j + 1, |items|);
  }

  /** A video URL containing `mp3` is cleared; otherwise only its first `playwm` becomes `play`. */
  lemma VideoRewrite(video: JsVal, current: string, u: string)
    requires video.Val? && video.j.JObj?
    requires Lookup(video.j.fields, "play_addr") == Some(JObj([("url_list", JArr([JStr(u)]))]))
    ensures Text.Contains(u, "mp3") ==> VideoAfter(video, current) == ""
    ensures !Text.Contains(u, "mp3") ==> VideoAfter(video, current) == Text.ReplaceFirst(u, "playwm", "play")
  {
    assert ArrayIndex("0") == Some(0);
  }

  /**
   * Unlike a replace-all, the rewrite leaves a second `playwm` in place:
   * the two agree exactly when `playwm` does not occur again after the first.
   */
  lemma FirstPlaywmOnly(u: string)
    ensures Text.ReplaceFirst(u, "playwm", "play") == Text.ReplaceAll(u, "playwm", "play")
        <==> (Text.IndexOf(u, "playwm").None? || !Text.Contains(u[Text.IndexOf(u, "playwm").value + 6..], "playwm"))
  {
    Text.ReplaceFirstIsAllIff(u, "playwm", "play");
  }

  /** An empty or missing `play_addr.url_list` leaves the video unchanged. */
  lemma NoUrlListKeepsVideo(video: JsVal, current: string)
    requires video.Val? && video.j.JObj? && Lookup(video.j.fields, "play_addr").None?
    ensures VideoAfter(video, current) == current
  {
  }

  /** The video is looked at only when the item's `video` has keys. */
  lemma VideoOnlyWithKeys(s: State, dataDict: JsVal)
    requires !Nullish(dataDict)
    requires |ObjectKeys(OrElse(Member(ItemData(dataDict), "video"), EmptyObj))| == 0
    ensures ParseDataDict(s, dataDict).video == s.video
  {
  }

  /** A response that is not OK fails with the status code and nothing else. */
  lemma HttpErrorMessage(url: string, s: State, fetch: string -> JsFetch, parse: Parser)
    requires fetch(url).Responded? && !fetch(url).ok
    ensures AnalyzeResult(url, s, fetch, parse) == Failure("HTTP错误: " + Text.NatToString(fetch(url).status))
  {
  }

  /** The record: empty `final_url`, `app_type` "douyin", no `live_list`, and one image entry per push. */
  lemma MediaShape(url: string, s: State)
    ensures MediaOf(url, s).finalUrl == "" && MediaOf(url, s).appType == "douyin"
    ensures MediaOf(url, s).liveList.None?
    ensures |MediaOf(url, s).imageList| == |s.imageList|
    ensures Keys(MediaTs.AsJson(MediaOf(url, s)).fields) == ["url", "final_url", "title", "description", "image_list", "video", "app_type"]
  {
  }

  /** The three patterns come down to one: the other two domains contain `douyin.com`. */
  lemma PlatformUrlIff(url: string)
    ensures IsPlatformUrl(url) <==> Text.Contains(Text.AsciiLower(url), "douyin.com")
  {
    var lower := Text.AsciiLower(url);
    if Text.Contains(lower, "v.douyin.com") {
      var k := Text.IndexOf(lower, "v.douyin.com").value;
      assert lower[k + 2..k + 12] == lower[k..k + 12][2..];
      Text.ContainsAt(lower, "douyin.com", k + 2);
    }
    if Text.Contains(lower, "iesdouyin.com") {
      var k := Text.IndexOf(lower, "iesdouyin.com").value;
      assert lower[k + 3..k + 13] == lower[k..k + 13][3..];
      Text.ContainsAt(lower, "douyin.com", k + 3);
    }
  }

  // ---------------------------------------------------------------------------
  // The service object

  class Service {
    const text: string
    const kind: string
    const url: string
    var description: Json
    var imageList: seq<JsVal>
    var video: string
    var title: string
    var html: string

    function Snapshot(): State
      reads this
    {
      State(title, description, imageList, video, html)
    }

    /** The field initializers, for a text from which a URL was extracted (see `Create`). */
    constructor (text: string, kind: string, url: string)
      ensures this.text == text && this.kind == kind && this.url == url
      ensures Snapshot() == Initial
    {
      this.text := text;
      this.kind := kind;
      this.url := url;
      description := JStr("");
      imageList := [];
      video := "";
      title := "";
      html := "";
    }

    /** `analyze()`: the record, or the message of the error it rethrows. */
    method Analyze(fetch: string -> JsFetch, parse: Parser) returns (r: Result<MediaTs.MediaData, string>)
      modifies this
      ensures r.Failure? <==> AnalyzeResult(url, old(Snapshot()), fetch, parse).Failure?
      ensures r.Failure? ==> r.error == AnalyzeResult(url, old(Snapshot()), fetch, parse).error
      ensures r.Success? ==> Snapshot() == AnalyzeResult(url, old(Snapshot()), fetch, parse).value
      ensures r.Success? ==> r.value == MediaOf(url, Snapshot())
    {
      match fetch(url) {
        case FetchRejected(m) =>
          return Failure(m);
        case Responded(ok, status, _, _, page) =>
          if !ok {
            return Failure("HTTP错误: " + Text.NatToString(status));
          }
          html := page.html;
          title := page.title;
          ExtractDouyinData(page, parse);
          return Success(MediaOf(url, Snapshot()));
      }
    }

    /** `extractDouyinData`: a failure moves on to the next script, the first usable one breaks. */
    method ExtractDouyinData(page: Page, parse: Parser)
      modifies this
      ensures Snapshot() == Extract(old(Snapshot()), page, parse)
    {
      ghost var start := Snapshot();
      ghost var step := (st, script) => ScriptStep(st, script, parse);
      var scripts := page.scripts;
      for i := 0 to |scripts|
        invariant Scan(start, scripts, step, i) == Step(Snapshot(), false)
      {
        ScanNext(start, scripts, step, i);
        var done := ProcessScript(scripts[i], parse);
        if done {
          ScanDonePersists(start, scripts, step, i + 1, |scripts|);
          return;
        }
      }
    }

    /** The body of the script loop for one script: true when it breaks. */
    method ProcessScript(script: string, parse: Parser) returns (done: bool)
      modifies this
      ensures Step(Snapshot(), done) == ScriptStep(old(Snapshot()), script, parse)
    {
      if script == "" || !Text.Contains(script, Marker) {
        return false;
      }
      var dataText := Text.SplitSecond(script, MarkerAssign);
      if dataText.None? {
        return false;
      }
      var routerData := parse(dataText.value);
      if routerData.None? || routerData.value == JNull {
        return false;
      }
      var loaderData := OrElse(Member(Val(routerData.value), "loaderData"), EmptyObj);
      var dataDict := OrElse(Member(loaderData, DouyinPage.PageKey(dataText.value)), EmptyObj);
      ParseDataDictInto(dataDict);
      return true;
    }

    /** `parseDataDict`. */
    method ParseDataDictInto(dataDict: JsVal)
      requires !Nullish(dataDict)
      modifies this
      ensures Snapshot() == ParseDataDict(old(Snapshot()), dataDict)
    {
      var item := ItemData(dataDict);
      description := OrVal(Member(item, "desc"), JStr(""));
      var images := OrElse(Member(item, "images"), EmptyArr);
      if Greater(Member(images, "length"), Val(JNum(0.0))) {
        ParseImageData(images);
      }
      var videoData := OrElse(Member(item, "video"), EmptyObj);
      if |ObjectKeys(videoData)| > 0 {
        ParseVideoData(videoData);
      }
    }

    /** `parseImageData`: appends `url_list[0]` of each image with a non-empty list, stopping at a `null` image. */
    method ParseImageData(images: JsVal)
      modifies this
      ensures Snapshot() == old(Snapshot()).(imageList := old(imageList) + PushedImages(images))
    {
      if !(images.Val? && images.j.JArr?) {
        return;
      }
      var items := images.j.items;
      for i := 0 to |items|
        invariant !Collect(items, i).stopped
        invariant Snapshot() == old(Snapshot()).(imageList := old(imageList) + Collect(items, i).pushed)
      {
        var image := items[i];
        if image == JNull {
          CollectStopPersists(items, i + 1, |items|);
          return;
        }
        var urlList := OrElse(Member(Val(image), "url_list"), EmptyArr);
        if Greater(Member(urlList, "length"), Val(JNum(0.0))) {
          imageList := imageList + [Member(urlList, "0")];
        }
      }
    }

    /** `parseVideoData`. */
    method ParseVideoData(videoData: JsVal)
      requires !Nullish(videoData)
      modifies this
      ensures Snapshot() == old(Snapshot()).(video := VideoAfter(videoData, old(video)))
    {
      var playAddr := OrElse(Member(videoData, "play_addr"), EmptyObj);
      var urlList := OrElse(Member(playAddr, "url_list"), EmptyArr);
      if !Greater(Member(urlList, "length"), Val(JNum(0.0))) {
        return;
      }
      var videoUrl := Member(urlList, "0");
      var hasMp3 := Includes(videoUrl, "mp3");
      if hasMp3.Failure? {
        return;
      }
      if hasMp3.value {
        video := "";
      } else if videoUrl.Val? && videoUrl.j.JStr? {
        video := Text.ReplaceFirst(videoUrl.j.s, "playwm", "play");
      }
    }

    /** `toApiResponse`: the record in a code-200 envelope. */
    function ToApiResponse(): (r: ResponseTs.ApiResponse<Json>)
      reads this
      ensures r.code == ResponseTs.SuccessCode && r.message == ResponseTs.DefaultSuccessMessage
      ensures r.data == MediaTs.AsJson(MediaOf(url, Snapshot()))
    {
      MediaTs.SuccessResponse(MediaOf(url, Snapshot()))
    }
  }

  /** `new DouyinService(text, type)`: throws when no URL can be extracted. */
  method Create(text: string, kind: string) returns (r: Result<Service, string>)
    ensures r.Failure? <==> UrlExtractor.ExtractUrl(text).None?
    ensures r.Failure? ==> r.error == "无法从文本 '" + text + "' 中提取 URL"
    ensures r.Success? ==> r.value.url == UrlExtractor.ExtractUrl(text).value && r.value.Snapshot() == Initial
    ensures r.Success? ==> fresh(r.value)
  {
    var url := UrlExtractor.ExtractUrl(text);
    if url.None? {
      return Failure("无法从文本 '" + text + "' 中提取 URL");
    }
    var s := new Service(text, kind, url.value);
    return Success(s);
  }
}
