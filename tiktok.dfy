/**
 * `Tiktok` from the Python service, the extractor the route actually uses for
 * the short-video site: a strict path into `window._ROUTER_DATA` (every step a
 * subscription that raises), no URL rewrite, and an all-or-nothing `to_dict`
 * that answers `{"data": ...}` or `{}`.
 */
module Tiktok {
  import opened Wrappers
  import opened JsonTree
  import opened PyOps
  import opened PageInput
  import Text
  import FindUrl
  import ScriptScan
  import DouyinPy
  import DouyinPage

  const Marker: string := "window._ROUTER_DATA"
  const MarkerAssign: string := "window._ROUTER_DATA = "

  /**
   * The attributes `to_dict` reads.  `description` is None while it was never
   * assigned (no marker script); `imageData` and `videoData` start as `{}`.
   */
  datatype State = State(url: Option<string>, title: string, description: Option<Json>, imageData: Json, videoData: Json)

  predicate HasMarker(script: string)
  {
    Text.Contains(script, Marker)
  }

  /** `json.loads(text)['loaderData'][<page>]['videoInfoRes']['item_list'][0]`. */
  function FirstItem(script: string, parse: PyParser): Result<Json, PyExc>
  {
    match Text.SplitSecond(script, MarkerAssign)
    case None => Failure(IndexError("list index out of range"))
    case Some(text) =>
      match parse(text)
      case Failure(m) => Failure(JsonDecodeError(m))
      case Success(parsed) =>
        var loader :- Sub(parsed, "loaderData");
        var page :- Sub(loader, DouyinPage.PageKey(text));
        var info :- Sub(page, "videoInfoRes");
        var itemList :- Sub(info, "item_list");
        At(itemList, 0)
  }

  /** `extract_tiktok_data` applied to the state `s`: both data attributes restart as `{}`. */
  function Extract(page: Page, parse: PyParser, s: State): Result<State, PyExc>
  {
    var reset := s.(imageData := EmptyObj, videoData := EmptyObj);
    match ScriptScan.First(page.scripts, HasMarker)
    case None => Success(reset)
    case Some(i) =>
      var item :- FirstItem(page.scripts[i], parse);
      var desc :- Sub(item, "desc");
      var images :- Sub(item, "images");
      var video :- Sub(item, "video");
      Success(reset.(description := Some(desc), imageData := images, videoData := video))
  }

  /** The whole constructor: the state, or the exception it raises. */
  function Analyze(text: string, fetch: string -> PyFetch, parse: PyParser): Result<State, PyExc>
  {
    match FindUrl.FindUrl(text)
    case None => Failure(ValueError("无法从文本 '" + text + "' 中提取 URL"))
    case Some(u) =>
      match fetch(u)
      case PyFetchFailed(e) => Failure(HttpError(e))
      case PyFetched(_, page) => Extract(page, parse, State(Some(u), page.title, None, EmptyObj, EmptyObj))
  }

  /** `item['url_list'][0]`. */
  function FirstEntry(item: Json): Result<Json, PyExc>
  {
    var urls :- Sub(item, "url_list");
    At(urls, 0)
  }

  /** The image loop of `to_dict` over the first `n` items. */
  function FirstEntries(items: seq<Json>, n: nat): Result<seq<Json>, PyExc>
    requires n <= |items|
  {
    if n == 0 then Success([])
    else
      match FirstEntries(items, n - 1)
      case Failure(e) => Failure(e)
      case Success(prev) =>
        match FirstEntry(items[n - 1])
        case Failure(e) => Failure(e)
        case Success(u) => Success(prev + [u])
  }

  /** `video_data['play_addr']['url_list'][0]` when `video_data` is truthy, else ''. */
  function VideoOf(videoData: Json): Result<Json, PyExc>
  {
    if !Truthy(videoData) then Success(JStr(""))
    else
      var playAddr :- Sub(videoData, "play_addr");
      var urls :- Sub(playAddr, "url_list");
      At(urls, 0)
  }

  /** The dictionary `to_dict` builds, or the exception it swallows. */
  function ToDictResult(s: State): Result<Json, PyExc>
  {
    var items :- if Truthy(s.imageData) then Iter(s.imageData) else Success([]);
    var links :- FirstEntries(items, |items|);
    var video :- VideoOf(s.videoData);
    var desc :- match s.description
      case None => Failure(AttributeError("'Tiktok' object has no attribute 'description'"))
      case Some(d) => Success(d);
    Success(JObj([("data", JObj([("url", OptStr(s.url)), ("final_url", JStr("")), ("title", JStr(s.title)),
                                 ("description", desc), ("image_list", JArr(links)), ("video", video),
                                 ("app_type", JStr("xiaohongshu"))]))]))
  }

  /** `to_dict`: any exception gives `{}`. */
  function ToDictSpec(s: State): Json
  {
    match ToDictResult(s)
    case Success(d) => d
    case Failure(_) => EmptyObj
  }

  // ---------------------------------------------------------------------------
  // Properties of the specification

  /** A parsed payload without `loaderData` raises KeyError: the path is strict. */
  lemma MissingLoaderDataRaises(script: string, parse: PyParser)
    requires Text.SplitSecond(script, MarkerAssign).Some?
    requires parse(Text.SplitSecond(script, MarkerAssign).value).Success?
    requires var d := parse(Text.SplitSecond(script, MarkerAssign).value).value;
      d.JObj? && Lookup(d.fields, "loaderData").None?
    ensures FirstItem(script, parse) == Failure(KeyError("'loaderData'"))
  {
    assert Quoted("loaderData") == "'loaderData'";
  }

  /** An empty `item_list` raises IndexError. */
  lemma EmptyItemListRaises(script: string, parse: PyParser, loader: Json, page: Json, info: Json)
    requires Text.SplitSecond(script, MarkerAssign).Some?
    requires var text := Text.SplitSecond(script, MarkerAssign).value;
      && parse(text).Success? && parse(text).value.JObj?
      && Lookup(parse(text).value.fields, "loaderData") == Some(loader)
      && loader.JObj? && Lookup(loader.fields, DouyinPage.PageKey(text)) == Some(page)
      && page.JObj? && Lookup(page.fields, "videoInfoRes") == Some(info)
      && info.JObj? && Lookup(info.fields, "item_list") == Some(JArr([]))
    ensures FirstItem(script, parse) == Failure(IndexError("list index out of range"))
  {
  }

  /** With no marker script the description is never assigned, so `to_dict` gives `{}`. */
  lemma NoMarkerGivesEmptyDict(text: string, fetch: string -> PyFetch, parse: PyParser)
    requires FindUrl.FindUrl(text).Some? && fetch(FindUrl.FindUrl(text).value).PyFetched?
    requires var page := fetch(FindUrl.FindUrl(text).value).page;
      forall k :: 0 <= k < |page.scripts| ==> !HasMarker(page.scripts[k])
    ensures Analyze(text, fetch, parse).Success?
    ensures ToDictSpec(Analyze(text, fetch, parse).value) == EmptyObj
  {
  }

  /** `to_dict` is all-or-nothing, and on success reports `final_url` '' and `app_type` 'xiaohongshu'. */
  lemma ToDictShape(s: State)
    ensures ToDictSpec(s) == EmptyObj <==> ToDictResult(s).Failure?
    ensures ToDictResult(s).Success? ==>
      var d := ToDictSpec(s);
      d.JObj? && |d.fields| == 1 && d.fields[0].0 == "data" && d.fields[0].1.JObj?
      && Keys(d.fields[0].1.fields) == ["url", "final_url", "title", "description", "image_list", "video", "app_type"]
      && d.fields[0].1.fields[1].1 == JStr("") && d.fields[0].1.fields[6].1 == JStr("xiaohongshu")
  {
  }

  /** A falsy `image_data` gives no images and a falsy `video_data` the empty video. */
  lemma FalsyDataGivesEmpty(s: State)
    requires !Truthy(s.imageData) && !Truthy(s.videoData) && s.description.Some?
    ensures ToDictResult(s).Success?
    ensures ToDictResult(s).value.fields[0].1.fields[4].1 == JArr([])
    ensures ToDictResult(s).value.fields[0].1.fields[5].1 == JStr("")
  {
  }

  /**
   * The video URL is taken verbatim: a `playwm` URL that the `Douyin` class
   * would rewrite is reported unchanged here.
   */
  lemma VideoIsVerbatim(s: State, u: string)
    requires Truthy(s.videoData) && VideoOf(s.videoData) == Success(JStr(u))
    requires Text.Contains(u, "playwm") && !Text.Contains(u, "mp3")
    ensures DouyinPy.RewriteVideo(JStr(u)) != VideoOf(s.videoData)
  {
    DouyinPy.PlaywmReplaced(u);
  }

  /** The image loop fails exactly when some item has no `url_list` or an empty one. */
  lemma {:induction false} FirstEntriesSucceedsIff(items: seq<Json>, n: nat)
    requires n <= |items|
    ensures FirstEntries(items, n).Success? <==> forall k :: 0 <= k < n ==> FirstEntry(items[k]).Success?
  {
    if n > 0 {
      FirstEntriesSucceedsIff(items, n - 1);
      assert FirstEntries(items, n).Success? <==> FirstEntries(items, n - 1).Success? && FirstEntry(items[n - 1]).Success?;
    }
  }

  /** On success there is one link per item, its first `url_list` entry, in order. */
  lemma {:induction false} FirstEntriesInOrder(items: seq<Json>, n: nat)
    requires n <= |items| && FirstEntries(items, n).Success?
    ensures |FirstEntries(items, n).value| == n
    ensures forall k :: 0 <= k < n ==> FirstEntry(items[k]) == Success(FirstEntries(items, n).value[k])
  {
    if n > 0 {
      FirstEntriesInOrder(items, n - 1);
    }
  }

  lemma {:induction false} FirstEntriesFailurePersists(items: seq<Json>, j: nat, n: nat)
    requires j <= n <= |items| && FirstEntries(items, j).Failure?
    ensures FirstEntries(items, n) == FirstEntries(items, j)
    decreases n - j
  {
    if j < n {
      FirstEntriesFailurePersists(items, j, n - 1);
    }
  }

  // ---------------------------------------------------------------------------
  // The object

  class Tiktok {
    const text: string
    const kind: string
    const url: Option<string>
    var html: string
    var title: string
    var description: Option<Json>
    var imageData: Json
    var videoData: Json

    function Snapshot(): State
      reads this
    {
      State(url, title, description, imageData, videoData)
    }

    /** The assignments `__init__` makes before its URL check. */
    constructor (text: string, kind: string)
      ensures this.text == text && this.kind == kind
      ensures Snapshot() == State(FindUrl.FindUrl(text), "", None, EmptyObj, EmptyObj)
    {
      this.text := text;
      this.kind := kind;
      this.url := FindUrl.FindUrl(text);
      this.html := "";
      this.title := "";
      this.description := None;
      this.imageData := EmptyObj;
      this.videoData := EmptyObj;
    }

    /** The rest of `__init__`: the URL check, the fetch and the extraction; every error is re-raised. */
    method Load(fetch: string -> PyFetch, parse: PyParser) returns (err: Option<PyExc>)
      requires Snapshot() == State(FindUrl.FindUrl(text), "", None, EmptyObj, EmptyObj)
      modifies this
      ensures err.None? <==> Analyze(text, fetch, parse).Success?
      ensures err.Some? ==> Analyze(text, fetch, parse) == Failure(err.value)
      ensures err.None? ==> Snapshot() == Analyze(text, fetch, parse).value
    {
      if url.None? {
        return Some(ValueError("无法从文本 '" + text + "' 中提取 URL"));
      }
      match fetch(url.value) {
        case PyFetchFailed(e) =>
          return Some(HttpError(e));
        case PyFetched(_, page) =>
          html := page.html;
          title := page.title;
          err := ExtractTiktokData(page, parse);
      }
    }

    /** `extract_tiktok_data`: the first marker script, read along a strict path, then the loop stops. */
    method ExtractTiktokData(page: Page, parse: PyParser) returns (err: Option<PyExc>)
      modifies this
      ensures err.None? <==> Extract(page, parse, old(Snapshot())).Success?
      ensures err.Some? ==> Extract(page, parse, old(Snapshot())) == Failure(err.value)
      ensures err.None? ==> Snapshot() == Extract(page, parse, old(Snapshot())).value
    {
      imageData := EmptyObj;
      videoData := EmptyObj;
      for i := 0 to |page.scripts|
        invariant forall k :: 0 <= k < i ==> !HasMarker(page.scripts[k])
        invariant Snapshot() == old(Snapshot()).(imageData := EmptyObj, videoData := EmptyObj)
      {
        if HasMarker(page.scripts[i]) {
          assert ScriptScan.First(page.scripts, HasMarker) == Some(i);
          var item := FirstItem(page.scripts[i], parse);
          if item.Failure? {
            return Some(item.error);
          }
          var desc := Sub(item.value, "desc");
          if desc.Failure? {
            return Some(desc.error);
          }
          description := Some(desc.value);
          var images := Sub(item.value, "images");
          if images.Failure? {
            return Some(images.error);
          }
          imageData := images.value;
          var video := Sub(item.value, "video");
          if video.Failure? {
            return Some(video.error);
          }
          videoData := video.value;
          return None;
        }
      }
      return None;
    }

    /** `to_dict`: the image loop, the video and the seven-key record under "data"; `{}` on any exception. */
    method ToDict() returns (d: Json)
      ensures d == ToDictSpec(Snapshot())
    {
      var items: seq<Json> := [];
      if Truthy(imageData) {
        var it := Iter(imageData);
        if it.Failure? {
          return EmptyObj;
        }
        items := it.value;
      }
      var links: seq<Json> := [];
      for j := 0 to |items|
        invariant FirstEntries(items, j) == Success(links)
      {
        var urls := Sub(items[j], "url_list");
        if urls.Failure? {
          FirstEntriesFailurePersists(items, j + 1, |items|);
          return EmptyObj;
        }
        var first := At(urls.value, 0);
        if first.Failure? {
          FirstEntriesFailurePersists(items, j + 1, |items|);
          return EmptyObj;
        }
        links := links + [first.value];
      }
      var video := VideoOf(videoData);
      if video.Failure? {
        return EmptyObj;
      }
      if description.None? {
        return EmptyObj;
      }
      return JObj([("data", JObj([("url", OptStr(url)), ("final_url", JStr("")), ("title", JStr(title)),
                                  ("description", description.value), ("image_list", JArr(links)),
                                  ("video", video.value), ("app_type", JStr("xiaohongshu"))]))]);
    }
  }
}
