/**
 * `Douyin` from the Python service: read the first script holding
 * `window._ROUTER_DATA`, pick the note page or the video page, and collect
 * the description, the first URL of each image and the rewritten video URL.
 */
module DouyinPy {
  import opened Wrappers
  import opened JsonTree
  import opened PyOps
  import opened PageInput
  import Text
  import FindUrl
  import ResponsePy
  import opened MediaPy
  import ScriptScan
  import DouyinPage

  const Marker: string := "window._ROUTER_DATA"
  const MarkerAssign: string := "window._ROUTER_DATA = "
  const AppType: string := "douyin"

  predicate HasMarker(script: string)
  {
    Text.Contains(script, Marker)
  }

  /** `json.loads(text).get("loaderData", {}).get(<page key>, {})` for the text after the marker. */
  function DataDict(script: string, parse: PyParser): Result<Json, PyExc>
  {
    match Text.SplitSecond(script, MarkerAssign)
    case None => Failure(IndexError("list index out of range"))
    case Some(text) =>
      match parse(text)
      case Failure(m) => Failure(JsonDecodeError(m))
      case Success(parsed) =>
        var loader :- Get(parsed, "loaderData", EmptyObj);
        Get(loader, DouyinPage.PageKey(text), EmptyObj)
  }

  /** `item.get("url_list", [])[0]` for the first `n` images. */
  function FirstUrls(images: seq<Json>, n: nat): Result<seq<Json>, PyExc>
    requires n <= |images|
  {
    if n == 0 then Success([])
    else
      match FirstUrls(images, n - 1)
      case Failure(e) => Failure(e)
      case Success(prev) =>
        match FirstUrl(images[n - 1])
        case Failure(e) => Failure(e)
        case Success(u) => Success(prev + [u])
  }

  function FirstUrl(image: Json): Result<Json, PyExc>
  {
    var urls :- Get(image, "url_list", JArr([]));
    At(urls, 0)
  }

  /** `get_image_data`, run only when the item's `images` is truthy. */
  function ImagesOf(images: Json): Result<seq<Json>, PyExc>
  {
    if !Truthy(images) then Success([])
    else
      var xs :- Iter(images);
      FirstUrls(xs, |xs|)
  }

  /** `'mp3' in url` clears the URL; otherwise every `playwm` becomes `play`. */
  function RewriteVideo(url: Json): Result<Json, PyExc>
  {
    var mp3 :- In("mp3", url);
    if mp3 then Success(JStr(""))
    else if url.JStr? then Success(JStr(Text.ReplaceAll(url.s, "playwm", "play")))
    else Failure(NoAttribute(url, "replace"))
  }

  /** `get_video_data`: the first `play_addr` URL, rewritten; "" when `play_addr` is empty. */
  function VideoOf(video: Json): Result<Json, PyExc>
  {
    var playAddr :- Get(video, "play_addr", EmptyObj);
    var url :- if Truthy(playAddr) then
        (var urls :- Get(playAddr, "url_list", JArr([])); At(urls, 0))
      else Success(JStr(""));
    RewriteVideo(url)
  }

  /** `get_dict_data` applied to the record `r`. */
  function DictData(d: Json, r: Record): Result<Record, PyExc>
  {
    var info :- Get(d, "videoInfoRes", EmptyObj);
    var itemList :- Get(info, "item_list", JArr([]));
    var len :- Len(itemList);
    var item :- if len > 0 then At(itemList, 0) else Success(EmptyObj);
    var desc :- Get(item, "desc", JStr(""));
    var images :- Get(item, "images", JArr([]));
    var links :- ImagesOf(images);
    var video :- Get(item, "video", EmptyObj);
    var url :- if Truthy(video) then VideoOf(video) else Success(r.video);
    Success(r.(description := desc, imageList := r.imageList + links, video := url))
  }

  /** `extract_douyin_data`: only the first marker script is read. */
  function Extract(page: Page, parse: PyParser, r: Record): Result<Record, PyExc>
  {
    match ScriptScan.First(page.scripts, HasMarker)
    case None => Success(r)
    case Some(i) =>
      var d :- DataDict(page.scripts[i], parse);
      DictData(d, r)
  }

  /** The whole constructor: the record, or the exception it raises. */
  function Analyze(text: string, fetch: string -> PyFetch, parse: PyParser): Result<Record, PyExc>
  {
    match FindUrl.FindUrl(text)
    case None => Failure(ValueError("无法从文本 '" + text + "' 中提取 URL"))
    case Some(u) =>
      match fetch(u)
      case PyFetchFailed(e) => Failure(HttpError(e))
      case PyFetched(_, page) => Extract(page, parse, Record(Some(u), page.title, JStr(""), [], JStr("")))
  }

  // ---------------------------------------------------------------------------
  // Properties of the specification

  /** A video URL containing `mp3` is cleared. */
  lemma Mp3IsCleared(s: string)
    requires Text.Contains(s, "mp3")
    ensures RewriteVideo(JStr(s)) == Success(JStr(""))
  {
  }

  /** Any other string has every `playwm` replaced; the result is no longer. */
  lemma PlaywmReplaced(s: string)
    requires !Text.Contains(s, "mp3")
    ensures RewriteVideo(JStr(s)) == Success(JStr(Text.ReplaceAll(s, "playwm", "play")))
    ensures |RewriteVideo(JStr(s)).value.s| <= |s|
    ensures Text.Contains(s, "playwm") ==> |RewriteVideo(JStr(s)).value.s| < |s|
  {
    Text.ReplaceAllShrinks(s, "playwm", "play");
  }

  /** A truthy video whose `play_addr` is empty gives "". */
  lemma EmptyPlayAddrGivesEmpty(video: Json)
    requires video.JObj? && Lookup(video.fields, "play_addr") == Some(EmptyObj)
    ensures VideoOf(video) == Success(JStr(""))
  {
    assert !Text.Contains("", "mp3");
    assert Text.ReplaceAll("", "playwm", "play") == "";
  }

  /** An item list that is empty gives an empty description, no images and the video unchanged. */
  lemma EmptyItemList(d: Json, info: Json, r: Record)
    requires d.JObj? && Lookup(d.fields, "videoInfoRes") == Some(info)
    requires info.JObj? && Lookup(info.fields, "item_list") == Some(JArr([]))
    ensures DictData(d, r) == Success(r.(description := JStr("")))
  {
    assert r.imageList + [] == r.imageList;
  }

  /** The image loop fails exactly when some image's `url_list` lookup or first entry raises. */
  lemma {:induction false} FirstUrlsSucceedsIff(images: seq<Json>, n: nat)
    requires n <= |images|
    ensures FirstUrls(images, n).Success? <==> forall k :: 0 <= k < n ==> FirstUrl(images[k]).Success?
  {
    if n > 0 {
      FirstUrlsSucceedsIff(images, n - 1);
      assert FirstUrls(images, n).Success? <==> FirstUrls(images, n - 1).Success? && FirstUrl(images[n - 1]).Success?;
    }
  }

  /** On success there is one link per image, its first `url_list` entry, in order. */
  lemma {:induction false} FirstUrlsInOrder(images: seq<Json>, n: nat)
    requires n <= |images| && FirstUrls(images, n).Success?
    ensures |FirstUrls(images, n).value| == n
    ensures forall k :: 0 <= k < n ==> FirstUrl(images[k]) == Success(FirstUrls(images, n).value[k])
  {
    if n > 0 {
      FirstUrlsInOrder(images, n - 1);
    }
  }

  lemma {:induction false} FirstUrlsFailurePersists(images: seq<Json>, j: nat, n: nat)
    requires j <= n <= |images| && FirstUrls(images, j).Failure?
    ensures FirstUrls(images, n) == FirstUrls(images, j)
    decreases n - j
  {
    if j < n {
      FirstUrlsFailurePersists(images, j, n - 1);
    }
  }

  /** An image whose `url_list` is empty raises IndexError. */
  lemma EmptyUrlListRaises(image: Json)
    requires image.JObj? && Lookup(image.fields, "url_list") == Some(JArr([]))
    ensures FirstUrl(image) == Failure(IndexError("list index out of range"))
  {
  }

  /** Only the first marker script is read: every script after it can be dropped. */
  lemma OnlyFirstMarkerScript(page: Page, parse: PyParser, r: Record, n: nat)
    requires ScriptScan.First(page.scripts, HasMarker).Some?
    requires ScriptScan.First(page.scripts, HasMarker).value < n <= |page.scripts|
    ensures Extract(page.(scripts := page.scripts[..n]), parse, r) == Extract(page, parse, r)
  {
    ScriptScan.FirstOfPrefix(page.scripts, HasMarker, n);
    var i := ScriptScan.First(page.scripts, HasMarker).value;
    assert page.(scripts := page.scripts[..n]).scripts[i] == page.scripts[i];
  }

  /** The `to_dict` record has the seven keys, `final_url` "" and `app_type` "douyin". */
  lemma RecordShape(r: Record)
    ensures RecordJson(r, AppType).JObj?
    ensures Keys(RecordJson(r, AppType).fields) == ["url", "final_url", "title", "description", "image_list", "video", "app_type"]
    ensures RecordJson(r, AppType).fields[1].1 == JStr("") && RecordJson(r, AppType).fields[6].1 == JStr("douyin")
  {
  }

  // ---------------------------------------------------------------------------
  // The object

  class Douyin {
    const text: string
    const kind: string
    const url: Option<string>
    var description: Json
    var imageList: seq<Json>
    var video: Json
    var html: string
    var title: string

    function Snapshot(): Record
      reads this
    {
      Record(url, title, description, imageList, video)
    }

    /** The assignments `__init__` makes before its URL check. */
    constructor (text: string, kind: string)
      ensures this.text == text && this.kind == kind
      ensures Snapshot() == Record(FindUrl.FindUrl(text), "", JStr(""), [], JStr(""))
    {
      this.text := text;
      this.kind := kind;
      this.url := FindUrl.FindUrl(text);
      this.description := JStr("");
      this.imageList := [];
      this.video := JStr("");
      this.html := "";
      this.title := "";
    }

    /** The rest of `__init__`: the URL check, the fetch and the extraction; every error is re-raised. */
    method Load(fetch: string -> PyFetch, parse: PyParser) returns (err: Option<PyExc>)
      requires Snapshot() == Record(FindUrl.FindUrl(text), "", JStr(""), [], JStr(""))
      modifies this
      ensures err.None? <==> Analyze(text, fetch, parse).Success?
      ensures err.Some? ==> Analyze(text, fetch, parse) == Failure(err.value)
      ensures err.None? ==> Snapshot() == Analyze(text, fetch, parse).value
    {
      if url.None? {
        return Some(ValueError("无法从文本 '" + text + "' 中提取 URL"));
      }
      match fetch(url.value) {
        case PyFetchFailed(e) =>
          return Some(HttpError(e));
        case PyFetched(_, page) =>
          html := page.html;
          title := page.title;
          err := ExtractDouyinData(page, parse);
      }
    }

    /** `extract_douyin_data`: the first marker script is parsed and read, then the loop stops. */
    method ExtractDouyinData(page: Page, parse: PyParser) returns (err: Option<PyExc>)
      modifies this
      ensures err.None? <==> Extract(page, parse, old(Snapshot())).Success?
      ensures err.Some? ==> Extract(page, parse, old(Snapshot())) == Failure(err.value)
      ensures err.None? ==> Snapshot() == Extract(page, parse, old(Snapshot())).value
    {
      for i := 0 to |page.scripts|
        invariant forall k :: 0 <= k < i ==> !HasMarker(page.scripts[k])
      {
        if HasMarker(page.scripts[i]) {
          assert ScriptScan.First(page.scripts, HasMarker) == Some(i);
          var d := DataDict(page.scripts[i], parse);
          if d.Failure? {
            return Some(d.error);
          }
          err := GetDictData(d.value);
          return;
        }
      }
      return None;
    }

    /** `get_dict_data`: the first item's description, images and video. */
    method GetDictData(d: Json) returns (err: Option<PyExc>)
      modifies this
      ensures err.None? <==> DictData(d, old(Snapshot())).Success?
      ensures err.Some? ==> DictData(d, old(Snapshot())) == Failure(err.value)
      ensures err.None? ==> Snapshot() == DictData(d, old(Snapshot())).value
    {
      var info := Get(d, "videoInfoRes", EmptyObj);
      if info.Failure? { return Some(info.error); }
      var itemList := Get(info.value, "item_list", JArr([]));
      if itemList.Failure? { return Some(itemList.error); }
      var len := Len(itemList.value);
      if len.Failure? { return Some(len.error); }
      var item := if len.value > 0 then At(itemList.value, 0) else Success(EmptyObj);
      if item.Failure? { return Some(item.error); }
      var desc := Get(item.value, "desc", JStr(""));
      if desc.Failure? { return Some(desc.error); }
      description := desc.value;
      // `item` is a dict here, so the remaining `get`s cannot raise
      var images := Get(item.value, "images", JArr([])).value;
      if Truthy(images) {
        err := GetImageData(images);
        if err.Some? { return; }
      }
      var video := Get(item.value, "video", EmptyObj).value;
      if Truthy(video) {
        err := GetVideoData(video);
        if err.Some? { return; }
      }
      return None;
    }

    /** `get_image_data`: appends the first `url_list` entry of each image. */
    method GetImageData(images: Json) returns (err: Option<PyExc>)
      requires Truthy(images)
      modifies this`imageList
      ensures err.None? <==> ImagesOf(images).Success?
      ensures err.Some? ==> ImagesOf(images) == Failure(err.value)
      ensures err.None? ==> imageList == old(imageList) + ImagesOf(images).value
    {
      var xs := Iter(images);
      if xs.Failure? {
        return Some(xs.error);
      }
      var items := xs.value;
      for j := 0 to |items|
        invariant FirstUrls(items, j).Success?
        invariant imageList == old(imageList) + FirstUrls(items, j).value
      {
        var urls := Get(items[j], "url_list", JArr([]));
        if urls.Failure? {
          FirstUrlsFailurePersists(items, j + 1, |items|);
          return Some(urls.error);
        }
        var first := At(urls.value, 0);
        if first.Failure? {
          FirstUrlsFailurePersists(items, j + 1, |items|);
          return Some(first.error);
        }
        imageList := imageList + [first.value];
      }
      return None;
    }

    /** `get_video_data`: the first `play_addr` URL with `mp3` cleared and `playwm` rewritten. */
    method GetVideoData(video: Json) returns (err: Option<PyExc>)
      modifies this
      ensures err.None? <==> VideoOf(video).Success?
      ensures err.Some? ==> VideoOf(video) == Failure(err.value)
      ensures err.None? ==> Snapshot() == old(Snapshot()).(video := VideoOf(video).value)
    {
      var v := VideoOf(video);
      if v.Failure? {
        return Some(v.error);
      }
      this.video := v.value;
      return None;
    }

    /** `to_dict`: the seven-key record in a code-200 envelope. */
    function ToDict(): (r: ResponsePy.Response<Json>)
      reads this
      ensures r.code == ResponsePy.SuccessCode && r.message == ResponsePy.SuccessMessage
      ensures r.data == RecordJson(Snapshot(), AppType)
    {
      ResponsePy.Success(RecordJson(Snapshot(), AppType), ResponsePy.SuccessMessage)
    }
  }
}
