/**
 * `Kuaishou` from the Python service: read the first script holding
 * `window.INIT_STATE`, take the third value of the parsed dictionary, and
 * collect the caption, the first backup URL of the first representation and
 * the prefixed image ids of the atlas.
 */
module Kuaishou {
  import opened Wrappers
  import opened JsonTree
  import opened PyOps
  import opened PageInput
  import Text
  import FindUrl
  import ResponsePy
  import opened MediaPy
  import ScriptScan

  const Marker: string := "window.INIT_STATE"
  const MarkerAssign: string := "window.INIT_STATE = "
  const ImagePrefix: string := "https://tx2.a.kwimgs.com/"
  const AppType: string := "kuaishou"

  predicate HasMarker(script: string)
  {
    Text.Contains(script, Marker)
  }

  /** `json.loads(script.split("window.INIT_STATE = ")[1])`. */
  function ParseState(script: string, parse: PyParser): Result<Json, PyExc>
  {
    match Text.SplitSecond(script, MarkerAssign)
    case None => Failure(IndexError("list index out of range"))
    case Some(text) =>
      match parse(text)
      case Failure(m) => Failure(JsonDecodeError(m))
      case Success(d) => Success(d)
  }

  /** `xs[0] if len(xs) > 0 else {}`. */
  function FirstOrEmpty(xs: Json): Result<Json, PyExc>
  {
    var n :- Len(xs);
    if n > 0 then At(xs, 0) else Success(EmptyObj)
  }

  /** `get_video_data`: the first backup URL of the first representation of the first adaptation set. */
  function VideoOf(manifest: Json): Result<Json, PyExc>
  {
    var sets :- Get(manifest, "adaptationSet", JArr([]));
    var item :- FirstOrEmpty(sets);
    var reps :- Get(item, "representation", JArr([]));
    var rep :- FirstOrEmpty(reps);
    var backups :- Get(rep, "backupUrl", JArr([]));
    At(backups, 0)
  }

  /** One image id: skipped when falsy, prefixed when a string, TypeError otherwise. */
  function PrefixId(id: Json): Result<seq<Json>, PyExc>
  {
    if !Truthy(id) then Success([])
    else if id.JStr? then Success([JStr(ImagePrefix + id.s)])
    else Failure(TypeError("can only concatenate str (not \"" + TypeName(id) + "\") to str"))
  }

  /** The id loop of `get_image_data` over the first `n` ids. */
  function PrefixIds(ids: seq<Json>, n: nat): Result<seq<Json>, PyExc>
    requires n <= |ids|
  {
    if n == 0 then Success([])
    else
      match PrefixIds(ids, n - 1)
      case Failure(e) => Failure(e)
      case Success(prev) =>
        match PrefixId(ids[n - 1])
        case Failure(e) => Failure(e)
        case Success(more) => Success(prev + more)
  }

  /** `get_image_data`: the atlas list, each truthy id prefixed. */
  function ImagesOf(ext: Json): Result<seq<Json>, PyExc>
  {
    var atlas :- Get(ext, "atlas", EmptyObj);
    var ids :- Get(atlas, "list", JArr([]));
    var n :- Len(ids);
    if n > 0 then
      var xs :- Iter(ids);
      PrefixIds(xs, |xs|)
    else Success([])
  }

  /** `get_dict_data` applied to the record `r`: nothing happens unless there are at least three values. */
  function DictData(d: Json, r: Record): Result<Record, PyExc>
  {
    if !Truthy(d) then Success(r)
    else
      var values :- ValuesOf(d);
      if |values| <= 2 then Success(r)
      else
        var photo :- Get(values[2], "photo", EmptyObj);
        var manifest :- Get(photo, "manifest", EmptyObj);
        var ext :- Get(photo, "ext_params", EmptyObj);
        var manifestLen :- Len(manifest);
        var video :- if manifestLen > 0 then VideoOf(manifest) else Success(r.video);
        var extLen :- Len(ext);
        var links :- if extLen > 0 then ImagesOf(ext) else Success([]);
        var caption :- Get(photo, "caption", JStr(""));
        Success(r.(video := video, imageList := r.imageList + links, description := caption))
  }

  /** `extract_kuaishou_data`: the first marker script's state (or `{}`), then `get_dict_data`. */
  function Extract(page: Page, parse: PyParser, r: Record): Result<Record, PyExc>
  {
    match ScriptScan.First(page.scripts, HasMarker)
    case None => DictData(EmptyObj, r)
    case Some(i) =>
      var d :- ParseState(page.scripts[i], parse);
      DictData(d, r)
  }

  /** The whole constructor: the record, or the exception it raises. */
  function Analyze(text: string, fetch: string -> PyFetch, parse: PyParser): Result<Record, PyExc>
  {
    match FindUrl.FindUrl(text)
    case None => Failure(ValueError("无法从文本 '" + text + "' 中提取 URL"))
    case Some(u) =>
      match fetch(u)
      case PyFetchFailed(e) => Failure(HttpError(e))
      case PyFetched(_, page) => Extract(page, parse, Record(Some(u), page.title, JStr(""), [], JStr("")))
  }

  // ---------------------------------------------------------------------------
  // Properties of the specification

  /** A page state with fewer than three values changes nothing. */
  lemma FewValuesChangeNothing(d: Json, r: Record)
    requires d.JObj? && |d.fields| <= 2
    ensures DictData(d, r) == Success(r)
  {
  }

  /** With no marker script nothing is raised and the record keeps its defaults. */
  lemma NoMarkerKeepsDefaults(page: Page, parse: PyParser, r: Record)
    requires forall k :: 0 <= k < |page.scripts| ==> !HasMarker(page.scripts[k])
    ensures Extract(page, parse, r) == Success(r)
  {
  }

  /** An empty `backupUrl` list raises IndexError. */
  lemma EmptyBackupUrlRaises(rep: Json, manifest: Json)
    requires manifest.JObj? && Lookup(manifest.fields, "adaptationSet") == Some(JArr([JObj([("representation", JArr([rep]))])]))
    requires rep.JObj? && Lookup(rep.fields, "backupUrl") == Some(JArr([]))
    ensures VideoOf(manifest) == Failure(IndexError("list index out of range"))
  {
  }

  /** A truthy id that is not a string raises TypeError; a string id gains the CDN prefix. */
  lemma PrefixIdCases(id: Json)
    ensures id.JStr? && id.s != "" ==> PrefixId(id) == Success([JStr(ImagePrefix + id.s)])
    ensures Truthy(id) && !id.JStr? ==> PrefixId(id).Failure? && PrefixId(id).error.TypeError?
    ensures !Truthy(id) ==> PrefixId(id) == Success([])
  {
  }

  /** The id loop fails exactly when some truthy id is not a string. */
  lemma {:induction false} PrefixIdsSucceedsIff(ids: seq<Json>, n: nat)
    requires n <= |ids|
    ensures PrefixIds(ids, n).Success? <==> forall k :: 0 <= k < n ==> !Truthy(ids[k]) || ids[k].JStr?
  {
    if n > 0 {
      PrefixIdsSucceedsIff(ids, n - 1);
      assert PrefixIds(ids, n).Success? <==> PrefixIds(ids, n - 1).Success? && PrefixId(ids[n - 1]).Success?;
    }
  }

  /** Every link starts with the CDN prefix, and there are at most as many links as ids. */
  lemma {:induction false} PrefixIdsShape(ids: seq<Json>, n: nat)
    requires n <= |ids| && PrefixIds(ids, n).Success?
    ensures |PrefixIds(ids, n).value| <= n
    ensures forall l :: l in PrefixIds(ids, n).value ==> l.JStr? && Text.StartsWith(l.s, ImagePrefix) && |l.s| > |ImagePrefix|
  {
    if n > 0 {
      PrefixIdsShape(ids, n - 1);
      var prev := PrefixIds(ids, n - 1).value;
      var more := PrefixId(ids[n - 1]).value;
      assert PrefixIds(ids, n).value == prev + more;
      if ids[n - 1].JStr? && ids[n - 1].s != "" {
        assert (ImagePrefix + ids[n - 1].s)[..|ImagePrefix|] == ImagePrefix;
      }
    }
  }

  /** When every id is a non-empty string, the links are exactly the prefixed ids, in order. */
  lemma {:induction false} PrefixIdsExact(ids: seq<Json>, n: nat)
    requires n <= |ids|
    requires forall k :: 0 <= k < n ==> ids[k].JStr? && ids[k].s != ""
    ensures PrefixIds(ids, n).Success?
    ensures |PrefixIds(ids, n).value| == n
    ensures forall k :: 0 <= k < n ==> PrefixIds(ids, n).value[k] == JStr(ImagePrefix + ids[k].s)
  {
    if n > 0 {
      PrefixIdsExact(ids, n - 1);
    }
  }

  lemma {:induction false} PrefixIdsFailurePersists(ids: seq<Json>, j: nat, n: nat)
    requires j <= n <= |ids| && PrefixIds(ids, j).Failure?
    ensures PrefixIds(ids, n) == PrefixIds(ids, j)
    decreases n - j
  {
    if j < n {
      PrefixIdsFailurePersists(ids, j, n - 1);
    }
  }

  /** The `to_dict` record has the seven keys, `final_url` "" and `app_type` "kuaishou". */
  lemma RecordShape(r: Record)
    ensures RecordJson(r, AppType).JObj?
    ensures Keys(RecordJson(r, AppType).fields) == ["url", "final_url", "title", "description", "image_list", "video", "app_type"]
    ensures RecordJson(r, AppType).fields[1].1 == JStr("") && RecordJson(r, AppType).fields[6].1 == JStr("kuaishou")
  {
  }

  // ---------------------------------------------------------------------------
  // The object

  class Kuaishou {
    const text: string
    const kind: string
    const url: Option<string>
    var description: Json
    var video: Json
    var imageList: seq<Json>
    var html: string
    var title: string
    var dataDict: Json

    function Snapshot(): Record
      reads this
    {
      Record(url, title, description, imageList, video)
    }

    /** The assignments `__init__` makes before its URL check. */
    constructor (text: string, kind: string)
      ensures this.text == text && this.kind == kind
      ensures Snapshot() == Record(FindUrl.FindUrl(text), "", JStr(""), [], JStr(""))
    {
      this.text := text;
      this.kind := kind;
      this.url := FindUrl.FindUrl(text);
      this.description := JStr("");
      this.video := JStr("");
      this.imageList := [];
      this.html := "";
      this.title := "";
      this.dataDict := EmptyObj;
    }

    /** The rest of `__init__`: the URL check, the fetch and the extraction; every error is re-raised. */
    method Load(fetch: string -> PyFetch, parse: PyParser) returns (err: Option<PyExc>)
      requires Snapshot() == Record(FindUrl.FindUrl(text), "", JStr(""), [], JStr(""))
      modifies this
      ensures err.None? <==> Analyze(text, fetch, parse).Success?
      ensures err.Some? ==> Analyze(text, fetch, parse) == Failure(err.value)
      ensures err.None? ==> Snapshot() == Analyze(text, fetch, parse).value
    {
      if url.None? {
        return Some(ValueError("无法从文本 '" + text + "' 中提取 URL"));
      }
      match fetch(url.value) {
        case PyFetchFailed(e) =>
          return Some(HttpError(e));
        case PyFetched(_, page) =>
          html := page.html;
          title := page.title;
          err := ExtractKuaishouData(page, parse);
      }
    }

    /** `extract_kuaishou_data`: the first marker script's state, then `get_dict_data`. */
    method ExtractKuaishouData(page: Page, parse: PyParser) returns (err: Option<PyExc>)
      modifies this
      ensures err.None? <==> Extract(page, parse, old(Snapshot())).Success?
      ensures err.Some? ==> Extract(page, parse, old(Snapshot())) == Failure(err.value)
      ensures err.None? ==> Snapshot() == Extract(page, parse, old(Snapshot())).value
    {
      dataDict := EmptyObj;
      for i := 0 to |page.scripts|
        invariant forall k :: 0 <= k < i ==> !HasMarker(page.scripts[k])
        invariant dataDict == EmptyObj && Snapshot() == old(Snapshot())
      {
        if HasMarker(page.scripts[i]) {
          assert ScriptScan.First(page.scripts, HasMarker) == Some(i);
          var d := ParseState(page.scripts[i], parse);
          if d.Failure? {
            return Some(d.error);
          }
          dataDict := d.value;
          break;
        }
      }
      err := GetDictData();
    }

    /** `get_dict_data`: the third value's `photo` gives the video, the images and the caption. */
    method GetDictData() returns (err: Option<PyExc>)
      modifies this
      ensures err.None? <==> DictData(old(dataDict), old(Snapshot())).Success?
      ensures err.Some? ==> DictData(old(dataDict), old(Snapshot())) == Failure(err.value)
      ensures err.None? ==> Snapshot() == DictData(old(dataDict), old(Snapshot())).value
    {
      if !Truthy(dataDict) {
        return None;
      }
      var values := ValuesOf(dataDict);
      if values.Failure? {
        return Some(values.error);
      }
      if |values.value| <= 2 {
        return None;
      }
      var photo := Get(values.value[2], "photo", EmptyObj);
      if photo.Failure? {
        return Some(photo.error);
      }
      var manifestGet := Get(photo.value, "manifest", EmptyObj);
      if manifestGet.Failure? {
        return Some(manifestGet.error);
      }
      // `photo` is a dict from here on, so the remaining `get`s on it cannot raise
      var manifest := manifestGet.value;
      var ext := Get(photo.value, "ext_params", EmptyObj).value;
      var manifestLen := Len(manifest);
      if manifestLen.Failure? {
        return Some(manifestLen.error);
      }
      if manifestLen.value > 0 {
        err := GetVideoData(manifest);
        if err.Some? {
          return;
        }
      }
      var extLen := Len(ext);
      if extLen.Failure? {
        return Some(extLen.error);
      }
      if extLen.value > 0 {
        err := GetImageData(ext);
        if err.Some? {
          return;
        }
      }
      description := Get(photo.value, "caption", JStr("")).value;
      return None;
    }

    /** `get_video_data`: the first backup URL. */
    method GetVideoData(manifest: Json) returns (err: Option<PyExc>)
      modifies this
      ensures err.None? <==> VideoOf(manifest).Success?
      ensures err.Some? ==> VideoOf(manifest) == Failure(err.value)
      ensures err.None? ==> Snapshot() == old(Snapshot()).(video := VideoOf(manifest).value)
      ensures dataDict == old(dataDict)
    {
      var v := VideoOf(manifest);
      if v.Failure? {
        return Some(v.error);
      }
      video := v.value;
      return None;
    }

    /** `get_image_data`: every truthy id of the atlas list, prefixed with the CDN host. */
    method GetImageData(ext: Json) returns (err: Option<PyExc>)
      modifies this`imageList
      ensures err.None? <==> ImagesOf(ext).Success?
      ensures err.Some? ==> ImagesOf(ext) == Failure(err.value)
      ensures err.None? ==> imageList == old(imageList) + ImagesOf(ext).value
    {
      var atlas := Get(ext, "atlas", EmptyObj);
      if atlas.Failure? {
        return Some(atlas.error);
      }
      var ids := Get(atlas.value, "list", JArr([]));
      if ids.Failure? {
        return Some(ids.error);
      }
      var n := Len(ids.value);
      if n.Failure? {
        return Some(n.error);
      }
      if n.value > 0 {
        var xs := Iter(ids.value).value;
        for j := 0 to |xs|
          invariant PrefixIds(xs, j).Success?
          invariant imageList == old(imageList) + PrefixIds(xs, j).value
        {
          var id := xs[j];
          if Truthy(id) {
            if !id.JStr? {
              var e := TypeError("can only concatenate str (not \"" + TypeName(id) + "\") to str");
              assert PrefixIds(xs, j + 1) == Failure(e);
              PrefixIdsFailurePersists(xs, j + 1, |xs|);
              return Some(e);
            }
            imageList := imageList + [JStr(ImagePrefix + id.s)];
          }
        }
      }
      return None;
    }

    /** `to_dict`: the seven-key record in a code-200 envelope. */
    function ToDict(): (r: ResponsePy.Response<Json>)
      reads this
      ensures r.code == ResponsePy.SuccessCode && r.message == ResponsePy.SuccessMessage
      ensures r.data == RecordJson(Snapshot(), AppType)
    {
      ResponsePy.Success(RecordJson(Snapshot(), AppType), ResponsePy.SuccessMessage)
    }
  }
}
