/**
 * `Xiaohongshu` from the Python service: resolve the share URL, refuse a final
 * URL containing "404", then read the note out of the first script that holds
 * `window.__INITIAL_STATE__` (tokens of the images, live-photo URLs, the video
 * URL) and take the description from the page's meta tags.
 */
module XiaohongshuPy {
  import opened Wrappers
  import opened JsonTree
  import opened PyOps
  import opened PageInput
  import Text
  import FindUrl
  import XhsImage
  import ResponsePy
  import ScriptScan

  const Marker: string := "window.__INITIAL_STATE__"
  const MarkerAssign: string := "window.__INITIAL_STATE__="

  /** `self.image_list`: the initial empty list, or the `Image(...).to_dict()` generator. */
  datatype ImageList = Plain(items: seq<Json>) | Generated(image: XhsImage.Image)

  /** The eight fields `to_dict` reports, less the constant `app_type`. */
  datatype Record = Record(
    url: Option<string>,
    finalUrl: Option<string>,
    title: string,
    description: string,
    imageList: ImageList,
    liveList: seq<Json>,
    video: Json)

  /** What `__init__` assigns before it fetches anything. */
  function Defaults(text: string): Record
  {
    Record(FindUrl.FindUrl(text), None, "", "", Plain([]), [], JStr(""))
  }

  predicate HasMarker(script: string)
  {
    Text.Contains(script, Marker)
  }

  /** The text after the marker assignment, with every `undefined` made `null`. */
  function Payload(script: string): (r: Result<string, PyExc>)
    ensures r.Failure? <==> !Text.Contains(script, MarkerAssign)
    ensures r.Failure? ==> r.error == IndexError("list index out of range")
  {
    match Text.SplitSecond(script, MarkerAssign)
    case None => Failure(IndexError("list index out of range"))
    case Some(rest) => Success(Text.ReplaceAll(rest, "undefined", "null"))
  }

  /** `json.loads` of the payload; a decoder error is re-raised. */
  function ParseState(script: string, parse: PyParser): Result<Json, PyExc>
  {
    var text :- Payload(script);
    match parse(text)
    case Success(d) => Success(d)
    case Failure(m) => Failure(JsonDecodeError(m))
  }

  /** `note.noteDetailMap[note.firstNoteId].note`, every step a `get` with a default. */
  function NoteData(d: Json): Result<Json, PyExc>
  {
    var note :- Get(d, "note", EmptyObj);
    var detailMap :- Get(note, "noteDetailMap", EmptyObj);
    var firstId :- Get(note, "firstNoteId", JStr(""));
    var entry :- GetByValue(detailMap, firstId, EmptyObj);
    Get(entry, "note", EmptyObj)
  }

  /** `x.get("stream", {}).get("h264", [{}])[0].get("masterUrl")`. */
  function MasterUrl(x: Json): Result<Json, PyExc>
  {
    var stream :- Get(x, "stream", EmptyObj);
    var h264 :- Get(stream, "h264", JArr([EmptyObj]));
    var first :- At(h264, 0);
    Get(first, "masterUrl", JNull)
  }

  /** The tokens and live URLs collected from a run of images. */
  datatype Collected = Collected(tokens: seq<Json>, lives: seq<Json>)

  /** One turn of the image loop: a token when `urlDefault` is truthy, a live URL when `masterUrl` is. */
  function Step(image: Json): Result<Collected, PyExc>
  {
    var probe :- Get(image, "urlDefault", JNull);
    var token :- Get(image, "urlDefault", JStr(""));
    var live :- MasterUrl(image);
    Success(Collected(if Truthy(probe) then [token] else [], if Truthy(live) then [live] else []))
  }

  /** The image loop over the first `n` images; the first image that raises decides the error. */
  function CollectUpTo(images: seq<Json>, n: nat): Result<Collected, PyExc>
    requires n <= |images|
  {
    if n == 0 then Success(Collected([], []))
    else
      match CollectUpTo(images, n - 1)
      case Failure(e) => Failure(e)
      case Success(prev) =>
        match Step(images[n - 1])
        case Failure(e) => Failure(e)
        case Success(step) => Success(Collected(prev.tokens + step.tokens, prev.lives + step.lives))
  }

  /** `get_image_list` as a value: the note's `imageList`, iterated. */
  function ImageListOf(d: Json): Result<Collected, PyExc>
  {
    var note :- NoteData(d);
    var images :- Get(note, "imageList", JArr([]));
    var items :- Iter(images);
    CollectUpTo(items, |items|)
  }

  /** `get_video` as a value: `video.media.stream.h264[0].masterUrl`, possibly None. */
  function VideoOf(d: Json): Result<Json, PyExc>
  {
    var note :- NoteData(d);
    var video :- Get(note, "video", EmptyObj);
    var media :- Get(video, "media", EmptyObj);
    MasterUrl(media)
  }

  /** `extract_xiaohongshu_data` applied to the record `r`. */
  function Extract(page: Page, parse: PyParser, kind: string, r: Record): Result<Record, PyExc>
  {
    match ScriptScan.First(page.scripts, HasMarker)
    case None => Success(r)
    case Some(i) => ExtractFrom(page.scripts[i], PyMetaDescription(page), parse, kind, r)
  }

  /** The body of the loop for the marker script that breaks it, then the meta description. */
  function ExtractFrom(script: string, meta: string, parse: PyParser, kind: string, r: Record): Result<Record, PyExc>
  {
    var d :- ParseState(script, parse);
    var c :- ImageListOf(d);
    var v :- VideoOf(d);
    Success(r.(imageList := Generated(XhsImage.Image(c.tokens, kind)),
               liveList := r.liveList + c.lives,
               video := v,
               description := meta))
  }

  /** The whole constructor: the record it leaves, or the exception it re-raises. */
  function Analyze(text: string, kind: string, fetch: string -> PyFetch, parse: PyParser): Result<Record, PyExc>
  {
    var r := Defaults(text);
    // `not self.url`: a found URL always starts with its scheme, so only None is falsy
    match r.url
    case None => Failure(ValueError("无法从文本 '" + text + "' 中提取 URL"))
    case Some(u) =>
      match fetch(u)
      case PyFetchFailed(e) => Failure(HttpError(e))
      case PyFetched(final, page) =>
        if Text.Contains(final, "404") then Failure(ValueError("小红书链接已失效: " + final))
        else Extract(page, parse, kind, r.(finalUrl := Some(final), title := page.title))
  }

  /**
   * Serialising the `to_dict` result: the image generator is consumed here, so
   * an image entry that is not a string raises only at this point.
   */
  function Encode(r: Record): Result<Json, PyExc>
  {
    var images :- match r.imageList
      case Plain(items) => Success(items)
      case Generated(img) =>
        var links :- XhsImage.Links(img);
        Success(seq(|links|, k requires 0 <= k < |links| => JStr(links[k])));
    Success(JObj([("url", OptStr(r.url)), ("final_url", OptStr(r.finalUrl)), ("title", JStr(r.title)),
                  ("description", JStr(r.description)), ("image_list", JArr(images)),
                  ("live_list", JArr(r.liveList)), ("video", r.video), ("app_type", JStr("xiaohongshu"))]))
  }

  // ---------------------------------------------------------------------------
  // Properties of the specification

  /** A final URL containing "404" is refused with a ValueError naming it. */
  lemma NotFoundIsRefused(text: string, kind: string, fetch: string -> PyFetch, parse: PyParser)
    requires FindUrl.FindUrl(text).Some?
    requires fetch(FindUrl.FindUrl(text).value).PyFetched?
    requires Text.Contains(fetch(FindUrl.FindUrl(text).value).finalUrl, "404")
    ensures Analyze(text, kind, fetch, parse)
      == Failure(ValueError("小红书链接已失效: " + fetch(FindUrl.FindUrl(text).value).finalUrl))
  {
  }

  /** Text without a URL is refused before anything is fetched. */
  lemma NoUrlIsRefused(text: string, kind: string, fetch: string -> PyFetch, parse: PyParser)
    requires FindUrl.FindUrl(text).None?
    ensures Analyze(text, kind, fetch, parse) == Failure(ValueError("无法从文本 '" + text + "' 中提取 URL"))
  {
  }

  /** With no marker script nothing is raised and the extracted fields keep their defaults. */
  lemma NoMarkerKeepsDefaults(page: Page, parse: PyParser, kind: string, r: Record)
    requires forall k :: 0 <= k < |page.scripts| ==> !HasMarker(page.scripts[k])
    ensures Extract(page, parse, kind, r) == Success(r)
  {
  }

  /** Only the first marker script is read: every script after it can be dropped. */
  lemma OnlyFirstMarkerScript(page: Page, parse: PyParser, kind: string, r: Record, n: nat)
    requires ScriptScan.First(page.scripts, HasMarker).Some?
    requires ScriptScan.First(page.scripts, HasMarker).value < n <= |page.scripts|
    ensures Extract(page.(scripts := page.scripts[..n]), parse, kind, r) == Extract(page, parse, kind, r)
  {
    var p := page.(scripts := page.scripts[..n]);
    ScriptScan.FirstOfPrefix(page.scripts, HasMarker, n);
    var i := ScriptScan.First(page.scripts, HasMarker).value;
    assert p.scripts[i] == page.scripts[i];
  }

  /** On success the description is always overwritten by the meta description. */
  lemma DescriptionFromMeta(page: Page, parse: PyParser, kind: string, r: Record)
    requires ScriptScan.First(page.scripts, HasMarker).Some?
    requires Extract(page, parse, kind, r).Success?
    ensures Extract(page, parse, kind, r).value.description == PyMetaDescription(page)
    ensures Extract(page, parse, kind, r).value.imageList.Generated?
    ensures Extract(page, parse, kind, r).value.imageList.image.kind == kind
  {
  }

  /** A marker script without the `=` form raises IndexError, whatever the parser. */
  lemma MarkerWithoutAssignRaises(page: Page, parse: PyParser, kind: string, r: Record)
    requires ScriptScan.First(page.scripts, HasMarker).Some?
    requires !Text.Contains(page.scripts[ScriptScan.First(page.scripts, HasMarker).value], MarkerAssign)
    ensures Extract(page, parse, kind, r) == Failure(IndexError("list index out of range"))
  {
  }

  /** An image whose `stream.h264` is an empty list raises IndexError. */
  lemma EmptyH264Raises(image: Json, stream: Json)
    requires image.JObj? && Lookup(image.fields, "stream") == Some(stream)
    requires stream.JObj? && Lookup(stream.fields, "h264") == Some(JArr([]))
    ensures Step(image) == Failure(IndexError("list index out of range"))
  {
  }

  /** A first `h264` entry without `masterUrl` gives None, which the video field keeps. */
  lemma MissingMasterUrlIsNone(x: Json, stream: Json, first: Json, rest: seq<Json>)
    requires x.JObj? && Lookup(x.fields, "stream") == Some(stream)
    requires stream.JObj? && Lookup(stream.fields, "h264") == Some(JArr([first] + rest))
    requires first.JObj? && Lookup(first.fields, "masterUrl").None?
    ensures MasterUrl(x) == Success(JNull)
  {
  }

  /** Every one of the first `n` images gets through one turn of the loop. */
  predicate AllStepsSucceed(images: seq<Json>, n: nat)
    requires n <= |images|
  {
    forall k :: 0 <= k < n ==> Step(images[k]).Success?
  }

  /** The loop fails exactly when some image is not a dict or its live lookup raises. */
  lemma {:induction false} CollectSucceedsIff(images: seq<Json>, n: nat)
    requires n <= |images|
    ensures CollectUpTo(images, n).Success? <==> AllStepsSucceed(images, n)
  {
    if n > 0 {
      CollectSucceedsIff(images, n - 1);
      assert CollectUpTo(images, n).Success?
        <==> CollectUpTo(images, n - 1).Success? && Step(images[n - 1]).Success?;
      assert AllStepsSucceed(images, n) <==> AllStepsSucceed(images, n - 1) && Step(images[n - 1]).Success?;
    }
  }

  /** One image gives at most one token, its truthy `urlDefault`, and at most one truthy live URL. */
  lemma StepFacts(image: Json)
    requires Step(image).Success?
    ensures image.JObj?
    ensures var c := Step(image).value; |c.tokens| <= 1 && |c.lives| <= 1
    ensures forall t :: t in Step(image).value.tokens ==>
      Truthy(t) && Lookup(image.fields, "urlDefault") == Some(t)
    ensures forall l :: l in Step(image).value.lives ==> Truthy(l)
    ensures Lookup(image.fields, "urlDefault").Some? && Truthy(Lookup(image.fields, "urlDefault").value) ==>
      Step(image).value.tokens == [Lookup(image.fields, "urlDefault").value]
  {
  }

  /**
   * Tokens come only from images with a truthy `urlDefault`, so there are at
   * most as many tokens as images, each one truthy and taken from an image;
   * live URLs likewise.
   */
  lemma {:induction false} CollectBounds(images: seq<Json>, n: nat)
    requires n <= |images| && CollectUpTo(images, n).Success?
    ensures |CollectUpTo(images, n).value.tokens| <= n
    ensures |CollectUpTo(images, n).value.lives| <= n
    ensures forall t :: t in CollectUpTo(images, n).value.tokens ==>
      Truthy(t) && exists k :: 0 <= k < n && images[k].JObj? && Lookup(images[k].fields, "urlDefault") == Some(t)
    ensures forall l :: l in CollectUpTo(images, n).value.lives ==> Truthy(l)
  {
    if n > 0 {
      CollectBounds(images, n - 1);
      var prev := CollectUpTo(images, n - 1).value;
      var step := Step(images[n - 1]).value;
      var c := CollectUpTo(images, n).value;
      assert c == Collected(prev.tokens + step.tokens, prev.lives + step.lives);
      StepFacts(images[n - 1]);
      forall t | t in c.tokens
        ensures Truthy(t) && exists k :: 0 <= k < n && images[k].JObj? && Lookup(images[k].fields, "urlDefault") == Some(t)
      {
        if t in prev.tokens {
          var k :| 0 <= k < n - 1 && images[k].JObj? && Lookup(images[k].fields, "urlDefault") == Some(t);
        } else {
          assert t in step.tokens;
        }
      }
      assert forall l :: l in c.lives ==> l in prev.lives || l in step.lives;
    }
  }

  /** When every image has a truthy `urlDefault`, the tokens are exactly those values, in order. */
  lemma {:induction false} CollectAllTokens(images: seq<Json>, n: nat)
    requires n <= |images| && CollectUpTo(images, n).Success?
    requires forall k :: 0 <= k < n ==>
      images[k].JObj? && Lookup(images[k].fields, "urlDefault").Some? && Truthy(Lookup(images[k].fields, "urlDefault").value)
    ensures |CollectUpTo(images, n).value.tokens| == n
    ensures forall k :: 0 <= k < n ==>
      CollectUpTo(images, n).value.tokens[k] == Lookup(images[k].fields, "urlDefault").value
  {
    if n > 0 {
      CollectAllTokens(images, n - 1);
      var prev := CollectUpTo(images, n - 1).value;
      var step := Step(images[n - 1]).value;
      assert CollectUpTo(images, n).value.tokens == prev.tokens + step.tokens;
      StepFacts(images[n - 1]);
    }
  }

  /** One more image: its failure ends the loop, its tokens and live URLs are appended. */
  lemma CollectNext(images: seq<Json>, j: nat)
    requires j < |images| && CollectUpTo(images, j).Success?
    ensures Step(images[j]).Failure? ==> CollectUpTo(images, j + 1) == Failure(Step(images[j]).error)
    ensures Step(images[j]).Success? ==>
      && CollectUpTo(images, j + 1).Success?
      && CollectUpTo(images, j + 1).value.tokens == CollectUpTo(images, j).value.tokens + Step(images[j]).value.tokens
      && CollectUpTo(images, j + 1).value.lives == CollectUpTo(images, j).value.lives + Step(images[j]).value.lives
  {
  }

  /** A failure part-way through the loop is the loop's failure. */
  lemma {:induction false} CollectFailurePersists(images: seq<Json>, j: nat, n: nat)
    requires j <= n <= |images| && CollectUpTo(images, j).Failure?
    ensures CollectUpTo(images, n) == CollectUpTo(images, j)
    decreases n - j
  {
    if j < n {
      CollectFailurePersists(images, j, n - 1);
    }
  }

  /** The serialised record has the eight keys in order and `app_type` "xiaohongshu". */
  lemma EncodeShape(r: Record)
    requires Encode(r).Success?
    ensures Encode(r).value.JObj?
    ensures Keys(Encode(r).value.fields)
      == ["url", "final_url", "title", "description", "image_list", "live_list", "video", "app_type"]
    ensures Encode(r).value.fields[7] == ("app_type", JStr("xiaohongshu"))
    ensures Encode(r).value.fields[1].1 == (if r.finalUrl.Some? then JStr(r.finalUrl.value) else JNull)
  {
  }

  /** Serialisation fails exactly when the image generator raises. */
  lemma EncodeFailsIff(r: Record)
    ensures Encode(r).Failure? <==> r.imageList.Generated? && XhsImage.Links(r.imageList.image).Failure?
  {
  }

  // ---------------------------------------------------------------------------
  // The object

  class Xiaohongshu {
    const text: string
    const url: Option<string>
    const kind: string
    var video: Json
    var imageList: ImageList
    var liveList: seq<Json>
    var description: string
    var finalUrl: Option<string>
    var html: string
    var title: string
    var data: Json
    var dataDict: Option<Json>

    /** The fields `to_dict` reports. */
    function Snapshot(): Record
      reads this
    {
      Record(url, finalUrl, title, description, imageList, liveList, video)
    }

    /** The assignments `__init__` makes before its first check. */
    constructor (text: string, kind: string)
      ensures this.text == text && this.kind == kind
      ensures Snapshot() == Defaults(text)
      ensures html == "" && data == EmptyObj && dataDict.None?
    {
      this.text := text;
      this.url := FindUrl.FindUrl(text);
      this.kind := kind;
      this.video := JStr("");
      this.imageList := Plain([]);
      this.liveList := [];
      this.description := "";
      this.finalUrl := None;
      this.html := "";
      this.title := "";
      this.data := EmptyObj;
      this.dataDict := None;
    }

    /** The rest of `__init__`: the URL check, the fetch, the 404 check and the extraction. */
    method Load(fetch: string -> PyFetch, parse: PyParser) returns (err: Option<PyExc>)
      requires Snapshot() == Defaults(text)
      modifies this
      ensures err.None? <==> Analyze(text, kind, fetch, parse).Success?
      ensures err.Some? ==> Analyze(text, kind, fetch, parse) == Failure(err.value)
      ensures err.None? ==> Snapshot() == Analyze(text, kind, fetch, parse).value
    {
      if url.None? {
        return Some(ValueError("无法从文本 '" + text + "' 中提取 URL"));
      }
      match fetch(url.value) {
        case PyFetchFailed(e) =>
          return Some(HttpError(e));
        case PyFetched(final, page) =>
          finalUrl := Some(final);
          if Text.Contains(final, "404") {
            return Some(ValueError("小红书链接已失效: " + final));
          }
          html := page.html;
          title := page.title;
          err := ExtractXiaohongshuData(page, parse);
      }
    }

    /** `extract_xiaohongshu_data`: the first marker script is parsed and read, then the loop stops. */
    method ExtractXiaohongshuData(page: Page, parse: PyParser) returns (err: Option<PyExc>)
      modifies this
      ensures err.None? <==> Extract(page, parse, kind, old(Snapshot())).Success?
      ensures err.Some? ==> Extract(page, parse, kind, old(Snapshot())) == Failure(err.value)
      ensures err.None? ==> Snapshot() == Extract(page, parse, kind, old(Snapshot())).value
    {
      data := EmptyObj;
      for i := 0 to |page.scripts|
        invariant forall k :: 0 <= k < i ==> !HasMarker(page.scripts[k])
        invariant Snapshot() == old(Snapshot())
      {
        if HasMarker(page.scripts[i]) {
          assert ScriptScan.First(page.scripts, HasMarker) == Some(i);
          err := ReadMarkerScript(page.scripts[i], page, parse);
          return;
        }
      }
      return None;
    }

    /** The body of the loop for the first marker script: parse, read images and video, then the meta description. */
    method ReadMarkerScript(script: string, page: Page, parse: PyParser) returns (err: Option<PyExc>)
      modifies this
      ensures err.None? <==> ExtractFrom(script, PyMetaDescription(page), parse, kind, old(Snapshot())).Success?
      ensures err.Some? ==> ExtractFrom(script, PyMetaDescription(page), parse, kind, old(Snapshot())) == Failure(err.value)
      ensures err.None? ==> Snapshot() == ExtractFrom(script, PyMetaDescription(page), parse, kind, old(Snapshot())).value
    {
      var split := Text.SplitSecond(script, MarkerAssign);
      if split.None? {
        return Some(IndexError("list index out of range"));
      }
      var payload := Text.ReplaceAll(split.value, "undefined", "null");
      match parse(payload) {
        case Failure(m) =>
          return Some(JsonDecodeError(m));
        case Success(d) =>
          dataDict := Some(d);
      }
      err := GetImageList();
      if err.Some? {
        return;
      }
      err := GetVideo();
      if err.Some? {
        return;
      }
      GetMetaDescription(page);
      return None;
    }

    /** `get_meta_description`: the `name=description` tag, else `og:description`, else "". */
    method GetMetaDescription(page: Page)
      modifies this
      ensures Snapshot() == old(Snapshot()).(description := PyMetaDescription(page))
      ensures dataDict == old(dataDict)
    {
      description := PyMetaDescription(page);
    }

    /** `get_image_list`: tokens of the images with a truthy `urlDefault`; truthy live URLs appended. */
    method GetImageList() returns (err: Option<PyExc>)
      requires dataDict.Some?
      modifies this
      ensures err.None? <==> ImageListOf(old(dataDict.value)).Success?
      ensures err.Some? ==> ImageListOf(old(dataDict.value)) == Failure(err.value)
      ensures err.None? ==> var c := ImageListOf(old(dataDict.value)).value;
        Snapshot() == old(Snapshot()).(imageList := Generated(XhsImage.Image(c.tokens, kind)),
                                       liveList := old(liveList) + c.lives)
      ensures dataDict == old(dataDict)
    {
      var note := NoteData(dataDict.value);
      if note.Failure? {
        return Some(note.error);
      }
      var images := Get(note.value, "imageList", JArr([]));
      if images.Failure? {
        return Some(images.error);
      }
      var items := Iter(images.value);
      if items.Failure? {
        return Some(items.error);
      }
      var tokenList;
      err, tokenList := CollectImages(items.value);
      if err.Some? {
        return;
      }
      imageList := Generated(XhsImage.Image(tokenList, kind));
    }

    /** The `for image in image_list` loop of `get_image_list`. */
    method CollectImages(xs: seq<Json>) returns (err: Option<PyExc>, tokenList: seq<Json>)
      modifies this`liveList
      ensures err.None? <==> CollectUpTo(xs, |xs|).Success?
      ensures err.Some? ==> CollectUpTo(xs, |xs|) == Failure(err.value)
      ensures err.None? ==> tokenList == CollectUpTo(xs, |xs|).value.tokens
      ensures err.None? ==> liveList == old(liveList) + CollectUpTo(xs, |xs|).value.lives
    {
      tokenList := [];
      for j := 0 to |xs|
        invariant CollectUpTo(xs, j).Success?
        invariant CollectUpTo(xs, j).value.tokens == tokenList
        invariant liveList == old(liveList) + CollectUpTo(xs, j).value.lives
      {
        CollectNext(xs, j);
        var e, toks := CollectImage(xs[j]);
        if e.Some? {
          CollectFailurePersists(xs, j + 1, |xs|);
          return e, tokenList;
        }
        tokenList := tokenList + toks;
      }
      return None, tokenList;
    }

    /** One turn of the image loop: the token it contributes; a truthy live URL is appended to `liveList`. */
    method CollectImage(image: Json) returns (err: Option<PyExc>, toks: seq<Json>)
      modifies this`liveList
      ensures err.Some? <==> Step(image).Failure?
      ensures err.Some? ==> Step(image) == Failure(err.value)
      ensures err.None? ==> toks == Step(image).value.tokens
      ensures err.None? ==> liveList == old(liveList) + Step(image).value.lives
    {
      toks := [];
      var probe := Get(image, "urlDefault", JNull);
      if probe.Failure? {
        return Some(probe.error), toks;
      }
      if Truthy(probe.value) {
        var token := Get(image, "urlDefault", JStr(""));
        toks := [token.value];
      }
      var live := MasterUrl(image);
      if live.Failure? {
        return Some(live.error), toks;
      }
      if Truthy(live.value) {
        liveList := liveList + [live.value];
      }
      return None, toks;
    }

    /** `get_video`: the note's `video.media` master URL, None when the entry lacks one. */
    method GetVideo() returns (err: Option<PyExc>)
      requires dataDict.Some?
      modifies this
      ensures err.None? <==> VideoOf(old(dataDict.value)).Success?
      ensures err.Some? ==> VideoOf(old(dataDict.value)) == Failure(err.value)
      ensures err.None? ==> Snapshot() == old(Snapshot()).(video := VideoOf(old(dataDict.value)).value)
      ensures dataDict == old(dataDict)
    {
      var v := VideoOf(dataDict.value);
      if v.Failure? {
        return Some(v.error);
      }
      video := v.value;
      return None;
    }

    /** `to_dict`: the record in a code-200 envelope with the message 获取成功. */
    function ToDict(): (r: ResponsePy.Response<Record>)
      reads this
      ensures r.code == ResponsePy.SuccessCode && r.message == ResponsePy.SuccessMessage
      ensures r.data == Snapshot()
    {
      ResponsePy.Success(Snapshot(), ResponsePy.SuccessMessage)
    }
  }

  /** `Xiaohongshu(text, type)`: the object, or the exception its constructor re-raises. */
  method Create(text: string, kind: string, fetch: string -> PyFetch, parse: PyParser)
    returns (r: Result<Xiaohongshu, PyExc>)
    ensures r.Success? <==> Analyze(text, kind, fetch, parse).Success?
    ensures r.Failure? ==> Analyze(text, kind, fetch, parse) == Failure(r.error)
    ensures r.Success? ==> r.value.Snapshot() == Analyze(text, kind, fetch, parse).value
  {
    var x := new Xiaohongshu(text, kind);
    var err := x.Load(fetch, parse);
    if err.Some? {
      return Failure(err.value);
    }
    return Success(x);
  }
}
