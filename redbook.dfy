/**
 * `RedBook` from the Python service: a note-site reader whose constructor
 * never raises.  Every failure leaves empty defaults; an unusable page state
 * is replaced by a fallback dictionary built from the page itself; `to_dict`
 * is all-or-nothing.
 */
module RedBook {
  import opened Wrappers
  import opened JsonTree
  import opened PyOps
  import opened PageInput
  import Text
  import FindUrl
  import ScriptScan

  const Marker: string := "window.__INITIAL_STATE__"
  const MarkerAssign: string := "window.__INITIAL_STATE__="

  /** The attributes the constructor leaves and `to_dict` reads. */
  datatype State = State(url: Option<string>, finalUrl: Option<string>, html: string, title: string, data: Json)

  /** The state after any failure: both URLs None, empty texts, `data` an empty dict. */
  function FailedState(): State
  {
    State(None, None, "", "", EmptyObj)
  }

  /**
   * A script the loop uses: it holds the marker and the `=` form splits; a
   * marker script without the `=` form raises IndexError inside the loop and
   * is skipped.
   */
  predicate Usable(script: string)
  {
    Text.Contains(script, Marker) && Text.Contains(script, MarkerAssign)
  }

  /**
   * `get_all_images`: the truthy `src` of every `<img>`, given in document
   * order; a src appears in the result exactly when it is non-empty.
   */
  function AllImages(sources: seq<string>): (r: seq<Json>)
    ensures |r| <= |sources|
    ensures forall k :: 0 <= k < |r| ==> r[k].JStr? && r[k].s != ""
    ensures forall s :: JStr(s) in r <==> s in sources && s != ""
  {
    if |sources| == 0 then []
    else (if sources[0] != "" then [JStr(sources[0])] else []) + AllImages(sources[1..])
  }

  /** Document order is kept: the images of two runs of `<img>` tags are the two results one after the other. */
  lemma {:induction false} AllImagesInOrder(a: seq<string>, b: seq<string>)
    ensures AllImages(a + b) == AllImages(a) + AllImages(b)
  {
    if a == [] {
      assert a + b == b;
    } else {
      assert (a + b)[1..] == a[1..] + b;
      AllImagesInOrder(a[1..], b);
    }
  }

  /** The dictionary used when the page state is missing or falsy. */
  function Fallback(page: Page, title: string): Json
  {
    JObj([("title", JStr(title)), ("meta_description", JStr(PyMetaDescription(page))), ("images", JArr(AllImages(page.imageSources)))])
  }

  /**
   * What `self.data` holds after `extract_redbook_data`: the parsed text after
   * the marker of the first usable script (no `undefined` rewrite; a decoder
   * error leaves `{}` and still ends the loop), replaced by the fallback when falsy.
   */
  function ExtractedData(page: Page, parse: PyParser, title: string): Json
  {
    var d := ScannedData(page, parse);
    if Truthy(d) then d else Fallback(page, title)
  }

  /** What the script loop leaves in `self.data`. */
  function ScannedData(page: Page, parse: PyParser): Json
  {
    match ScriptScan.First(page.scripts, Usable)
    case None => EmptyObj
    case Some(i) => ScriptData(page.scripts[i], parse)
  }

  /** The decoded text after the marker of a usable script; a decoder error leaves `{}`. */
  function ScriptData(script: string, parse: PyParser): Json
    requires Usable(script)
  {
    match parse(Text.SplitSecond(script, MarkerAssign).value)
    case Success(v) => v
    case Failure(_) => EmptyObj
  }

  /** The whole constructor. */
  function Construct(text: string, fetch: string -> PyFetch, parse: PyParser): State
  {
    match FindUrl.FindUrl(text)
    case None => FailedState()
    case Some(u) =>
      match fetch(u)
      case PyFetchFailed(_) => FailedState().(url := Some(u))
      case PyFetched(final, page) => State(Some(u), Some(final), page.html, page.title, ExtractedData(page, parse, page.title))
  }

  /** `self.data['noteData']['data']['noteData']`. */
  function NoteData(data: Json): Result<Json, PyExc>
  {
    var a :- Sub(data, "noteData");
    var b :- Sub(a, "data");
    Sub(b, "noteData")
  }

  /** `image['url']` for the first `n` images; the first image that raises decides the error. */
  function ImageUrls(images: seq<Json>, n: nat): Result<seq<Json>, PyExc>
    requires n <= |images|
  {
    if n == 0 then Success([])
    else
      match ImageUrls(images, n - 1)
      case Failure(e) => Failure(e)
      case Success(prev) =>
        match Sub(images[n - 1], "url")
        case Failure(e) => Failure(e)
        case Success(u) => Success(prev + [u])
  }

  /** The dictionary `to_dict` builds, or the exception it swallows. */
  function ToDictResult(s: State): Result<Json, PyExc>
  {
    var note :- NoteData(s.data);
    var imageList :- Sub(note, "imageList");
    var images :- Iter(imageList);
    var urls :- ImageUrls(images, |images|);
    var desc :- Sub(note, "desc");
    Success(JObj([("data", JObj([("url", OptStr(s.url)), ("final_url", OptStr(s.finalUrl)), ("title", JStr(s.title)),
                                 ("description", desc), ("image_list", JArr(urls))]))]))
  }

  /** `to_dict`: any exception gives `{}`. */
  function ToDictSpec(s: State): Json
  {
    match ToDictResult(s)
    case Success(d) => d
    case Failure(_) => EmptyObj
  }

  // ---------------------------------------------------------------------------
  // Properties of the specification

  /** Text without a URL leaves every attribute at its failure default. */
  lemma NoUrlGivesDefaults(text: string, fetch: string -> PyFetch, parse: PyParser)
    requires FindUrl.FindUrl(text).None?
    ensures Construct(text, fetch, parse) == State(None, None, "", "", JObj([]))
  {
  }

  /** A failed fetch keeps the URL and resets everything else. */
  lemma FetchFailureGivesDefaults(text: string, fetch: string -> PyFetch, parse: PyParser)
    requires FindUrl.FindUrl(text).Some? && fetch(FindUrl.FindUrl(text).value).PyFetchFailed?
    ensures Construct(text, fetch, parse) == State(FindUrl.FindUrl(text), None, "", "", JObj([]))
  {
  }

  /** After a successful fetch `data` is never empty: it is the page state or the fallback. */
  lemma DataIsStateOrFallback(page: Page, parse: PyParser, title: string)
    ensures Truthy(ExtractedData(page, parse, title))
    ensures ExtractedData(page, parse, title) == Fallback(page, title)
      || (ScriptScan.First(page.scripts, Usable).Some?
          && parse(Text.SplitSecond(page.scripts[ScriptScan.First(page.scripts, Usable).value], MarkerAssign).value)
             == Success(ExtractedData(page, parse, title)))
  {
  }

  /** A decoder error on the first usable script ends the search: the fallback is used even if a later script parses. */
  lemma DecodeErrorStopsSearch(page: Page, parse: PyParser, title: string)
    requires ScriptScan.First(page.scripts, Usable).Some?
    requires parse(Text.SplitSecond(page.scripts[ScriptScan.First(page.scripts, Usable).value], MarkerAssign).value).Failure?
    ensures ExtractedData(page, parse, title) == Fallback(page, title)
  {
  }

  /** With no usable script the fallback carries the title, the meta description and the truthy image sources. */
  lemma NoStateGivesFallback(page: Page, parse: PyParser, title: string)
    requires forall k :: 0 <= k < |page.scripts| ==> !Usable(page.scripts[k])
    ensures ExtractedData(page, parse, title)
      == JObj([("title", JStr(title)), ("meta_description", JStr(PyMetaDescription(page))), ("images", JArr(AllImages(page.imageSources)))])
  {
  }

  /** The image loop fails exactly when some image lacks a `url` key (or is not a dict). */
  lemma {:induction false} ImageUrlsSucceedsIff(images: seq<Json>, n: nat)
    requires n <= |images|
    ensures ImageUrls(images, n).Success? <==> forall k :: 0 <= k < n ==> Sub(images[k], "url").Success?
  {
    if n > 0 {
      ImageUrlsSucceedsIff(images, n - 1);
      assert ImageUrls(images, n).Success? <==> ImageUrls(images, n - 1).Success? && Sub(images[n - 1], "url").Success?;
    }
  }

  /** On success the list holds each image's `url`, in order. */
  lemma {:induction false} ImageUrlsInOrder(images: seq<Json>, n: nat)
    requires n <= |images| && ImageUrls(images, n).Success?
    ensures |ImageUrls(images, n).value| == n
    ensures forall k :: 0 <= k < n ==> Sub(images[k], "url") == Success(ImageUrls(images, n).value[k])
  {
    if n > 0 {
      ImageUrlsInOrder(images, n - 1);
    }
  }

  lemma {:induction false} ImageUrlsFailurePersists(images: seq<Json>, j: nat, n: nat)
    requires j <= n <= |images| && ImageUrls(images, j).Failure?
    ensures ImageUrls(images, n) == ImageUrls(images, j)
    decreases n - j
  {
    if j < n {
      ImageUrlsFailurePersists(images, j, n - 1);
    }
  }

  /** `to_dict` is all-or-nothing: `{}`, or `{"data": ...}` with exactly the five keys. */
  lemma ToDictAllOrNothing(s: State)
    ensures ToDictSpec(s) == EmptyObj <==> ToDictResult(s).Failure?
    ensures ToDictResult(s).Success? ==>
      var d := ToDictSpec(s);
      d.JObj? && |d.fields| == 1 && d.fields[0].0 == "data" && d.fields[0].1.JObj?
      && Keys(d.fields[0].1.fields) == ["url", "final_url", "title", "description", "image_list"]
  {
  }

  /** The failure defaults never convert: `to_dict` gives `{}`. */
  lemma FailedStateGivesEmpty(text: string, fetch: string -> PyFetch, parse: PyParser)
    requires FindUrl.FindUrl(text).None? || fetch(FindUrl.FindUrl(text).value).PyFetchFailed?
    ensures ToDictSpec(Construct(text, fetch, parse)) == EmptyObj
  {
    assert Construct(text, fetch, parse).data == EmptyObj;
  }

  // ---------------------------------------------------------------------------
  // The object

  class RedBook {
    const text: string
    const url: Option<string>
    var finalUrl: Option<string>
    var html: string
    var title: string
    var data: Json

    function Snapshot(): State
      reads this
    {
      State(url, finalUrl, html, title, data)
    }

    /** `RedBook(text)`: never raises; failures leave the defaults. */
    constructor (text: string, fetch: string -> PyFetch, parse: PyParser)
      ensures this.text == text
      ensures Snapshot() == Construct(text, fetch, parse)
    {
      this.text := text;
      this.url := FindUrl.FindUrl(text);
      this.finalUrl := None;
      this.html := "";
      this.title := "";
      this.data := EmptyObj;
      new;
      if url.None? {
        return;
      }
      match fetch(url.value) {
        case PyFetchFailed(_) =>
        case PyFetched(final, page) =>
          finalUrl := Some(final);
          html := page.html;
          title := page.title;
          ExtractRedbookData(page, parse);
      }
    }

    /** `extract_redbook_data`: the first usable script, else the fallback dictionary. */
    method ExtractRedbookData(page: Page, parse: PyParser)
      modifies this`data
      ensures data == ExtractedData(page, parse, title)
    {
      data := EmptyObj;
      for i := 0 to |page.scripts|
        invariant forall k :: 0 <= k < i ==> !Usable(page.scripts[k])
        invariant data == EmptyObj
      {
        var done := ReadScript(page.scripts[i], parse);
        if done {
          assert ScriptScan.First(page.scripts, Usable) == Some(i);
          break;
        }
      }
      assert data == ScannedData(page, parse);
      if !Truthy(data) {
        data := Fallback(page, title);
      }
    }

    /** One turn of the script loop: a usable script sets `data` and ends the loop; any other is skipped. */
    method ReadScript(script: string, parse: PyParser) returns (done: bool)
      requires data == EmptyObj
      modifies this`data
      ensures done <==> Usable(script)
      ensures done ==> data == ScriptData(script, parse)
      ensures !done ==> data == old(data)
    {
      if !Text.Contains(script, Marker) {
        return false;
      }
      var split := Text.SplitSecond(script, MarkerAssign);
      if split.None? {
        return false;
      }
      match parse(split.value) {
        case Success(v) => data := v;
        case Failure(_) =>
      }
      return true;
    }

    /** `to_dict`: the image loop, then the five-key record under "data"; `{}` on any exception. */
    method ToDict() returns (d: Json)
      ensures d == ToDictSpec(Snapshot())
    {
      var note := NoteData(data);
      if note.Failure? {
        return EmptyObj;
      }
      var imageList := Sub(note.value, "imageList");
      if imageList.Failure? {
        return EmptyObj;
      }
      var images := Iter(imageList.value);
      if images.Failure? {
        return EmptyObj;
      }
      var xs := images.value;
      var urls: seq<Json> := [];
      for j := 0 to |xs|
        invariant ImageUrls(xs, j) == Success(urls)
      {
        var u := Sub(xs[j], "url");
        if u.Failure? {
          ImageUrlsFailurePersists(xs, j + 1, |xs|);
          return EmptyObj;
        }
        urls := urls + [u.value];
      }
      var desc := Sub(note.value, "desc");
      if desc.Failure? {
        return EmptyObj;
      }
      return JObj([("data", JObj([("url", OptStr(url)), ("final_url", OptStr(finalUrl)), ("title", JStr(title)),
                                  ("description", desc.value), ("image_list", JArr(urls))]))]);
    }
  }
}
