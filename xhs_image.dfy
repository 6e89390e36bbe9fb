/**
 * `Image` from the Python note-site extractor: takes a CDN token out of an
 * image URL and rebuilds a webp or png link from it.
 */
module XhsImage {
  import opened Wrappers
  import opened JsonTree
  import opened PyOps
  import Text

  const WebpBase: string := "https://sns-img-bd.xhscdn.com/"
  const PngBase: string := "https://ci.xiaohongshu.com/"
  const PngSuffix: string := "?imageView2/format/png"

  /** `url.split("/")[-1].split("!")[0]`: the last path segment, cut at its first `!`. */
  function LastSegmentHead(url: string): string
  {
    var arr := Text.SplitOn(url, '/');
    Text.SplitOn(arr[|arr| - 1], '!')[0]
  }

  /** The segment head holds neither separator. */
  lemma HeadLacksSeparators(url: string)
    ensures '!' !in LastSegmentHead(url) && '/' !in LastSegmentHead(url)
  {
    var arr := Text.SplitOn(url, '/');
    var last := arr[|arr| - 1];
    Text.SplitOnPiecesLackSeparator(url, '/');
    Text.SplitOnPiecesLackSeparator(last, '!');
    SplitOnFirstIsPrefix(last, '!');
    var head := Text.SplitOn(last, '!')[0];
    assert forall c :: c in head ==> c in last by {
      forall c | c in head ensures c in last {
        var k :| 0 <= k < |head| && head[k] == c;
        assert last[k] == c;
      }
    }
  }

  lemma {:induction false} SplitOnFirstIsPrefix(s: string, c: char)
    ensures Text.SplitOn(s, c)[0] <= s
    decreases |s|
  {
    if |s| > 0 && s[0] != c {
      SplitOnFirstIsPrefix(s[1..], c);
    }
  }

  /** `get_image_token(url)`. */
  function GetImageToken(url: string): string
  {
    if Text.PrePost in Text.SplitOn(url, '/') then "/" + Text.PrePost + "/" + LastSegmentHead(url)
    else LastSegmentHead(url)
  }

  /** A token never contains `!`: the size suffix after it is always cut off. */
  lemma TokenHasNoBang(url: string)
    ensures '!' !in GetImageToken(url)
  {
    var h := LastSegmentHead(url);
    HeadLacksSeparators(url);
    if Text.PrePost in Text.SplitOn(url, '/') {
      assert GetImageToken(url) == "/" + Text.PrePost + "/" + h;
      assert '!' !in "/" + Text.PrePost + "/";
    }
  }

  /**
   * A lone segment without separators is its own token, except the bare word
   * `notes_pre_post`, which gains the `/notes_pre_post/` prefix.
   */
  lemma SegmentToken(h: string)
    requires '!' !in h && '/' !in h
    ensures GetImageToken(h) == if h == Text.PrePost then "/" + Text.PrePost + "/" + h else h
  {
    Text.SplitOnWithoutSeparator(h, '/');
    Text.SplitOnWithoutSeparator(h, '!');
    assert LastSegmentHead(h) == h;
  }

  /** A pre-post token splits into "", `notes_pre_post` and the head. */
  lemma PrePostTokenSegments(h: string)
    requires '!' !in h && '/' !in h
    ensures Text.SplitOn("/" + Text.PrePost + "/" + h, '/') == ["", Text.PrePost, h]
  {
    var t := "/" + Text.PrePost + "/" + h;
    assert t == [] + ['/'] + (Text.PrePost + "/" + h);
    Text.SplitOnAfterPiece([], Text.PrePost + "/" + h, '/');
    assert Text.PrePost + "/" + h == Text.PrePost + ['/'] + h;
    Text.SplitOnAfterPiece(Text.PrePost, h, '/');
    Text.SplitOnWithoutSeparator(h, '/');
  }

  /**
   * `get_image_token` is idempotent exactly when its result is not the bare
   * word `notes_pre_post` (which happens for a URL like `a/notes_pre_post!x`).
   */
  lemma {:induction false} GetImageTokenIdempotentIff(url: string)
    ensures GetImageToken(GetImageToken(url)) == GetImageToken(url) <==> GetImageToken(url) != Text.PrePost
  {
    var h := LastSegmentHead(url);
    var t := GetImageToken(url);
    HeadLacksSeparators(url);
    if Text.PrePost in Text.SplitOn(url, '/') {
      PrePostTokenSegments(h);
      assert Text.SplitOn(t, '/')[2] == h;
      assert LastSegmentHead(t) == Text.SplitOn(h, '!')[0];
      Text.SplitOnWithoutSeparator(h, '!');
      assert t != Text.PrePost by { assert |t| > |Text.PrePost|; }
    } else if h == Text.PrePost {
      Text.SplitOnWithoutSeparator(h, '/');
      assert Text.SplitOn(t, '/') == [Text.PrePost];
      assert |GetImageToken(t)| > |t|;
    } else {
      SegmentToken(h);
    }
  }

  lemma TwoSegments(dir: string, tail: string)
    requires '/' !in dir && '/' !in tail
    ensures Text.SplitOn(dir + "/" + tail, '/') == [dir, tail]
  {
    assert dir + "/" + tail == dir + ['/'] + tail;
    Text.SplitOnAfterPiece(dir, tail, '/');
    Text.SplitOnWithoutSeparator(tail, '/');
  }

  /**
   * The URLs that break idempotence: a last segment `notes_pre_post!...`
   * behind a directory that is not itself `notes_pre_post` yields the bare word.
   */
  lemma GetImageTokenNotIdempotent(dir: string, size: string)
    requires '/' !in dir && '/' !in size && '!' !in size && dir != Text.PrePost
    ensures GetImageToken(dir + "/" + Text.PrePost + "!" + size) == Text.PrePost
    ensures GetImageToken(GetImageToken(dir + "/" + Text.PrePost + "!" + size)) != Text.PrePost
  {
    var tail := Text.PrePost + "!" + size;
    assert '/' !in tail;
    TwoSegments(dir, tail);
    assert dir + "/" + Text.PrePost + "!" + size == dir + "/" + tail;
    assert tail == Text.PrePost + ['!'] + size;
    Text.SplitOnAfterPiece(Text.PrePost, size, '!');
    var h := LastSegmentHead(dir + "/" + tail);
    assert h == Text.PrePost;
    SegmentToken(h);
  }

  /** `__generate_webp_link(token)`. */
  function WebpLink(token: string): string
  {
    WebpBase + token
  }

  /** `__generate_png_link(token)`. */
  function PngLink(token: string): string
  {
    PngBase + token + PngSuffix
  }

  /** A pre-post token gives a webp link with a double slash after the host. */
  lemma WebpLinkDoubleSlash(url: string)
    requires Text.PrePost in Text.SplitOn(url, '/')
    ensures WebpLink(GetImageToken(url)) == WebpBase + "/" + Text.PrePost + "/" + LastSegmentHead(url)
    ensures WebpLink(GetImageToken(url))[|WebpBase| - 1..|WebpBase| + 1] == "//"
  {
  }

  /** The two output formats; anything else yields nothing. */
  datatype Format = Webp | Png

  function FormatOf(kind: string): Option<Format>
  {
    if kind == "webp" then Some(Webp) else if kind == "png" then Some(Png) else None
  }

  function LinkFor(f: Format, token: string): string
  {
    match f
    case Webp => WebpLink(token)
    case Png => PngLink(token)
  }

  /** `Image(image_list, type)`: the collected tokens, each as the parsed JSON value it was. */
  datatype Image = Image(imageList: seq<Json>, kind: string)

  /** What `url.split` raises on an item that is not a string. */
  function NotAString(item: Json): PyExc
  {
    NoAttribute(item, "split")
  }

  /** One link per item from position `i` on, failing at the first item that is not a string. */
  function LinksFrom(items: seq<Json>, link: string -> string, i: nat): (r: Result<seq<string>, PyExc>)
    requires i <= |items|
    decreases |items| - i
    ensures r.Success? ==> |r.value| == |items| - i
  {
    if i == |items| then Success([])
    else if !items[i].JStr? then Failure(NotAString(items[i]))
    else
      match LinksFrom(items, link, i + 1)
      case Success(rest) => Success([link(items[i].s)] + rest)
      case Failure(e) => Failure(e)
  }

  /** The link one image URL turns into in format `f`. */
  function ImageLink(f: Format, url: string): string
  {
    LinkFor(f, GetImageToken(url))
  }

  /** What consuming the `to_dict` generator gives. */
  function Links(img: Image): Result<seq<string>, PyExc>
  {
    match FormatOf(img.kind)
    case None => Success([])
    case Some(f) => LinksFrom(img.imageList, u => ImageLink(f, u), 0)
  }

  /** Item `k` of a successful run is the link of the `k`-th URL. */
  lemma {:induction false} LinksFromAt(items: seq<Json>, link: string -> string, i: nat, k: nat)
    requires i <= k < |items|
    requires LinksFrom(items, link, i).Success?
    ensures items[k].JStr?
    ensures LinksFrom(items, link, i).value[k - i] == link(items[k].s)
    decreases k - i
  {
    if i < k {
      LinksFromAt(items, link, i + 1, k);
    }
  }

  /** A run succeeds exactly when every remaining item is a string. */
  lemma {:induction false} LinksFromSucceedsIff(items: seq<Json>, link: string -> string, i: nat)
    requires i <= |items|
    ensures LinksFrom(items, link, i).Success? <==> forall k :: i <= k < |items| ==> items[k].JStr?
    decreases |items| - i
  {
    if i < |items| {
      LinksFromSucceedsIff(items, link, i + 1);
    }
  }

  /** A run fails with the error of the first item that is not a string. */
  lemma {:induction false} LinksFromFailsAt(items: seq<Json>, link: string -> string, j: nat, i: nat)
    requires j <= i < |items| && !items[i].JStr?
    requires forall k :: j <= k < i ==> items[k].JStr?
    ensures LinksFrom(items, link, j) == Failure(NotAString(items[i]))
    decreases i - j
  {
    if j < i {
      LinksFromFailsAt(items, link, j + 1, i);
    }
  }

  /** A run over string items is the sequence of their links. */
  lemma LinksFromExact(items: seq<Json>, link: string -> string, links: seq<string>)
    requires |links| == |items|
    requires forall k :: 0 <= k < |items| ==> items[k].JStr? && links[k] == link(items[k].s)
    ensures LinksFrom(items, link, 0) == Success(links)
  {
    LinksFromSucceedsIff(items, link, 0);
    var r := LinksFrom(items, link, 0).value;
    forall k | 0 <= k < |items| ensures r[k] == links[k] {
      LinksFromAt(items, link, 0, k);
    }
    assert r == links;
  }

  /**
   * `to_dict` for webp and png: it fails exactly when some item is not a string,
   * and otherwise gives one link per item, in order; any other type gives nothing.
   */
  lemma LinksShape(img: Image)
    ensures FormatOf(img.kind).None? ==> Links(img) == Success([])
    ensures FormatOf(img.kind).Some? ==>
      (Links(img).Success? <==> forall k :: 0 <= k < |img.imageList| ==> img.imageList[k].JStr?)
    ensures FormatOf(img.kind).Some? && Links(img).Success? ==>
      && |Links(img).value| == |img.imageList|
      && forall k :: 0 <= k < |img.imageList| ==>
           Links(img).value[k] == ImageLink(FormatOf(img.kind).value, img.imageList[k].s)
  {
    if FormatOf(img.kind).Some? {
      var f := FormatOf(img.kind).value;
      var link := u => ImageLink(f, u);
      LinksFromSucceedsIff(img.imageList, link, 0);
      if Links(img).Success? {
        forall k | 0 <= k < |img.imageList|
          ensures Links(img).value[k] == ImageLink(f, img.imageList[k].s)
        {
          LinksFromAt(img.imageList, link, 0, k);
        }
      }
    }
  }

  /** Consuming the `to_dict` generator: the loop over the URLs that yields one link each. */
  method ToDict(img: Image) returns (r: Result<seq<string>, PyExc>)
    ensures r == Links(img)
  {
    var f: Format;
    if img.kind == "webp" {
      f := Webp;
    } else if img.kind == "png" {
      f := Png;
    } else {
      return Success([]);
    }
    var items := img.imageList;
    var link := u => ImageLink(f, u);
    var yielded: seq<string> := [];
    for i := 0 to |items|
      invariant forall k :: 0 <= k < i ==> items[k].JStr?
      invariant |yielded| == i
      invariant forall k :: 0 <= k < i ==> yielded[k] == ImageLink(f, items[k].s)
    {
      if !items[i].JStr? {
        r := Failure(NotAString(items[i]));
        LinksFromFailsAt(items, link, 0, i);
        return;
      }
      var token := GetImageToken(items[i].s);
      yielded := yielded + [LinkFor(f, token)];
    }
    r := Success(yielded);
    LinksFromExact(items, link, yielded);
  }
}
