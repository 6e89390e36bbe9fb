/**
 * `process_analyze`, the Python `/analyze` route: keyword-priority
 * classification of the posted text, dispatch to one extractor class, and the
 * outer handler that turns every exception into HTTP 500.
 */
module AnalyzeRoute {
  import opened Wrappers
  import opened JsonTree
  import opened PyOps
  import opened PageInput
  import Text
  import ResponsePy
  import XiaohongshuPy
  import XhsImage
  import Tiktok
  import Kuaishou
  import MediaPy

  datatype AppType = XiaohongshuApp | DouyinApp | KuaishouApp | WeiboApp

  /** The keyword table of the configuration, one list per platform. */
  const XiaohongshuKeywords: seq<string> := ["小红书", "xhs", "xiaohongshu"]
  const DouyinKeywords: seq<string> := ["抖音", "douyin", "dy"]
  const KuaishouKeywords: seq<string> := ["快手", "kuaishou", "ks"]
  const WeiboKeywords: seq<string> := ["微博", "weibo", "wb"]

  /** What `raise` of a dictionary raises in its place. */
  const NotAnException: string := "exceptions must derive from BaseException"

  /** What the route hands back to the framework. */
  datatype Outcome =
    /** A returned dictionary, serialised as the response body. */
    | Body(json: Json)
    /** `HTTPException(status_code, detail)` raised by the outer handler. */
    | HttpException(status: int, detail: string)
    /** An exception raised while serialising the returned value, outside the route's `try`. */
    | SerialisationError(error: PyExc)

  /** `any(keyword in url for keyword in keywords)`: case-sensitive substring search. */
  function MatchesAny(keywords: seq<string>, url: string): (b: bool)
    ensures b <==> exists k :: 0 <= k < |keywords| && Text.Contains(url, keywords[k])
  {
    if keywords == [] then false
    else Text.Contains(url, keywords[0]) || MatchesAny(keywords[1..], url)
  }

  /** The if/elif chain: xiaohongshu, then douyin, then kuaishou, then weibo. */
  function Classify(url: string): Option<AppType>
  {
    if MatchesAny(XiaohongshuKeywords, url) then Some(XiaohongshuApp)
    else if MatchesAny(DouyinKeywords, url) then Some(DouyinApp)
    else if MatchesAny(KuaishouKeywords, url) then Some(KuaishouApp)
    else if MatchesAny(WeiboKeywords, url) then Some(WeiboApp)
    else None
  }

  /** The outer `except`: `HTTPException(status_code=500, detail=str(e))`. */
  function Raised(e: PyExc): Outcome
  {
    HttpException(500, e.Message())
  }

  /**
   * The whole route. `weibo` stands for `Weibo(url, type).to_dict()`, which is
   * not part of this model; the douyin branch constructs `Tiktok`.
   */
  function ProcessAnalyze(url: string, kind: string, fetch: string -> PyFetch, parse: PyParser,
                          weibo: (string, string) -> Result<Json, PyExc>): Outcome
  {
    match Classify(url)
    case None => HttpException(500, NotAnException)
    case Some(XiaohongshuApp) => XiaohongshuBranch(url, kind, fetch, parse)
    case Some(DouyinApp) => DouyinBranch(url, fetch, parse)
    case Some(KuaishouApp) => KuaishouBranch(url, fetch, parse)
    case Some(WeiboApp) => WeiboBranch(url, kind, weibo)
  }

  /** `XHS(url, type)`: the record is serialised after the route returns, where its image generator may raise. */
  function XiaohongshuBranch(url: string, kind: string, fetch: string -> PyFetch, parse: PyParser): (o: Outcome)
    ensures o.SerialisationError? <==>
      XiaohongshuPy.Analyze(url, kind, fetch, parse).Success?
      && XiaohongshuPy.Analyze(url, kind, fetch, parse).value.imageList.Generated?
      && XhsImage.Links(XiaohongshuPy.Analyze(url, kind, fetch, parse).value.imageList.image).Failure?
  {
    match XiaohongshuPy.Analyze(url, kind, fetch, parse)
    case Failure(e) => Raised(e)
    case Success(r) =>
      XiaohongshuPy.EncodeFailsIff(r);
      match XiaohongshuPy.Encode(r)
      case Failure(e) => SerialisationError(e)
      case Success(d) => Body(ResponsePy.ToDict(ResponsePy.Success(d, ResponsePy.SuccessMessage)))
  }

  /** `Tiktok(url).to_dict()`: a plain dictionary, so nothing is left to fail after the return. */
  function DouyinBranch(url: string, fetch: string -> PyFetch, parse: PyParser): (r: Outcome)
    ensures !r.SerialisationError?
  {
    match Tiktok.Analyze(url, fetch, parse)
    case Failure(e) => Raised(e)
    case Success(s) => Body(Tiktok.ToDictSpec(s))
  }

  /** `Kuaishou(url)` wrapped in the success envelope. */
  function KuaishouBranch(url: string, fetch: string -> PyFetch, parse: PyParser): (r: Outcome)
    ensures !r.SerialisationError?
  {
    match Kuaishou.Analyze(url, fetch, parse)
    case Failure(e) => Raised(e)
    case Success(r) => Body(ResponsePy.ToDict(ResponsePy.Success(MediaPy.RecordJson(r, Kuaishou.AppType), ResponsePy.SuccessMessage)))
  }

  /** The weibo extractor's dictionary, or its exception. */
  function WeiboBranch(url: string, kind: string, weibo: (string, string) -> Result<Json, PyExc>): (r: Outcome)
    ensures !r.SerialisationError?
  {
    match weibo(url, kind)
    case Failure(e) => Raised(e)
    case Success(d) => Body(d)
  }

  // ---------------------------------------------------------------------------
  // Properties

  /** A text is classified exactly when it contains one of the twelve keywords. */
  lemma ClassifiedIffKeyword(url: string)
    ensures Classify(url).Some? <==>
      MatchesAny(XiaohongshuKeywords + DouyinKeywords + KuaishouKeywords + WeiboKeywords, url)
  {
    MatchesAnyAppend(XiaohongshuKeywords, DouyinKeywords, url);
    MatchesAnyAppend(XiaohongshuKeywords + DouyinKeywords, KuaishouKeywords, url);
    MatchesAnyAppend(XiaohongshuKeywords + DouyinKeywords + KuaishouKeywords, WeiboKeywords, url);
  }

  /** Searching two keyword lists one after the other is searching their concatenation. */
  lemma {:induction false} MatchesAnyAppend(a: seq<string>, b: seq<string>, url: string)
    ensures MatchesAny(a + b, url) == (MatchesAny(a, url) || MatchesAny(b, url))
  {
    if a != [] {
      assert (a + b)[1..] == a[1..] + b;
      MatchesAnyAppend(a[1..], b, url);
    } else {
      assert a + b == b;
    }
  }

  /** Priority: a xiaohongshu keyword wins over every other platform's keywords. */
  lemma XiaohongshuFirst(url: string)
    requires MatchesAny(XiaohongshuKeywords, url)
    ensures Classify(url) == Some(XiaohongshuApp)
  {
  }

  /** A douyin keyword wins over kuaishou and weibo keywords, but not over xiaohongshu ones. */
  lemma DouyinSecond(url: string)
    requires MatchesAny(DouyinKeywords, url)
    ensures Classify(url) == Some(DouyinApp) <==> !MatchesAny(XiaohongshuKeywords, url)
  {
  }

  /** Text mentioning both 小红书 and 抖音 goes to the xiaohongshu extractor. */
  lemma BothKeywordsGiveXiaohongshu(a: string, b: string, c: string)
    ensures Classify(a + "小红书" + b + "抖音" + c) == Some(XiaohongshuApp)
  {
    var url := a + "小红书" + b + "抖音" + c;
    assert url == a + ("小红书" + b + "抖音" + c);
    Text.OccursShifted(a, "小红书" + b + "抖音" + c, "小红书", 0);
    Text.ContainsAt(url, "小红书", |a|);
    assert Text.Contains(url, XiaohongshuKeywords[0]);
  }

  /** Text matching no keyword never succeeds: the route raises a dictionary, which itself fails, and answers 500. */
  lemma UnmatchedIs500(url: string, kind: string, fetch: string -> PyFetch, parse: PyParser,
                       weibo: (string, string) -> Result<Json, PyExc>)
    requires Classify(url).None?
    ensures ProcessAnalyze(url, kind, fetch, parse, weibo) == HttpException(500, NotAnException)
  {
  }

  /** Every exception inside the route surfaces as status 500 with `str(e)` as the detail. */
  lemma FailuresAre500(url: string, kind: string, fetch: string -> PyFetch, parse: PyParser,
                       weibo: (string, string) -> Result<Json, PyExc>)
    ensures ProcessAnalyze(url, kind, fetch, parse, weibo).HttpException? ==>
      ProcessAnalyze(url, kind, fetch, parse, weibo).status == 500
    ensures Classify(url) == Some(KuaishouApp) && Kuaishou.Analyze(url, fetch, parse).Failure? ==>
      ProcessAnalyze(url, kind, fetch, parse, weibo) == HttpException(500, Kuaishou.Analyze(url, fetch, parse).error.Message())
  {
  }

  /**
   * Douyin-classified text goes to the `Tiktok` extractor: its `to_dict` result
   * (with `app_type` "xiaohongshu", or `{}`) is the body, not a `Douyin` record.
   */
  lemma DouyinUsesTiktok(url: string, kind: string, fetch: string -> PyFetch, parse: PyParser,
                         weibo: (string, string) -> Result<Json, PyExc>)
    requires Classify(url) == Some(DouyinApp)
    requires Tiktok.Analyze(url, fetch, parse).Success?
    ensures ProcessAnalyze(url, kind, fetch, parse, weibo) == Body(Tiktok.ToDictSpec(Tiktok.Analyze(url, fetch, parse).value))
  {
  }

  /** Serialisation errors can come only from the xiaohongshu image generator. */
  lemma SerialisationErrorOnlyFromXiaohongshu(url: string, kind: string, fetch: string -> PyFetch, parse: PyParser,
                                              weibo: (string, string) -> Result<Json, PyExc>)
    requires ProcessAnalyze(url, kind, fetch, parse, weibo).SerialisationError?
    ensures Classify(url) == Some(XiaohongshuApp)
    ensures XiaohongshuPy.Analyze(url, kind, fetch, parse).Success?
    ensures XiaohongshuPy.Analyze(url, kind, fetch, parse).value.imageList.Generated?
  {
  }
}
