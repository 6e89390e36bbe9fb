/**
 * `AnalyzeService` of the TypeScript server: the entry point that checks the
 * input, extracts a URL, classifies its host and dispatches to the platform
 * service, turning every outcome (thrown errors included) into a response
 * envelope.
 */
module AnalyzeService {
  import opened Wrappers
  import opened JsonTree
  import Text
  import UrlExtractor
  import ResponseTs
  import MediaTs
  import PageInput
  import DouyinService
  import XiaohongshuService

  const EmptyInputMessage: string := "请提供有效的文本或URL"
  const NoUrlMessage: string := "无法从提供的文本中提取有效的URL"
  const UnsupportedPrefix: string := "不支持的URL类型: "

  const DouyinDomains: seq<string> := ["douyin.com", "v.douyin.com", "iesdouyin.com"]
  const XiaohongshuDomains: seq<string> := ["xiaohongshu.com", "xhslink.com", "xhs.link"]

  /** `getSupportedPlatforms()`. */
  const SupportedPlatforms: seq<string> := ["douyin", "xiaohongshu"]

  /** `!inputUrl || inputUrl.trim() === ''`: a missing field, or text that is all JavaScript whitespace. */
  predicate IsBlank(inputUrl: Option<string>)
  {
    inputUrl.None? || forall k :: 0 <= k < |inputUrl.value| ==> Text.IsJsSpace(inputUrl.value[k])
  }

  /** Some domain of the list occurs in the host (`hostname.includes(domain)`). */
  predicate MatchesAny(host: string, domains: seq<string>)
  {
    exists k :: 0 <= k < |domains| && Text.Contains(host, domains[k])
  }

  /**
   * `determineUrlType(url)`: `hostOf` stands for `new URL(url).hostname`,
   * None when the constructor throws. Douyin domains are tried first.
   */
  function DetermineUrlType(url: string, hostOf: string -> Option<string>): (t: string)
    ensures t in ["douyin", "xiaohongshu", "unknown"]
  {
    match hostOf(url)
    case None => "unknown"
    case Some(h) =>
      var host := Text.AsciiLower(h);
      if MatchesAny(host, DouyinDomains) then "douyin"
      else if MatchesAny(host, XiaohongshuDomains) then "xiaohongshu"
      else "unknown"
  }

  /** `isSupportedUrl(url)`. */
  predicate IsSupportedUrl(url: string, hostOf: string -> Option<string>)
  {
    DetermineUrlType(url, hostOf) != "unknown"
  }

  /** The envelope for a platform service's outcome: its error message, or the record under `获取成功`. */
  function Wrap(outcome: Result<MediaTs.MediaData, string>): (r: ResponseTs.ApiResponse<Json>)
    ensures outcome.Failure? ==> r == ResponseTs.Error(outcome.error)
    ensures outcome.Success? ==> r == MediaTs.SuccessResponse(outcome.value)
  {
    match outcome
    case Failure(e) => ResponseTs.Error(e)
    case Success(m) => MediaTs.SuccessResponse(m)
  }

  /** What the Douyin service's `analyze()` gives for a URL, starting from its field initializers. */
  function DouyinOutcome(url: string, fetch: string -> PageInput.JsFetch, parse: Parser): Result<MediaTs.MediaData, string>
  {
    match DouyinService.AnalyzeResult(url, DouyinService.Initial, fetch, parse)
    case Failure(e) => Failure(e)
    case Success(s) => Success(DouyinService.MediaOf(url, s))
  }

  /** What the note-site service's `analyze()` gives for a URL, starting from its field initializers. */
  function XiaohongshuOutcome(url: string, fetch: string -> PageInput.JsFetch, parse: Parser): Result<MediaTs.MediaData, string>
  {
    match XiaohongshuService.AnalyzeResult(url, XiaohongshuService.Initial, fetch, parse)
    case Failure(e) => Failure(e)
    case Success(s) => Success(XiaohongshuService.MediaOf(url, s))
  }

  /**
   * `analyze(request)`: the envelope returned for the request's `url` field.
   * Both services extract the same URL from the text as this function does.
   */
  function AnalyzeResponse(inputUrl: Option<string>, hostOf: string -> Option<string>,
                           fetch: string -> PageInput.JsFetch, parse: Parser): (r: ResponseTs.ApiResponse<Json>)
    ensures r.code == ResponseTs.SuccessCode || (r.code == ResponseTs.ErrorCode && r.data == JNull)
    ensures r.code == ResponseTs.SuccessCode ==> r.message == ResponseTs.DefaultSuccessMessage && r.data.JObj?
  {
    if IsBlank(inputUrl) then ResponseTs.Error(EmptyInputMessage)
    else
      match UrlExtractor.ExtractUrl(inputUrl.value)
      case None => ResponseTs.Error(NoUrlMessage)
      case Some(url) =>
        var urlType := DetermineUrlType(url, hostOf);
        if urlType == "douyin" then Wrap(DouyinOutcome(url, fetch, parse))
        else if urlType == "xiaohongshu" then Wrap(XiaohongshuOutcome(url, fetch, parse))
        else ResponseTs.Error(UnsupportedPrefix + urlType)
  }

  // ---------------------------------------------------------------------------
  // The orchestrator

  /** `analyze(request)`, building the platform service and awaiting its `analyze()`. */
  method Analyze(inputUrl: Option<string>, kind: string, hostOf: string -> Option<string>,
                 fetch: string -> PageInput.JsFetch, parse: Parser)
    returns (r: ResponseTs.ApiResponse<Json>)
    ensures r == AnalyzeResponse(inputUrl, hostOf, fetch, parse)
  {
    if IsBlank(inputUrl) {
      return ResponseTs.Error(EmptyInputMessage);
    }
    var url := UrlExtractor.ExtractUrl(inputUrl.value);
    if url.None? {
      return ResponseTs.Error(NoUrlMessage);
    }
    var urlType := DetermineUrlType(url.value, hostOf);
    var outcome: Result<MediaTs.MediaData, string>;
    if urlType == "douyin" {
      outcome := RunDouyin(inputUrl.value, kind, url.value, fetch, parse);
    } else if urlType == "xiaohongshu" {
      outcome := RunXiaohongshu(inputUrl.value, kind, url.value, fetch, parse);
    } else {
      return ResponseTs.Error(UnsupportedPrefix + urlType);
    }
    if outcome.Failure? {
      return ResponseTs.Error(outcome.error);
    }
    return MediaTs.SuccessResponse(outcome.value);
  }

  /** `new DouyinService(inputUrl, type)` and its awaited `analyze()`, the thrown message as Failure. */
  method RunDouyin(text: string, kind: string, url: string, fetch: string -> PageInput.JsFetch, parse: Parser)
    returns (outcome: Result<MediaTs.MediaData, string>)
    requires UrlExtractor.ExtractUrl(text) == Some(url)
    ensures outcome == DouyinOutcome(url, fetch, parse)
  {
    var created := DouyinService.Create(text, kind);
    var service := created.value;
    outcome := service.Analyze(fetch, parse);
  }

  /** `new XiaohongshuService(inputUrl, type)` and its awaited `analyze()`, the thrown message as Failure. */
  method RunXiaohongshu(text: string, kind: string, url: string, fetch: string -> PageInput.JsFetch, parse: Parser)
    returns (outcome: Result<MediaTs.MediaData, string>)
    requires UrlExtractor.ExtractUrl(text) == Some(url)
    ensures outcome == XiaohongshuOutcome(url, fetch, parse)
  {
    var created := XiaohongshuService.Create(text, kind);
    var service := created.value;
    outcome := service.Analyze(fetch, parse);
  }

  // ---------------------------------------------------------------------------
  // Properties

  /** Blank input is refused before any extraction or request. */
  lemma BlankInputRejected(text: string, hostOf: string -> Option<string>, fetch: string -> PageInput.JsFetch, parse: Parser)
    requires forall k :: 0 <= k < |text| ==> Text.IsJsSpace(text[k])
    ensures AnalyzeResponse(Some(text), hostOf, fetch, parse) == ResponseTs.Error(EmptyInputMessage)
    ensures AnalyzeResponse(None, hostOf, fetch, parse) == ResponseTs.Error(EmptyInputMessage)
  {
  }

  /** Text with a non-space character but no extractable URL gets the extraction error. */
  lemma NoUrlRejected(text: string, hostOf: string -> Option<string>, fetch: string -> PageInput.JsFetch, parse: Parser)
    requires !IsBlank(Some(text)) && UrlExtractor.ExtractUrl(text).None?
    ensures AnalyzeResponse(Some(text), hostOf, fetch, parse) == ResponseTs.Error(NoUrlMessage)
  {
  }

  /** A host carrying both a Douyin and a note-site domain is classified as Douyin. */
  lemma DouyinCheckedFirst(url: string, hostOf: string -> Option<string>)
    requires hostOf(url).Some?
    requires MatchesAny(Text.AsciiLower(hostOf(url).value), DouyinDomains)
    ensures DetermineUrlType(url, hostOf) == "douyin"
  {
  }

  /** The classification in full: which domain lists the lower-cased host matches. */
  lemma UrlTypeCases(url: string, hostOf: string -> Option<string>)
    ensures DetermineUrlType(url, hostOf) == "douyin"
        <==> hostOf(url).Some? && MatchesAny(Text.AsciiLower(hostOf(url).value), DouyinDomains)
    ensures DetermineUrlType(url, hostOf) == "xiaohongshu"
        <==> hostOf(url).Some? && !MatchesAny(Text.AsciiLower(hostOf(url).value), DouyinDomains)
             && MatchesAny(Text.AsciiLower(hostOf(url).value), XiaohongshuDomains)
  {
  }

  /** `isSupportedUrl` holds exactly when the URL parses and its host matches one of the six domains. */
  lemma SupportedIffKnownDomain(url: string, hostOf: string -> Option<string>)
    ensures IsSupportedUrl(url, hostOf)
        <==> hostOf(url).Some? && MatchesAny(Text.AsciiLower(hostOf(url).value), DouyinDomains + XiaohongshuDomains)
  {
    if hostOf(url).Some? {
      var host := Text.AsciiLower(hostOf(url).value);
      var all := DouyinDomains + XiaohongshuDomains;
      if MatchesAny(host, all) {
        var k :| 0 <= k < |all| && Text.Contains(host, all[k]);
        if k >= 3 {
          assert all[k] == XiaohongshuDomains[k - 3];
        } else {
          assert all[k] == DouyinDomains[k];
        }
      }
      if MatchesAny(host, DouyinDomains) {
        var k :| 0 <= k < 3 && Text.Contains(host, DouyinDomains[k]);
        assert all[k] == DouyinDomains[k];
      } else if MatchesAny(host, XiaohongshuDomains) {
        var k :| 0 <= k < 3 && Text.Contains(host, XiaohongshuDomains[k]);
        assert all[k + 3] == XiaohongshuDomains[k];
      }
    }
  }

  /** A supported platform name is what `isSupportedUrl` accepts. */
  lemma SupportedTypeIsPlatform(url: string, hostOf: string -> Option<string>)
    ensures IsSupportedUrl(url, hostOf) <==> DetermineUrlType(url, hostOf) in SupportedPlatforms
  {
  }

  /** An unparsable URL, or a host matching no domain, gives the unsupported-type error naming `unknown`. */
  lemma UnknownTypeRejected(text: string, hostOf: string -> Option<string>, fetch: string -> PageInput.JsFetch, parse: Parser)
    requires !IsBlank(Some(text)) && UrlExtractor.ExtractUrl(text).Some?
    requires !IsSupportedUrl(UrlExtractor.ExtractUrl(text).value, hostOf)
    ensures AnalyzeResponse(Some(text), hostOf, fetch, parse) == ResponseTs.Error("不支持的URL类型: unknown")
  {
  }

  /** A Douyin URL is answered by the Douyin service: its error message, or its record as data. */
  lemma DouyinDispatch(text: string, hostOf: string -> Option<string>, fetch: string -> PageInput.JsFetch, parse: Parser)
    requires !IsBlank(Some(text)) && UrlExtractor.ExtractUrl(text).Some?
    requires DetermineUrlType(UrlExtractor.ExtractUrl(text).value, hostOf) == "douyin"
    ensures var url := UrlExtractor.ExtractUrl(text).value;
            var r := AnalyzeResponse(Some(text), hostOf, fetch, parse);
            match DouyinService.AnalyzeResult(url, DouyinService.Initial, fetch, parse)
            case Failure(e) => r == ResponseTs.Error(e)
            case Success(s) => r.code == 200 && r.data == MediaTs.AsJson(DouyinService.MediaOf(url, s))
  {
  }

  /** A successful response carries a record of the platform the URL was classified as. */
  lemma SuccessMatchesPlatform(text: string, hostOf: string -> Option<string>, fetch: string -> PageInput.JsFetch, parse: Parser)
    requires AnalyzeResponse(Some(text), hostOf, fetch, parse).code == ResponseTs.SuccessCode
    ensures UrlExtractor.ExtractUrl(text).Some?
    ensures var t := DetermineUrlType(UrlExtractor.ExtractUrl(text).value, hostOf);
            var data := AnalyzeResponse(Some(text), hostOf, fetch, parse).data;
            t in SupportedPlatforms && data.JObj? && Lookup(data.fields, "app_type") == Some(JStr(t))
  {
    var url := UrlExtractor.ExtractUrl(text).value;
    var t := DetermineUrlType(url, hostOf);
    if t == "douyin" {
      var s := DouyinService.AnalyzeResult(url, DouyinService.Initial, fetch, parse).value;
      AppTypeField(DouyinService.MediaOf(url, s));
    } else {
      var s := XiaohongshuService.AnalyzeResult(url, XiaohongshuService.Initial, fetch, parse).value;
      AppTypeField(XiaohongshuService.MediaOf(url, s));
    }
  }

  /** The serialized record's `app_type` is the record's platform. */
  lemma AppTypeField(m: MediaTs.MediaData)
    ensures Lookup(MediaTs.AsJson(m).fields, "app_type") == Some(JStr(m.appType))
  {
    var j := MediaTs.AsJson(m);
    var n := |j.fields|;
    assert j.fields[n - 1] == ("app_type", JStr(m.appType));
    LookupLast(j.fields, "app_type");
  }

  /** Looking up the last key of an object finds its value when no earlier entry has that key. */
  lemma {:induction false} LookupLast(fields: seq<(string, Json)>, key: string)
    requires |fields| > 0 && fields[|fields| - 1].0 == key
    requires forall k :: 0 <= k < |fields| - 1 ==> fields[k].0 != key
    ensures Lookup(fields, key) == Some(fields[|fields| - 1].1)
  {
    if |fields| > 1 {
      LookupLast(fields[1..], key);
    }
  }
}
