# Share-text media resolver, modelled in Dafny

The service takes a share text pasted from a short-video or note-sharing app,
pulls a URL out of it, picks the platform, reads the JSON state embedded in the
fetched page and returns a normalized media record (description, image links,
live-photo links, video link) in a `{code, data, message}` envelope. It exists
twice, in Python (`src/`) and in TypeScript (`bun/src/`), and the two differ in
observable ways; the model keeps them apart.

## Model

| member | source | states |
|---|---|---|
| FindUrl.FindUrl | src/utils/index.py:20-40 | text starting with `http://`/`https://` is returned unchanged; otherwise the result is None exactly when the comma-normalized text has no `https?://` match, and any result starts with the scheme |
| FindUrl.FindInText | src/utils/index.py:28-40 | the search path: None iff no match after both commas become spaces; a result starts with a scheme |
| FindUrl.FoundUrlIsClean | src/utils/index.py:28-35 | a found URL contains no comma and no whitespace and does not end in `. , ; : ! ? )` |
| FindUrl.FoundUrlIsLeftmostMatch | src/utils/index.py:31-35 | a found URL is the leftmost match's maximal non-space run with the trailing punctuation removed |
| FindUrl.FindUrlIdempotent | src/utils/index.py:22-35 | a found URL is found again unchanged |
| FindUrl.FindUrlExample | src/utils/index.py:28-37 | "小红书 http://xhslink.com/a/Ab12! 分享" gives "http://xhslink.com/a/Ab12" |
| UrlPattern.CommasToSpaces | src/utils/index.py:28 | both commas become spaces, every other character is kept, the length is kept, no comma remains |
| UrlPattern.Search | src/utils/index.py:31-33 | None exactly when no position matches `https?://` followed by a non-space character |
| UrlPattern.SearchIsLeftmost | src/utils/index.py:31-33 | a match is taken at the leftmost matching position and runs greedily to the next whitespace |
| UrlPattern.SearchShape | src/utils/index.py:31-33 | a match starts with a scheme, is longer than it, and contains no whitespace |
| UrlPattern.StripTrailing | src/utils/index.py:35 | the result is a prefix, does not end in a stripped character, and only stripped characters were removed |
| UrlPattern.StrippedSearchKeepsScheme | src/utils/index.py:31-35 | stripping punctuation never eats into the scheme |
| UrlPattern.SearchAgrees | bun/src/utils/url-extractor.ts:24-25 | where the Python and JavaScript whitespace classes agree, both engines find the same match |
| UrlPattern.StripMoreIsPrefix | bun/src/utils/url-extractor.ts:30 | stripping a larger character set leaves a prefix of what the smaller set leaves |
| UrlExtractor.ExtractUrl | bun/src/utils/url-extractor.ts:11-60 | text starting with a scheme is returned as-is; every result starts with a scheme; otherwise the search path decides |
| UrlExtractor.ExtractFromText | bun/src/utils/url-extractor.ts:21-56 | a full URL (stripped of `. , ; : ! ? )` and backtick) wins over short codes; null exactly when all three searches fail |
| UrlExtractor.DouyinCode | bun/src/utils/url-extractor.ts:36-39 | the leftmost `code:/` share code has at least three letters or digits; None iff no position matches |
| UrlExtractor.XhsCode | bun/src/utils/url-extractor.ts:46-49 | the leftmost eleven letters or digits; None iff no position matches |
| UrlExtractor.ExtractDouyinShortCode | bun/src/utils/url-extractor.ts:35-43 | with no full URL, a share code yields `https://v.douyin.com/<code>` |
| UrlExtractor.ExtractXhsShortCode | bun/src/utils/url-extractor.ts:45-53 | only when both earlier steps fail, an eleven-character code yields `https://xhslink.com/<code>` |
| UrlExtractor.ExtractUrlEmpty | bun/src/utils/url-extractor.ts:55-56 | the empty string yields null |
| UrlExtractor.ExtractUrlIdempotent | bun/src/utils/url-extractor.ts:14-17 | an extracted URL is extracted again unchanged |
| UrlExtractor.ExtractUrlRefinesFindUrl | bun/src/utils/url-extractor.ts:21-32 | where the whitespace classes agree, the TypeScript resolver finds a URL whenever the Python one does, and its URL is a prefix of the Python one |
| UrlExtractor.IsValidUrl | bun/src/utils/url-extractor.ts:68-76 | true exactly when the URL parses with protocol `http:` or `https:` |
| ResponsePy.Success | src/utils/response.py:20-22 | code 200, data and message unchanged |
| ResponsePy.Error | src/utils/response.py:24-26 | code 500, data None, message unchanged |
| Envelope.Object | src/utils/response.py:10-15 | exactly the keys `code`, `data`, `message`, in order, holding the given values; the TypeScript formatter serialises the same object |
| Envelope.ReadObject | src/utils/response.py:10-15 | reading the three keys back gives the code, data and message |
| ResponsePy.ToDict | src/utils/response.py:10-15 | exactly the keys `code`, `data`, `message`, holding the envelope's values |
| ResponsePy.ToDictRoundTrip | src/utils/response.py:10-15 | reading the three keys back gives the envelope |
| ResponsePy.ErrorIsAlways500 | src/utils/response.py:3-4 | every error envelope carries 500 |
| ResponseTs.Success | bun/src/utils/response.ts:13-19 | code 200, data passed through, message defaulting to 获取成功 |
| ResponseTs.Error | bun/src/utils/response.ts:27-33 | data null, code defaulting to 500 |
| ResponseTs.EnvelopeJson | bun/src/utils/response.ts:40-42 | the serialised object has exactly the keys `code`, `data`, `message`, holding the envelope's values |
| ResponseTs.ToJsonRoundTrip | bun/src/utils/response.ts:40-42 | stringify followed by parse gives back an equal envelope |
| ResponseTs.ErrorCodePreserved | bun/src/utils/response.ts:27-33 | a custom error code survives the round trip |
| XhsImage.GetImageTokenIdempotentIff | src/app/xiaohongshu/image.py:8-13 | `get_image_token` is idempotent exactly when its result is not the bare word `notes_pre_post` |
| XhsImage.GetImageTokenNotIdempotent | src/app/xiaohongshu/image.py:8-13 | `dir/notes_pre_post!size` yields the bare word, whose own token differs |
| XhsImage.TokenHasNoBang | src/app/xiaohongshu/image.py:8-13 | a token never contains `!` |
| XhsImage.WebpLinkDoubleSlash | src/app/xiaohongshu/image.py:10-11 | a pre-post token gives a webp link with a double slash after the host |
| XhsImage.LinksShape | src/app/xiaohongshu/image.py:25-35 | webp and png give one link per URL in order, failing exactly when an item is not a string; any other type gives nothing |
| XhsImage.ToDict | src/app/xiaohongshu/image.py:25-35 | the generator loop yields exactly the specified links |
| XhsImage.SegmentToken | src/app/xiaohongshu/image.py:8-13 | a lone segment is its own token, except the bare word `notes_pre_post`, which gains the `/notes_pre_post/` prefix |
| XhsImage.LinksFromExact | src/app/xiaohongshu/image.py:26-33 | over string items the generator yields exactly one link per item, in order |
| XhsImage.LinksFromSucceedsIff | src/app/xiaohongshu/image.py:26-33 | the generator runs to the end exactly when every item is a string |
| XhsImage.LinksFromFailsAt | src/app/xiaohongshu/image.py:27-28 | the generator raises at the first item that is not a string |
| PageInput.PyMetaDescription | src/app/redBook/index.py:101-110 | `name=description` wins over `og:description`; neither gives "" |
| PageInput.TsMetaDescription | bun/src/services/xiaohongshu.service.ts:230-231 | a non-empty `name=description` wins; a non-empty result is one of the two meta values |
| AnalyzeRoute.MatchesAny | src/module/analyze/routes.py:31 | true exactly when some keyword occurs in the text |
| AnalyzeRoute.ClassifiedIffKeyword | src/module/analyze/routes.py:31-41 | a text is classified exactly when it contains one of the twelve configured keywords |
| AnalyzeRoute.XiaohongshuFirst | src/module/analyze/routes.py:31-32 | a xiaohongshu keyword wins over every other platform |
| AnalyzeRoute.DouyinSecond | src/module/analyze/routes.py:33-34 | a douyin keyword gives douyin exactly when no xiaohongshu keyword is present |
| AnalyzeRoute.BothKeywordsGiveXiaohongshu | src/module/analyze/routes.py:31-34 | text with 小红书 before 抖音 is classified xiaohongshu |
| AnalyzeRoute.UnmatchedIs500 | src/module/analyze/routes.py:39-41 | unmatched text raises a dictionary, which fails itself and becomes HTTP 500 |
| AnalyzeRoute.FailuresAre500 | src/module/analyze/routes.py:65-67 | every exception inside the route becomes status 500 with `str(e)` as detail |
| AnalyzeRoute.DouyinUsesTiktok | src/module/analyze/routes.py:49-52 | douyin-classified text is answered by the `Tiktok` extractor's `to_dict` |
| AnalyzeRoute.XiaohongshuBranch | src/module/analyze/routes.py:45-48 | serialisation fails exactly when the extraction succeeded with a generator image list whose links raise |
| AnalyzeRoute.DouyinBranch | src/module/analyze/routes.py:49-52 | nothing fails after the return: the body is the plain dictionary |
| AnalyzeRoute.KuaishouBranch | src/module/analyze/routes.py:53-56 | nothing fails after the return |
| AnalyzeRoute.WeiboBranch | src/module/analyze/routes.py:57-60 | nothing fails after the return |
| AnalyzeRoute.SerialisationErrorOnlyFromXiaohongshu | src/module/analyze/routes.py:45-60 | a serialisation error implies xiaohongshu classification and a successful extraction with a generator image list |
| AnalyzeService.DetermineUrlType | bun/src/services/analyze.service.ts:65-92 | the type is one of douyin, xiaohongshu, unknown |
| AnalyzeService.UrlTypeCases | bun/src/services/analyze.service.ts:65-92 | douyin exactly when the lower-cased host contains a douyin domain; xiaohongshu exactly when it contains a note-site domain and no douyin domain; an unparsable URL is neither |
| AnalyzeService.DouyinCheckedFirst | bun/src/services/analyze.service.ts:70-84 | a host matching both lists is douyin |
| AnalyzeService.SupportedIffKnownDomain | bun/src/services/analyze.service.ts:104-107 | supported exactly when the URL parses and its lower-cased host contains one of the six domains |
| AnalyzeService.SupportedTypeIsPlatform | bun/src/services/analyze.service.ts:97-107 | supported exactly when the type is one of `getSupportedPlatforms()` |
| AnalyzeService.Wrap | bun/src/services/analyze.service.ts:52-58 | a service error becomes an error envelope with its message; a record becomes a success envelope under 获取成功 |
| AnalyzeService.AnalyzeResponse | bun/src/services/analyze.service.ts:15-60 | every response is a 200 with 获取成功 and an object, or a 500 with null data: `analyze` never throws |
| AnalyzeService.Analyze | bun/src/services/analyze.service.ts:15-60 | the method's envelope is the specified one |
| AnalyzeService.RunDouyin | bun/src/services/analyze.service.ts:38-41 | constructing the Douyin service from the input text and awaiting `analyze()` gives the Douyin outcome for the extracted URL |
| AnalyzeService.RunXiaohongshu | bun/src/services/analyze.service.ts:43-46 | the same for the note-site service |
| AnalyzeService.BlankInputRejected | bun/src/services/analyze.service.ts:19-21 | empty, missing or whitespace-only input gets 请提供有效的文本或URL |
| AnalyzeService.NoUrlRejected | bun/src/services/analyze.service.ts:26-29 | input without an extractable URL gets 无法从提供的文本中提取有效的URL |
| AnalyzeService.UnknownTypeRejected | bun/src/services/analyze.service.ts:48-49 | an unsupported URL gets "不支持的URL类型: unknown" |
| AnalyzeService.DouyinDispatch | bun/src/services/analyze.service.ts:38-41 | a douyin URL is answered with the Douyin service's error message or record |
| AnalyzeService.SuccessMatchesPlatform | bun/src/services/analyze.service.ts:37-53 | a 200 response carries `app_type` equal to the platform the URL was classified as |
| XiaohongshuPy.Payload | src/app/xiaohongshu/index.py:69-71 | IndexError exactly when the script lacks `window.__INITIAL_STATE__=` |
| XiaohongshuPy.NotFoundIsRefused | src/app/xiaohongshu/index.py:42-45 | a final URL containing "404" raises ValueError naming it |
| XiaohongshuPy.NoUrlIsRefused | src/app/xiaohongshu/index.py:15-29 | text without a URL raises ValueError before any fetch |
| XiaohongshuPy.NoMarkerKeepsDefaults | src/app/xiaohongshu/index.py:59-66 | with no marker script nothing is raised and the fields keep their defaults |
| XiaohongshuPy.OnlyFirstMarkerScript | src/app/xiaohongshu/index.py:64-79 | scripts after the first marker script do not change the result |
| XiaohongshuPy.DescriptionFromMeta | src/app/xiaohongshu/index.py:74-89 | on success the description is the meta description and the image list is a generator of the requested type |
| XiaohongshuPy.MarkerWithoutAssignRaises | src/app/xiaohongshu/index.py:69-81 | a marker script without the `=` form raises IndexError |
| XiaohongshuPy.EmptyH264Raises | src/app/xiaohongshu/index.py:103 | an empty `stream.h264` raises IndexError |
| XiaohongshuPy.MissingMasterUrlIsNone | src/app/xiaohongshu/index.py:103 | a first `h264` entry without `masterUrl` gives None |
| XiaohongshuPy.CollectSucceedsIff | src/app/xiaohongshu/index.py:100-105 | the image loop succeeds exactly when every image's step succeeds |
| XiaohongshuPy.StepFacts | src/app/xiaohongshu/index.py:101-105 | one image gives at most one token, its truthy `urlDefault`, and at most one truthy live URL |
| XiaohongshuPy.CollectBounds | src/app/xiaohongshu/index.py:99-105 | at most one token and one live URL per image; every token is some image's truthy `urlDefault` |
| XiaohongshuPy.CollectAllTokens | src/app/xiaohongshu/index.py:99-102 | when every image has a truthy `urlDefault` the tokens are exactly those values in order |
| XiaohongshuPy.CollectNext | src/app/xiaohongshu/index.py:100-105 | one more image appends its token and live URL, or ends the loop with its error |
| XiaohongshuPy.EncodeShape | src/app/xiaohongshu/index.py:128-137 | the eight keys in order, `final_url` a string or None, `app_type` xiaohongshu |
| XiaohongshuPy.EncodeFailsIff | src/app/xiaohongshu/index.py:106-138 | serialisation fails exactly when the image generator raises |
| XiaohongshuPy.Xiaohongshu.constructor | src/app/xiaohongshu/index.py:12-26 | the field defaults before the URL check |
| XiaohongshuPy.Xiaohongshu.Load | src/app/xiaohongshu/index.py:27-52 | the error raised, or the fields, are those of the specification |
| XiaohongshuPy.Xiaohongshu.ExtractXiaohongshuData | src/app/xiaohongshu/index.py:59-81 | the script loop, proved against the extraction specification |
| XiaohongshuPy.Xiaohongshu.ReadMarkerScript | src/app/xiaohongshu/index.py:67-79 | the first marker script's processing, against the specification |
| XiaohongshuPy.Xiaohongshu.GetMetaDescription | src/app/xiaohongshu/index.py:83-89 | the description becomes the meta description |
| XiaohongshuPy.Xiaohongshu.GetImageList | src/app/xiaohongshu/index.py:91-108 | the live list and the image generator are the specified ones, or the loop's error |
| XiaohongshuPy.Xiaohongshu.CollectImages | src/app/xiaohongshu/index.py:99-105 | the appending loop gives the specified tokens and live URLs |
| XiaohongshuPy.Xiaohongshu.CollectImage | src/app/xiaohongshu/index.py:100-105 | one image's turn of the loop |
| XiaohongshuPy.Xiaohongshu.GetVideo | src/app/xiaohongshu/index.py:110-123 | the video is `video.media.stream.h264[0].masterUrl`, or the lookup's error |
| XiaohongshuPy.Xiaohongshu.ToDict | src/app/xiaohongshu/index.py:125-138 | the specified envelope |
| XiaohongshuPy.Create | src/app/xiaohongshu/index.py:12-56 | construction raises exactly what the specification raises, else gives its record |
| RedBook.AllImages | src/app/redBook/index.py:112-120 | a src is in the result exactly when it is non-empty; every entry is a non-empty string; never more entries than images |
| RedBook.AllImagesInOrder | src/app/redBook/index.py:116 | document order is kept: the images of two runs of tags are the two results concatenated |
| RedBook.NoUrlGivesDefaults | src/app/redBook/index.py:14-19 | no URL: every attribute at its failure default, nothing raised |
| RedBook.FetchFailureGivesDefaults | src/app/redBook/index.py:22-52 | a failed fetch keeps the URL and resets the rest |
| RedBook.DataIsStateOrFallback | src/app/redBook/index.py:64-95 | `data` is never empty: the page state or the fallback |
| RedBook.DecodeErrorStopsSearch | src/app/redBook/index.py:72-83 | a decoder error on the first usable script gives the fallback |
| RedBook.NoStateGivesFallback | src/app/redBook/index.py:87-95 | with no usable script the fallback holds title, meta description and images |
| RedBook.ImageUrlsSucceedsIff | src/app/redBook/index.py:152-155 | the image loop succeeds exactly when every image has a `url` |
| RedBook.ImageUrlsInOrder | src/app/redBook/index.py:153-155 | on success each image's `url`, in order |
| RedBook.ToDictAllOrNothing | src/app/redBook/index.py:148-168 | `{}` exactly when conversion fails, else `data` with the five keys |
| RedBook.FailedStateGivesEmpty | src/app/redBook/index.py:148-168 | the failure defaults always convert to `{}` |
| RedBook.RedBook.constructor | src/app/redBook/index.py:11-62 | the attributes are the specified construction |
| RedBook.RedBook.ExtractRedbookData | src/app/redBook/index.py:64-95 | the script loop and fallback give the specified `data` |
| RedBook.RedBook.ReadScript | src/app/redBook/index.py:71-85 | a usable script ends the loop with its data; others change nothing |
| RedBook.RedBook.ToDict | src/app/redBook/index.py:148-168 | the specified dictionary |
| DouyinPy.Mp3IsCleared | src/app/douyin/index.py:97-98 | a video URL with `mp3` becomes "" |
| DouyinPy.PlaywmReplaced | src/app/douyin/index.py:99-100 | otherwise every `playwm` becomes `play`, and the URL gets no longer |
| DouyinPy.EmptyPlayAddrGivesEmpty | src/app/douyin/index.py:95-100 | an empty `play_addr` gives "" |
| DouyinPy.EmptyItemList | src/app/douyin/index.py:69-72 | an empty item list gives an empty description and changes nothing else |
| DouyinPy.FirstUrlsSucceedsIff | src/app/douyin/index.py:87-88 | the image loop succeeds exactly when every image's first `url_list` entry exists |
| DouyinPy.FirstUrlsInOrder | src/app/douyin/index.py:87-88 | on success one link per image, its first entry, in order |
| DouyinPy.EmptyUrlListRaises | src/app/douyin/index.py:88 | an empty `url_list` raises IndexError |
| DouyinPy.OnlyFirstMarkerScript | src/app/douyin/index.py:51-62 | scripts after the first marker script do not matter |
| MediaPy.RecordJson | src/app/douyin/index.py:107-115 | seven keys in order, `final_url` "" and the reader's `app_type`; Kuaishou builds the same dictionary at src/app/kuaishou/index.py:129-137 |
| DouyinPy.RecordShape | src/app/douyin/index.py:104-116 | seven keys, `final_url` "" and `app_type` douyin |
| DouyinPy.Douyin.constructor | src/app/douyin/index.py:13-19 | the field defaults |
| DouyinPy.Douyin.Load | src/app/douyin/index.py:13-42 | the error raised, or the fields, are the specified ones |
| DouyinPy.Douyin.ExtractDouyinData | src/app/douyin/index.py:44-64 | the script loop against the specification |
| DouyinPy.Douyin.GetDictData | src/app/douyin/index.py:66-82 | description, images and video as specified, or the error |
| DouyinPy.Douyin.GetImageData | src/app/douyin/index.py:84-90 | the image list gains the specified links in order |
| DouyinPy.Douyin.GetVideoData | src/app/douyin/index.py:92-102 | the video is the specified rewrite |
| DouyinPy.Douyin.ToDict | src/app/douyin/index.py:104-119 | the code-200 envelope of the record |
| Tiktok.MissingLoaderDataRaises | src/app/tiktok/index.py:53-56 | a payload without `loaderData` raises KeyError |
| Tiktok.EmptyItemListRaises | src/app/tiktok/index.py:57 | an empty `item_list` raises IndexError |
| Tiktok.NoMarkerGivesEmptyDict | src/app/tiktok/index.py:38-60 | with no marker script construction succeeds but `to_dict` gives `{}` |
| Tiktok.ToDictShape | src/app/tiktok/index.py:65-87 | `{}` exactly when conversion fails; else `data` with seven keys, `final_url` '' and `app_type` xiaohongshu |
| Tiktok.FalsyDataGivesEmpty | src/app/tiktok/index.py:69-72 | falsy image and video data give `[]` and '' |
| Tiktok.VideoIsVerbatim | src/app/tiktok/index.py:72 | a `playwm` URL is reported unchanged, unlike the `Douyin` class |
| Tiktok.FirstEntriesSucceedsIff | src/app/tiktok/index.py:69-70 | the image loop succeeds exactly when every item has a non-empty `url_list` |
| Tiktok.FirstEntriesInOrder | src/app/tiktok/index.py:68-70 | on success one link per item, in order |
| Tiktok.Tiktok.constructor | src/app/tiktok/index.py:11-14 | the fields before the URL check |
| Tiktok.Tiktok.Load | src/app/tiktok/index.py:11-36 | the error raised, or the fields, are the specified ones |
| Tiktok.Tiktok.ExtractTiktokData | src/app/tiktok/index.py:38-63 | the strict path on the first marker script, against the specification |
| Tiktok.Tiktok.ToDict | src/app/tiktok/index.py:65-87 | the specified dictionary |
| Kuaishou.FewValuesChangeNothing | src/app/kuaishou/index.py:81-84 | a state with at most two values changes nothing |
| Kuaishou.NoMarkerKeepsDefaults | src/app/kuaishou/index.py:55-79 | with no marker script nothing is raised or changed |
| Kuaishou.EmptyBackupUrlRaises | src/app/kuaishou/index.py:105-110 | an empty `backupUrl` raises IndexError |
| Kuaishou.PrefixIdCases | src/app/kuaishou/index.py:121-122 | a string id gains the CDN prefix, a falsy one is skipped, another truthy one raises TypeError |
| Kuaishou.PrefixIdsSucceedsIff | src/app/kuaishou/index.py:120-122 | the loop succeeds exactly when every truthy id is a string |
| Kuaishou.PrefixIdsShape | src/app/kuaishou/index.py:120-122 | every link starts with the prefix; at most one per id |
| Kuaishou.PrefixIdsExact | src/app/kuaishou/index.py:120-122 | non-empty string ids give exactly the prefixed ids in order |
| Kuaishou.RecordShape | src/app/kuaishou/index.py:126-138 | seven keys, `final_url` "" and `app_type` kuaishou |
| Kuaishou.Kuaishou.constructor | src/app/kuaishou/index.py:13-20 | the field defaults |
| Kuaishou.Kuaishou.Load | src/app/kuaishou/index.py:13-44 | the error raised, or the fields, are the specified ones |
| Kuaishou.Kuaishou.ExtractKuaishouData | src/app/kuaishou/index.py:46-71 | the script loop against the specification |
| Kuaishou.Kuaishou.GetDictData | src/app/kuaishou/index.py:73-100 | the third value's `photo` read as specified |
| Kuaishou.Kuaishou.GetVideoData | src/app/kuaishou/index.py:102-112 | the video is the first backup URL, or the error |
| Kuaishou.Kuaishou.GetImageData | src/app/kuaishou/index.py:114-124 | the image list gains the specified prefixed ids |
| Kuaishou.Kuaishou.ToDict | src/app/kuaishou/index.py:126-141 | the code-200 envelope of the record |
| XiaohongshuService.FindJsonEnd | bun/src/services/xiaohongshu.service.ts:156-190 | the scanning loop gives -1 when the object never closes, else one past the first position where the brace depth returns to zero outside strings |
| XiaohongshuService.JsonEnd | bun/src/services/xiaohongshu.service.ts:156-190 | the first closing position, and no earlier one |
| XiaohongshuService.CutAtJsonEnd | bun/src/services/xiaohongshu.service.ts:192-194 | a prefix of the payload, ending in `}` when an end was found, the whole text otherwise |
| XiaohongshuService.NoBracesKeepsAll | bun/src/services/xiaohongshu.service.ts:156-194 | text without braces, quotes or backslashes is kept whole |
| XiaohongshuService.StateAfterPrefix | bun/src/services/xiaohongshu.service.ts:161-190 | the scanner state depends only on the text read so far |
| XiaohongshuService.CutDropsTrailingText | bun/src/services/xiaohongshu.service.ts:156-194 | an object followed by trailing text is cut right after its closing brace |
| XiaohongshuService.RedirectTargetCases | bun/src/services/xiaohongshu.service.ts:104-135 | explore URLs are kept; the target is the URL or a resolved URL without "404"; a failed request keeps the URL |
| XiaohongshuService.MarkedPageAccepted | bun/src/services/xiaohongshu.service.ts:64-77 | a page with the state marker is never refused |
| XiaohongshuService.ShortBarePageRejected | bun/src/services/xiaohongshu.service.ts:64-77 | a short page without the site's elements is refused |
| XiaohongshuService.SelectNotes | bun/src/services/xiaohongshu.service.ts:246-274 | fails exactly on a null state; the selected branch and note are truthy |
| XiaohongshuService.NoteDataBranchSelected | bun/src/services/xiaohongshu.service.ts:250-256 | a `noteData` branch selects `noteData.data.noteData` |
| XiaohongshuService.FirstNoteIdSelected | bun/src/services/xiaohongshu.service.ts:258-266 | otherwise `noteDetailMap[firstNoteId].note` |
| XiaohongshuService.FirstKeySelected | bun/src/services/xiaohongshu.service.ts:268-273 | otherwise the note under the map's first key |
| XiaohongshuService.ImageSource | bun/src/services/xiaohongshu.service.ts:285-309 | the image source is never null or undefined |
| XiaohongshuService.EmptyListFallsBack | bun/src/services/xiaohongshu.service.ts:303-309 | with the preloaded and own lists empty or missing, the source is a truthy `noteData.data.noteData.imageList` |
| XiaohongshuService.LongerOwnListWins | bun/src/services/xiaohongshu.service.ts:289-301 | the note's own list replaces the preloaded one only when strictly longer |
| XiaohongshuService.TryConvertToNoWatermark | bun/src/services/xiaohongshu.service.ts:374-388 | URLs with `imageView2` are kept; others gain the suffix after `?` or `&` |
| XiaohongshuService.TryConvertIdempotent | bun/src/services/xiaohongshu.service.ts:374-384 | converting twice is converting once |
| XiaohongshuService.ImageEntry | bun/src/services/xiaohongshu.service.ts:311-342 | a null image throws; with every truthy candidate a string or an array nothing throws; the URL is one of the three candidates or a converted string carrying the no-watermark suffix, and is truthy exactly when some candidate is |
| XiaohongshuService.FallbackUrl | bun/src/services/xiaohongshu.service.ts:323-333 | the first truthy of `urlSizeLarge`, `url`, `urlDefault`, kept when its string form holds no UUID and converted when it does; `urlDefault` when none is truthy; truthy exactly when some candidate is |
| XiaohongshuService.ConvertValue | bun/src/services/xiaohongshu.service.ts:374-388 | a string is converted as `TryConvertToNoWatermark` does; an array converts to its joined form plus the suffix unless an element is `imageView2`; any other value is kept |
| XiaohongshuService.UuidArrayRewritten | bun/src/services/xiaohongshu.service.ts:323-333 | a one-element array holding a UUID URL becomes the string URL with `?` and the suffix |
| XiaohongshuService.PrePostLargeWins | bun/src/services/xiaohongshu.service.ts:316-317 | a pre-post `urlSizeLarge` wins over every other candidate |
| XiaohongshuService.PrePostUrlBeatsDefault | bun/src/services/xiaohongshu.service.ts:318-319 | with no `urlSizeLarge`, a pre-post `url` is taken whatever `urlDefault` holds |
| XiaohongshuService.PrePostDefaultChosen | bun/src/services/xiaohongshu.service.ts:320-321 | a pre-post `urlDefault` is taken when `url` is not a pre-post URL |
| XiaohongshuService.UuidUrlRewritten | bun/src/services/xiaohongshu.service.ts:323-333 | a UUID-format fallback URL is rewritten to the no-watermark form |
| XiaohongshuService.MediaListsShape | bun/src/services/xiaohongshu.service.ts:311-345 | both lists hold only truthy entries, at most one per image |
| XiaohongshuService.EntriesFailAt | bun/src/services/xiaohongshu.service.ts:311-342 | one throwing image makes the whole map throw |
| XiaohongshuService.NullImageThrows | bun/src/services/xiaohongshu.service.ts:311-317 | a null image leaves both lists unreplaced |
| XiaohongshuService.ParseFailureSkipsScript | bun/src/services/xiaohongshu.service.ts:199-210 | a marker script that does not parse moves the loop on |
| XiaohongshuService.MetaOnlyWhenEmpty | bun/src/services/xiaohongshu.service.ts:216-218 | the meta description is read only when the description is still falsy |
| XiaohongshuService.VideoOnlyFromMasterUrl | bun/src/services/xiaohongshu.service.ts:348-352 | the video changes only to a truthy `masterUrl` |
| XiaohongshuService.Service.constructor | bun/src/services/xiaohongshu.service.ts:10-33 | the field initializers |
| XiaohongshuService.Service.Analyze | bun/src/services/xiaohongshu.service.ts:38-93 | the error message, or the new fields and the record, are the specified ones |
| XiaohongshuService.Service.HandleRedirect | bun/src/services/xiaohongshu.service.ts:98-136 | sets `finalUrl` to the redirect target and nothing else |
| XiaohongshuService.Service.ExtractXiaohongshuData | bun/src/services/xiaohongshu.service.ts:141-223 | the script loop and meta fallback against the specification |
| XiaohongshuService.Service.ScanPageScripts | bun/src/services/xiaohongshu.service.ts:145-212 | the loop's final state is the specified scan |
| XiaohongshuService.Service.ProcessScript | bun/src/services/xiaohongshu.service.ts:149-211 | one script's turn, and whether it breaks |
| XiaohongshuService.Service.GetMetaDescription | bun/src/services/xiaohongshu.service.ts:228-238 | a non-empty meta description replaces the description |
| XiaohongshuService.Service.ParseInitialStateInto | bun/src/services/xiaohongshu.service.ts:243-358 | the fields and the thrown flag are the specified ones |
| XiaohongshuService.Service.ApplyNotesInto | bun/src/services/xiaohongshu.service.ts:276-352 | the assignments after note selection |
| XiaohongshuService.Service.ToApiResponse | bun/src/services/xiaohongshu.service.ts:409-417 | code 200, 获取成功, the record |
| XiaohongshuService.Create | bun/src/services/xiaohongshu.service.ts:23-33 | throws exactly when no URL can be extracted |
| DouyinPage.PageKey | src/app/douyin/index.py:56-59 | the note page exactly when the raw payload contains `note_(id)`, otherwise the video page; the TypeScript reader makes the same choice at bun/src/services/douyin.service.ts:91-95 |
| DouyinService.DataDictOf | bun/src/services/douyin.service.ts:82-96 | a usable script's data dictionary is never null or undefined: a missing key falls back to `{}` |
| DouyinService.UnusableScriptSkipped | bun/src/services/douyin.service.ts:82-102 | scripts without the marker, or whose payload fails to parse, are skipped |
| DouyinService.ParsedScriptBreaks | bun/src/services/douyin.service.ts:85-98 | a parsed marker script ends the loop |
| DouyinService.OnlyFirstUsableScript | bun/src/services/douyin.service.ts:78-104 | only the first usable script is used |
| DouyinService.NoUsableScriptKeepsState | bun/src/services/douyin.service.ts:74-109 | with no usable script nothing changes |
| DouyinService.MissingInfoGivesDefaults | bun/src/services/douyin.service.ts:116-120 | no `videoInfoRes`: empty description, nothing else changes |
| DouyinService.DescriptionFromFirstItem | bun/src/services/douyin.service.ts:116-120 | the description is a truthy `item_list[0].desc`, else "" |
| DouyinService.ImageUrlOfList | bun/src/services/douyin.service.ts:144-148 | an empty `url_list` is skipped; a non-empty one gives its first entry |
| DouyinService.CollectIsFirstUrls | bun/src/services/douyin.service.ts:142-153 | without null images the loop pushes exactly each image's contribution, in order |
| DouyinService.NullImageKeepsEarlier | bun/src/services/douyin.service.ts:142-153 | a null image stops the loop but keeps what was pushed before |
| DouyinService.VideoRewrite | bun/src/services/douyin.service.ts:158-172 | `mp3` gives ""; otherwise only the first `playwm` becomes `play` |
| DouyinService.FirstPlaywmOnly | bun/src/services/douyin.service.ts:171 | the first-only rewrite equals the Python replace-all exactly when `playwm` does not occur again |
| DouyinService.NoUrlListKeepsVideo | bun/src/services/douyin.service.ts:160-173 | no `play_addr`: the video is unchanged |
| DouyinService.VideoOnlyWithKeys | bun/src/services/douyin.service.ts:129-132 | a video object without keys changes nothing |
| DouyinService.HttpErrorMessage | bun/src/services/douyin.service.ts:51-53 | a non-OK response fails with `HTTP错误: <status>` |
| DouyinService.MediaShape | bun/src/services/douyin.service.ts:182-192 | `final_url` "", `app_type` douyin, no `live_list`, seven keys |
| DouyinService.PlatformUrlIff | bun/src/services/douyin.service.ts:210-218 | the three patterns amount to a case-insensitive `douyin.com` match |
| DouyinService.Service.constructor | bun/src/services/douyin.service.ts:10-30 | the field initializers |
| DouyinService.Service.Analyze | bun/src/services/douyin.service.ts:35-69 | the error message, or the new fields and the record, are the specified ones |
| DouyinService.Service.ExtractDouyinData | bun/src/services/douyin.service.ts:74-109 | the script loop against the specification |
| DouyinService.Service.ProcessScript | bun/src/services/douyin.service.ts:78-103 | one script's turn, and whether it breaks |
| DouyinService.Service.ParseDataDictInto | bun/src/services/douyin.service.ts:114-137 | the fields after `parseDataDict` |
| DouyinService.Service.ParseImageData | bun/src/services/douyin.service.ts:142-153 | the image list gains exactly the pushed URLs |
| DouyinService.Service.ParseVideoData | bun/src/services/douyin.service.ts:158-177 | only the video changes, to its specified rewrite |
| DouyinService.Service.ToApiResponse | bun/src/services/douyin.service.ts:197-205 | code 200, 获取成功, the record |
| DouyinService.Create | bun/src/services/douyin.service.ts:20-30 | throws exactly when no URL can be extracted |
| RedirectHandler.RealAddress | bun/src/utils/redirect-handler.ts:10-35 | the URL itself, or a non-empty `Location` of a 3xx response |
| RedirectHandler.RealAddressCases | bun/src/utils/redirect-handler.ts:21-33 | a 302 with a location gives it; a failed request or a non-3xx gives the URL |
| RedirectHandler.DomainOfHttpsUrl | bun/src/utils/redirect-handler.ts:96-100 | the domain of an `https://` entry is its host |
| RedirectHandler.WhitelistIffHost | bun/src/utils/redirect-handler.ts:94-103 | whitelisted exactly when the URL contains the host of some entry |
| RedirectHandler.HostAnywherePasses | bun/src/utils/redirect-handler.ts:85-103 | a listed host anywhere in the text passes, whatever the scheme or position |
| RedirectHandler.GetWhitelistRealAddress | bun/src/utils/redirect-handler.ts:111-139 | the loop returns the specified address |
| RedirectHandler.NoRetriesKeepsAddress | bun/src/utils/redirect-handler.ts:112-139 | `maxRetries <= 0` returns the play address |
| RedirectHandler.FirstWhitelistedReturned | bun/src/utils/redirect-handler.ts:124-128 | the first whitelisted resolution is returned at once |
| RedirectHandler.FailedAttemptKeepsAddress | bun/src/utils/redirect-handler.ts:130-135 | a failed attempt keeps the address and uses a pass |
| RedirectHandler.NothingWhitelistedRunsOut | bun/src/utils/redirect-handler.ts:117-139 | without a whitelisted resolution the result is the address after exactly `maxRetries` resolutions |
| RedirectHandler.ResultIsStartOrResolved | bun/src/utils/redirect-handler.ts:111-139 | the result is the start or something the resolver returned |

## Left out

- HTTP fetching and HTML parsing: a page is given as its script texts, title, meta values, image sources and raw HTML; `httpx.get` and `fetch` are parameters returning that page or a failure.
- JSON text parsing and `JSON.stringify`: abstract functions passed as parameters; the JSON grammar, number formatting and duplicate keys (the first member wins in `Lookup`) are not modelled.
- `new URL(url)` (hostname and protocol extraction): abstract functions passed as parameters; `toLowerCase` on the hostname is ASCII lower-casing, which is exact for the hostnames WHATWG parsing produces.
- `getRealAddress` inside the retry loop: a resolver parameter whose None stands for an awaited call that threw; `tryCount` only feeds log lines and is left out.
- RedirectHandler.GetWhitelistRealAddress: `maxRetries` is an integer; a fractional or NaN `maxRetries` is not modelled.
- RedirectHandler.WhitelistIffHost: proved for any list of `https://` entries whose hosts contain no `/`; that the 46 literal entries have this form is not proved.
- Exception messages: Python's `str(e)` is reproduced for the errors the model raises itself (KeyError reprs, IndexError, the URL errors); messages of TypeError and AttributeError are approximations of CPython's wording.
- JavaScript values: prototype properties, getters and `Object.keys` order for integer-like keys are not modelled; `ToJsString` (`String(v)`, also the property key of `map[v]`) is exact for strings, booleans, null, integers, arrays and objects, and approximates fractional numbers and integers of 10^21 or more; relational comparison takes strings, arrays and objects as NaN.
- Page titles: one `title` value serves both readers. BeautifulSoup's `soup.title.text` reads the first `<title>` element, while cheerio's `$('title').text()` joins the text of every `<title>` element, including those inside inline SVG; pages whose two readings differ are not modelled.
- Fetching is a pure function of the URL: a URL that failed once fails again, so a redirect fetch that is rejected and a later fetch of the same URL that succeeds (or the reverse) are not modelled.
- Strings are sequences of code points: JavaScript's `length` is modelled in UTF-16 units, but indexing (`s[i]`) is by code point.
- Weibo: `src/app/weibo/index.py` is Selenium-driven and is a parameter of the route (`weibo`); the weibo extractor is not part of this model.
- The request's `type` and `format` fields: the TypeScript services store `type` but never read it, so it is threaded through without effect.
- The Python `Douyin` class is modelled, but the route sends douyin-classified text to `Tiktok`, so it is never reached from the route.
- `RedBook.get_html`: a pure HTTP helper that nothing in the core calls.
- Async/await, timeouts, headers, logging, the route wrapper (`request.json()` and the controller) and server wiring are not part of this model.
