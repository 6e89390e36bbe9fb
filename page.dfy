/**
 * What the extractors read from a fetched page, given as inputs instead of
 * HTTP requests and HTML parsing.
 */
module PageInput {
  import opened Wrappers

  /** A parsed HTML page reduced to the parts the extractors look at. */
  datatype Page = Page(
    /** The text of every `<script>` element in document order ("" when it has none). */
    scripts: seq<string>,
    /** The text of `<title>`, "" when there is none. */
    title: string,
    /** `<meta name="description">`: None when absent, else its `content` ("" when missing). */
    metaDescription: Option<string>,
    /** `<meta property="og:description">`, in the same form. */
    metaOgDescription: Option<string>,
    /** The `src` of every `<img>` in document order ("" when missing). */
    imageSources: seq<string>,
    /** The raw HTML text. */
    html: string)

  /** What `httpx.get(url, follow_redirects=True)` gives: a failure, or the final URL and the page. */
  datatype PyFetch =
    | PyFetchFailed(error: string)
    | PyFetched(finalUrl: string, page: Page)

  /** What `await fetch(url)` gives: a rejection, or a response with its status and final URL. */
  datatype JsFetch =
    | FetchRejected(message: string)
    | Responded(ok: bool, status: nat, statusText: string, url: string, page: Page)

  /**
   * BeautifulSoup's `find(name=description) or find(og:description)`, then
   * `meta.get('content', '')`: the first tag present wins, even with empty content.
   */
  function PyMetaDescription(p: Page): (d: string)
    ensures p.metaDescription.Some? ==> d == p.metaDescription.value
    ensures p.metaDescription.None? && p.metaOgDescription.Some? ==> d == p.metaOgDescription.value
    ensures p.metaDescription.None? && p.metaOgDescription.None? ==> d == ""
  {
    match p.metaDescription
    case Some(c) => c
    case None => p.metaOgDescription.GetOr("")
  }

  /**
   * cheerio's `attr('content') || og attr('content') || ''`: an empty content
   * falls through to the next source.
   */
  function TsMetaDescription(p: Page): (d: string)
    ensures d != "" ==> Some(d) == p.metaDescription || Some(d) == p.metaOgDescription
    ensures p.metaDescription.Some? && p.metaDescription.value != "" ==> d == p.metaDescription.value
  {
    var name := p.metaDescription.GetOr("");
    if name != "" then name else p.metaOgDescription.GetOr("")
  }
}
