/**
 * The TypeScript redirect handler: the whitelist of video CDN hosts, the
 * host-substring whitelist test, one manual-redirect resolution
 * (`getRealAddress`), and the bounded loop that re-resolves an address until
 * it lands on a whitelisted host.
 */
module RedirectHandler {
  import opened Wrappers
  import Text

  /** `DOWNLOAD_FILE_URLS`, in source order. */
  const DownloadFileUrls: seq<string> := [
    "https://txmov2.a.yximgs.com", "https://v1-cold.douyinvod.com", "https://v1-y.douyinvod.com",
    "https://v1.douyinvod.com", "https://v11-x.douyinvod.com", "https://v11.douyinvod.com",
    "https://v26-cold.douyinvod.com", "https://v26.douyinvod.com", "https://v29-cold.douyinvod.com",
    "https://v29.douyinvod.com", "https://v3-a.douyinvod.com", "https://v3-b.douyinvod.com",
    "https://v3-c.douyinvod.com", "https://v3-cold.douyinvod.com", "https://v3-d.douyinvod.com",
    "https://v3-e.douyinvod.com", "https://v3-x.douyinvod.com", "https://v3-y.douyinvod.com",
    "https://v3-z.douyinvod.com", "https://v5-cold.douyinvod.com", "https://v5-coldb.douyinvod.com",
    "https://v5-coldc.douyinvod.com", "https://v5-coldy.douyinvod.com", "https://v5-e.douyinvod.com",
    "https://v5-f.douyinvod.com", "https://v5-g.douyinvod.com", "https://v5-h.douyinvod.com",
    "https://v5-i.douyinvod.com", "https://v5-j.douyinvod.com", "https://v6-cold.douyinvod.com",
    "https://v6-x.douyinvod.com", "https://v6-y.douyinvod.com", "https://v6-z.douyinvod.com",
    "https://v6.douyinvod.com", "https://v83-c.douyinvod.com", "https://v83-d.douyinvod.com",
    "https://v83-x.douyinvod.com", "https://v83-y.douyinvod.com", "https://v83-z.douyinvod.com",
    "https://v83.douyinvod.com", "https://v9-cold.douyinvod.com", "https://v9-x.douyinvod.com",
    "https://v9-z.douyinvod.com", "https://v9.douyinvod.com", "https://v95.douyinvod.com",
    "https://v95-sz-cold.douyinvod.com"]

  /** `u.replace('https', 'http')`, then `.replace('http://', '').replace('https://', '')`. */
  function WhitelistDomain(u: string): string
  {
    Text.ReplaceFirst(Text.ReplaceFirst(Text.ReplaceFirst(u, "https", "http"), "http://", ""), "https://", "")
  }

  /** `httpUrls.some(...)` over a list of entries: some entry's domain occurs anywhere in `url`. */
  predicate InWhitelist(url: string, entries: seq<string>)
  {
    exists k :: 0 <= k < |entries| && Text.Contains(url, WhitelistDomain(entries[k]))
  }

  /** `isUrlInWhitelist`. */
  predicate IsUrlInWhitelist(url: string)
  {
    InWhitelist(url, DownloadFileUrls)
  }

  /** The host part of an entry: the text after `https://`. */
  function AfterScheme(u: string): string
  {
    if "https://" <= u then u[8..] else u
  }

  /** An entry of the form `https://<host>` whose host has no `/`, as every entry of the list is. */
  predicate HttpsHost(u: string)
  {
    "https://" <= u && '/' !in u[8..]
  }

  /** What a `HEAD` request with `redirect: 'manual'` gives. */
  datatype HeadResult =
    | HeadFailed
    | HeadResponse(status: int, location: Option<string>)

  /**
   * `getRealAddress`: the `Location` header of a 3xx response when it is
   * non-empty, otherwise the URL itself; a failed request also gives the URL.
   */
  function RealAddress(url: string, head: string -> HeadResult): (r: string)
    ensures r == url || (head(url).HeadResponse? && 300 <= head(url).status < 400 && Some(r) == head(url).location && r != "")
  {
    match head(url)
    case HeadFailed => url
    case HeadResponse(status, location) =>
      if 300 <= status < 400 && location.Some? && location.value != "" then location.value else url
  }

  /**
   * The loop of `getWhitelistRealAddress` from `current` with `tries` passes
   * left: `resolve` stands for the awaited `getRealAddress`, None for an
   * attempt that threw.
   */
  function Resolve(current: string, tries: nat, resolve: string -> Option<string>): string
    decreases tries
  {
    if tries == 0 then current
    else
      match resolve(current)
      case None => Resolve(current, tries - 1, resolve)
      case Some(a) => if IsUrlInWhitelist(a) then a else Resolve(a, tries - 1, resolve)
  }

  /** The number of passes of `for (let i = 0; i < maxRetries; i++)` for an integer `maxRetries`. */
  function Passes(maxRetries: int): nat
  {
    if maxRetries <= 0 then 0 else maxRetries
  }

  /** `getWhitelistRealAddress(playAddress, maxRetries)`. */
  function WhitelistRealAddress(playAddress: string, maxRetries: int, resolve: string -> Option<string>): string
  {
    Resolve(playAddress, Passes(maxRetries), resolve)
  }

  /** The address reached after `k` resolutions, whitelist ignored; a failed attempt stays put. */
  function Iterate(current: string, k: nat, resolve: string -> Option<string>): string
    decreases k
  {
    if k == 0 then current
    else
      match resolve(current)
      case None => Iterate(current, k - 1, resolve)
      case Some(a) => Iterate(a, k - 1, resolve)
  }

  // ---------------------------------------------------------------------------
  // The loop

  /** `getWhitelistRealAddress`, with the resolver as a parameter. */
  method GetWhitelistRealAddress(playAddress: string, maxRetries: int, resolve: string -> Option<string>)
    returns (address: string)
    ensures address == WhitelistRealAddress(playAddress, maxRetries, resolve)
  {
    var currentAddress := playAddress;
    var i := 0;
    while i < maxRetries
      invariant 0 <= i <= Passes(maxRetries)
      invariant Resolve(currentAddress, Passes(maxRetries) - i, resolve) == WhitelistRealAddress(playAddress, maxRetries, resolve)
    {
      var realAddress := resolve(currentAddress);
      if realAddress.Some? {
        if IsUrlInWhitelist(realAddress.value) {
          return realAddress.value;
        }
        currentAddress := realAddress.value;
      }
      i := i + 1;
    }
    return currentAddress;
  }

  // ---------------------------------------------------------------------------
  // Properties

  /** The domain of an `https://` entry is its host. */
  lemma DomainOfHttpsUrl(u: string)
    requires HttpsHost(u)
    ensures WhitelistDomain(u) == AfterScheme(u)
  {
    var h := u[8..];
    assert u == "https://" + h;
    assert Text.OccursAt(u, "https", 0);
    var v := "http" + u[5..];
    assert Text.ReplaceFirst(u, "https", "http") == v;
    assert v == "http://" + h;
    assert Text.OccursAt(v, "http://", 0);
    assert Text.ReplaceFirst(v, "http://", "") == h;
    forall k: nat | k + 8 <= |h|
      ensures !Text.OccursAt(h, "https://", k)
    {
      assert h[k + 6] in h;
    }
  }

  /** Over `https://` entries, the whitelist test holds exactly when `url` contains the host of some entry. */
  lemma WhitelistIffHost(url: string, entries: seq<string>)
    requires forall k :: 0 <= k < |entries| ==> HttpsHost(entries[k])
    ensures InWhitelist(url, entries) <==> exists k :: 0 <= k < |entries| && Text.Contains(url, AfterScheme(entries[k]))
  {
    forall k | 0 <= k < |entries|
      ensures WhitelistDomain(entries[k]) == AfterScheme(entries[k])
    {
      DomainOfHttpsUrl(entries[k]);
    }
  }

  /** The host of the last entry may appear anywhere, even in a query string, under either scheme. */
  lemma HostAnywherePasses(a: string, b: string)
    ensures IsUrlInWhitelist(a + "v95-sz-cold.douyinvod.com" + b)
  {
    var host := "v95-sz-cold.douyinvod.com";
    var k := |DownloadFileUrls| - 1;
    assert DownloadFileUrls[k] == "https://" + host;
    assert '/' !in host;
    DomainOfHttpsUrl(DownloadFileUrls[k]);
    assert DownloadFileUrls[k][8..] == host;
    Text.ContainsAt(host, host, 0);
    Text.ContainsExtended(a, host, b, host);
  }

  /** No retries: the play address comes back unresolved. */
  lemma NoRetriesKeepsAddress(playAddress: string, maxRetries: int, resolve: string -> Option<string>)
    requires maxRetries <= 0
    ensures WhitelistRealAddress(playAddress, maxRetries, resolve) == playAddress
  {
  }

  /** The first resolved address that passes the whitelist is returned at once. */
  lemma FirstWhitelistedReturned(current: string, tries: nat, resolve: string -> Option<string>)
    requires tries > 0 && resolve(current).Some? && IsUrlInWhitelist(resolve(current).value)
    ensures Resolve(current, tries, resolve) == resolve(current).value
  {
  }

  /** A failed attempt keeps the current address and uses up one pass. */
  lemma FailedAttemptKeepsAddress(current: string, tries: nat, resolve: string -> Option<string>)
    requires tries > 0 && resolve(current).None?
    ensures Resolve(current, tries, resolve) == Resolve(current, tries - 1, resolve)
  {
  }

  /**
   * When no resolution is whitelisted the loop runs all its passes and
   * returns the address reached after exactly that many resolutions.
   */
  lemma {:induction false} NothingWhitelistedRunsOut(current: string, tries: nat, resolve: string -> Option<string>)
    requires forall u :: resolve(u).Some? ==> !IsUrlInWhitelist(resolve(u).value)
    ensures Resolve(current, tries, resolve) == Iterate(current, tries, resolve)
    decreases tries
  {
    if tries > 0 {
      match resolve(current)
      case None => NothingWhitelistedRunsOut(current, tries - 1, resolve);
      case Some(a) => NothingWhitelistedRunsOut(a, tries - 1, resolve);
    }
  }

  /** The result is the starting address or something the resolver returned. */
  lemma {:induction false} ResultIsStartOrResolved(current: string, tries: nat, resolve: string -> Option<string>)
    ensures Resolve(current, tries, resolve) == current
         || exists u :: resolve(u) == Some(Resolve(current, tries, resolve))
    decreases tries
  {
    if tries > 0 {
      match resolve(current)
      case None => ResultIsStartOrResolved(current, tries - 1, resolve);
      case Some(a) =>
        if !IsUrlInWhitelist(a) {
          ResultIsStartOrResolved(a, tries - 1, resolve);
        }
    }
  }

  /** `getRealAddress` follows one redirect: a 3xx with a location gives it, anything else the URL. */
  lemma RealAddressCases(url: string, head: string -> HeadResult, location: string)
    ensures head(url) == HeadResponse(302, Some(location)) && location != "" ==> RealAddress(url, head) == location
    ensures head(url).HeadFailed? ==> RealAddress(url, head) == url
    ensures head(url).HeadResponse? && !(300 <= head(url).status < 400) ==> RealAddress(url, head) == url
  {
  }
}
