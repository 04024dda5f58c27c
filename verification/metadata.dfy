/**
 * lib/utils/metadata.ts: URL normalisation, the display hostname and the
 * shape of the metadata record. Fetching the page and scraping its HTML are
 * not modelled: what the scrape found is an input.
 */
module Metadata {
  import opened Wrappers
  import opened Strings
  import opened Urls

  /** `normalizeUrl`: empty stays empty; a missing `http(s)://` becomes `https://`. */
  function NormalizeUrl(url: string): (r: string)
    ensures url == [] ==> r == []
    ensures url != [] && !HasHttpPrefixCI(url) ==> r == "https://" + url
    ensures HasHttpPrefixCI(url) ==> r == url
    ensures r != [] ==> HasHttpPrefixCI(r)
  {
    if url == [] then url
    else if !HasHttpPrefixCI(url) then
      assert ("https://" + url)[..8] == "https://";
      "https://" + url
    else url
  }

  /** Normalising twice is normalising once. */
  lemma NormalizeUrlIdempotent(url: string)
    ensures NormalizeUrl(NormalizeUrl(url)) == NormalizeUrl(url)
  {
  }

  /** `getHostname`: the parsed hostname, or the input itself when it does not parse. */
  function GetHostname(url: string, parse: UrlParser): (r: string)
    ensures parse(url).None? ==> r == url
    ensures parse(url).Some? ==> r == parse(url).value.hostname
  {
    match parse(url)
    case None => url
    case Some(u) => u.hostname
  }

  /** `isValidUrl`: `new URL` succeeds. */
  function IsValidUrl(url: string, parse: UrlParser): (r: bool)
    ensures r <==> parse(url).Some?
  {
    parse(url).Some?
  }

  /** The fetched record; `title` is always set on every path. */
  datatype BookmarkMetadata = BookmarkMetadata(title: string, description: Option<string>, favicon: Option<string>)

  /** What the page fetch found: the `<title>` and meta-description groups, if the fetch got that far. */
  datatype Scrape = Scrape(titleMatch: Option<string>, descriptionMatch: Option<string>)

  const FaviconService: string := "https://www.google.com/s2/favicons?domain="

  function FaviconUrl(hostname: string): (r: string)
    ensures |r| == |FaviconService| + |hostname| + 6
    ensures StartsWith(r, FaviconService) && EndsWith(r, "&sz=32")
    ensures r[|FaviconService|..|r| - 6] == hostname
  {
    var r := FaviconService + hostname + "&sz=32";
    assert r[..|FaviconService|] == FaviconService;
    assert r[|r| - 6..] == "&sz=32";
    assert r[|FaviconService|..|r| - 6] == hostname;
    r
  }

  /**
   * `fetchBookmarkMetadata`: a URL that does not parse gives just the raw url
   * as title; otherwise the favicon service link, the scraped title (trimmed)
   * or else the hostname, and the scraped description (trimmed) if any.
   */
  function FetchBookmarkMetadata(url: string, parse: UrlParser, scrape: Scrape): (r: BookmarkMetadata)
    ensures parse(url).None? ==> r == BookmarkMetadata(url, None, None)
    ensures parse(url).Some? ==>
      && r.favicon == Some(FaviconUrl(parse(url).value.hostname))
      && r.title == (if scrape.titleMatch.Some? then Trim(scrape.titleMatch.value) else parse(url).value.hostname)
      && (r.description.Some? <==> scrape.descriptionMatch.Some?)
      && (r.description.Some? ==> r.description.value == Trim(scrape.descriptionMatch.value))
  {
    match parse(url)
    case None => BookmarkMetadata(url, None, None)
    case Some(u) =>
      var title := match scrape.titleMatch case Some(t) => Trim(t) case None => u.hostname;
      var description := match scrape.descriptionMatch case Some(d) => Some(Trim(d)) case None => None;
      BookmarkMetadata(title, description, Some(FaviconUrl(u.hostname)))
  }

  /** With nothing scraped (the fetch failed or was refused) the title is the display hostname. */
  lemma MetadataTitleFallback(url: string, parse: UrlParser)
    ensures FetchBookmarkMetadata(url, parse, Scrape(None, None)).title == GetHostname(url, parse)
    ensures FetchBookmarkMetadata(url, parse, Scrape(None, None)).description == None
  {
  }
}
