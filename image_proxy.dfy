/** Rewriting of external image URLs to the same-origin proxy endpoint. */
module ImageProxy {
  import opened Strings
  import opened UriEncoding

  const ProxyPrefix: string := "/api/proxy-image?url="

  /** Relative URLs and the local host are served directly. */
  predicate Exempt(url: string) {
    StartsWith(url, "/") || StartsWith(url, "http://localhost") || StartsWith(url, "https://localhost")
  }

  /**
   * `proxyImageUrl`: the empty URL and exempt URLs come back unchanged;
   * every other URL becomes the proxy endpoint with the whole URL as its
   * single, encoded `url` parameter.
   */
  function ProxyImageUrl(url: string): (r: string)
    ensures url == "" ==> r == url
    ensures Exempt(url) ==> r == url
    ensures url != "" && !Exempt(url) ==> r == ProxyPrefix + EncodeUriComponent(url)
  {
    if url == "" then url
    else if Exempt(url) then url
    else ProxyPrefix + EncodeUriComponent(url)
  }

  /** A proxied URL is relative, so it is exempt itself. */
  lemma ProxiedIsExempt(url: string)
    ensures ProxyImageUrl(url) == "" || Exempt(ProxyImageUrl(url))
  {
    var r := ProxyImageUrl(url);
    if url != "" && !Exempt(url) {
      assert r[..1] == "/";
    }
  }

  /** Proxying twice is proxying once. */
  lemma ProxyIdempotent(url: string)
    ensures ProxyImageUrl(ProxyImageUrl(url)) == ProxyImageUrl(url)
  {
    ProxiedIsExempt(url);
  }

  /** The characters that end or split a query parameter, or a URL's path. */
  predicate Separator(c: char) {
    c == '/' || c == '?' || c == '&' || c == '#' || c == '=' || c == ' '
  }

  /**
   * The query of a proxied URL carries the whole original URL in one
   * parameter: after the prefix no separator of a URL can occur.
   */
  lemma ProxiedQueryIsOneParameter(url: string)
    requires url != "" && !Exempt(url)
    ensures StartsWith(ProxyImageUrl(url), ProxyPrefix)
    ensures var q := ProxyImageUrl(url)[|ProxyPrefix|..];
      |q| >= |url| && forall i :: 0 <= i < |q| ==> !Separator(q[i])
  {
    var e := EncodeUriComponent(url);
    var r := ProxyImageUrl(url);
    assert r == ProxyPrefix + e;
    assert r[..|ProxyPrefix|] == ProxyPrefix;
    assert r[|ProxyPrefix|..] == e;
    forall i | 0 <= i < |e|
      ensures !Separator(e[i])
    {
      assert EncodedChar(e[i]);
    }
  }

  /** `proxyImageUrls`: the same URLs, in the same order, each proxied. */
  function ProxyImageUrls(urls: seq<string>): (r: seq<string>)
    ensures |r| == |urls|
    ensures forall i :: 0 <= i < |urls| ==> r[i] == ProxyImageUrl(urls[i])
  {
    if urls == [] then [] else [ProxyImageUrl(urls[0])] + ProxyImageUrls(urls[1..])
  }
}
