/**
 * Whole requests through the `/image` handler: a cache hit answered as
 * JSON, a failed miss answered 404 although a fallback is given, and a
 * request without `domain` left to the other routes.
 */
module ImageScenarios {
  import opened Wrappers
  import opened CacheStore
  import opened UrlParsing
  import opened ImageService

  lemma LiteralsPlain()
    ensures Plain("domain") && Plain("format") && Plain("json") && Plain("fallback")
  {
  }

  lemma JsonRequestText(d: string)
    ensures "/image" + "?" + "domain" + "=" + d + "&" + "format" + "=" + "json" == "/image?domain=" + d + "&format=json"
  {
  }

  lemma FallbackRequestText(d: string, f: string)
    ensures "/image" + "?" + "domain" + "=" + d + "&" + "fallback" + "=" + f == "/image?domain=" + d + "&fallback=" + f
  {
  }

  /** `/image?domain=d&format=json` names the key `d` and asks for JSON. */
  lemma JsonRequestParses(d: string, decode: string -> string)
    requires Plain(d)
    requires d != "" && decode(d) == d && decode("json") == "json"
    ensures ParseUrlSpec("/image?domain=" + d + "&format=json", decode)
            == ParsedUrl("/image", map["domain" := d]["format" := "json"])
  {
    LiteralsPlain();
    ParseTwoParams("/image", "domain", d, "format", "json", decode);
    JsonRequestText(d);
  }

  /** `/image?domain=d&fallback=f` names the key `d`, asks for a redirect and gives a fallback. */
  lemma FallbackRequestParses(d: string, f: string, decode: string -> string)
    requires Plain(d) && Plain(f)
    requires d != "" && f != "" && decode(d) == d
    ensures ParseUrlSpec("/image?domain=" + d + "&fallback=" + f, decode)
            == ParsedUrl("/image", map["domain" := d]["fallback" := decode(f)])
  {
    LiteralsPlain();
    ParseTwoParams("/image", "domain", d, "fallback", f, decode);
    FallbackRequestText(d, f);
  }

  /**
   * A cached single URL, requested as JSON, is answered from the cache as a
   * one-element list, whatever the resolver would say, and the store is
   * unchanged.
   */
  lemma HitAnsweredAsJson(s: StoreState, d: string, u: string, decode: string -> string, outcome: ResolverOutcome)
    requires Plain(d)
    requires d != "" && decode(d) == d && decode("json") == "json"
    requires ValueAt(s.data, d) == Url(u) && u != ""
    ensures ServeCached(s, "/image?domain=" + d + "&format=json", decode, outcome) == (s, Some(Images([u])))
  {
    JsonRequestParses(d, decode);
    PlainPath(d);
    var url := ParsedUrl("/image", map["domain" := d]["format" := "json"]);
    assert ImageRoute(url) == Some(ImageQuery(d, Some("json"), None));
  }

  /**
   * A miss whose resolution fails is answered 404 even though the request
   * carries a fallback, and the store is unchanged.
   */
  lemma FailedMissIgnoresFallback(s: StoreState, d: string, f: string, decode: string -> string)
    requires Plain(d) && Plain(f)
    requires d != "" && f != "" && decode(d) == d
    requires !Truthy(ValueAt(s.data, d))
    ensures ServeCached(s, "/image?domain=" + d + "&fallback=" + f, decode, ResolveFailed) == (s, Some(NotFound))
  {
    var request := "/image?domain=" + d + "&fallback=" + f;
    FallbackRequestParses(d, f, decode);
    FallbackRoute(d, decode(f));
    assert ImageRoute(ParseUrlSpec(request, decode)) == Some(ImageQuery(d, None, Some(decode(f))));
    assert StoreLookup(s, d, ResolveFailed) == (s, ValueAt(s.data, d));
  }

  lemma FallbackRoute(d: string, fallback: string)
    requires Plain(d) && d != ""
    ensures ImageRoute(ParsedUrl("/image", map["domain" := d]["fallback" := fallback]))
            == Some(ImageQuery(d, None, Some(fallback)))
  {
    PlainPath(d);
    var query := map["domain" := d]["fallback" := fallback];
    assert "format" !in query;
  }

  /** `/image` without a `domain` is not an image request: the store is untouched. */
  lemma ImageWithoutDomain(s: StoreState, decode: string -> string, outcome: ResolverOutcome)
    ensures ServeCached(s, "/image", decode, outcome) == (s, None)
  {
    SplitJoin(["/image"], '#');
    SplitJoin(["/image"], '?');
    SplitJoin([""], '&');
  }
}
