/**
 * The `/image` lookup of the image server (index.js): choosing the cache at
 * start-up, deriving the cache key from the `domain` parameter, consulting
 * the cache and, on a miss, the Open Graph resolver, and deciding the
 * response.
 *
 * The resolver is a network call; its outcome is an input here, and it is
 * consulted only on a miss. The HTTP server itself (writing status lines,
 * headers and bodies, the `/ping` route and the catch-all 404) is not
 * modelled: the handler answers `None` for every request that is not a
 * well-formed `/image` request, which those other routes then serve.
 */
module ImageService {
  import opened Wrappers
  import opened CacheStore
  import opened UrlParsing

  /**
   * What the resolver gives: an error, or the value of
   * `data.image && data.image.url` (`Missing` when the page has no image).
   */
  datatype ResolverOutcome = ResolveFailed | Resolved(image: Value)

  /**
   * The response decided for an `/image` request: 200 with the JSON body
   * `{"images": [...]}`, 301 with a `Location` header (`None` when the list
   * held is empty, so the header value is `undefined`), or 404.
   */
  datatype Response = Images(images: seq<string>) | MovedPermanently(location: Option<string>) | NotFound

  /** Every URL a value holds, in order. */
  function UrlsOf(v: Value): seq<string> {
    match v
    case Missing => []
    case Url(u) => [u]
    case Urls(us) => us
  }

  /**
   * `respond`: a falsy value is 404; a truthy one is the JSON list of its
   * URLs when the format is "json", and otherwise a redirect to its first URL.
   * The source's fallback substitution sits inside the truthy branch under
   * the guard `!image`, so it never applies, and list detection happens
   * before it; `fallback` is therefore unused.
   */
  function Respond(image: Value, format: Option<string>, fallback: Option<string>): (r: Response)
    ensures r.NotFound? <==> !Truthy(image)
    ensures Truthy(image) && format == Some("json") ==> r == Images(UrlsOf(image))
    ensures Truthy(image) && format != Some("json") ==>
              r == MovedPermanently(if UrlsOf(image) == [] then None else Some(UrlsOf(image)[0]))
  {
    if Truthy(image) then
      var isList := image.Urls?;
      if format == Some("json") then
        Images(if isList then image.urls else [image.url])
      else
        MovedPermanently(if isList then (if image.urls == [] then None else Some(image.urls[0]))
                         else Some(image.url))
    else
      NotFound
  }

  /** A fallback never changes the response; in particular a falsy value is 404 with one. */
  lemma FallbackNeverApplies(image: Value, format: Option<string>, fallback: Option<string>)
    ensures Respond(image, format, fallback) == Respond(image, format, None)
    ensures !Truthy(image) ==> Respond(image, format, fallback) == NotFound
  {
  }

  /** The redirect goes to the first image the JSON answer would list. */
  lemma RedirectToFirstListedImage(image: Value, format: Option<string>, fallback: Option<string>)
    requires Truthy(image) && format != Some("json")
    ensures Respond(image, Some("json"), fallback).Images?
    ensures var listed := Respond(image, Some("json"), fallback).images;
            Respond(image, format, fallback) == MovedPermanently(if listed == [] then None else Some(listed[0]))
  {
  }

  /**
   * The value the handler holds after the lookup, and the value it hands to
   * `cache.put` (`None` when `put` is not called).
   */
  datatype Lookup = Lookup(image: Value, stored: Option<Value>)

  /**
   * A truthy cached value is used as it is. Otherwise the resolver is asked:
   * on an error the cached (falsy) value stays; on success its image
   * replaces it and is handed to `put`.
   */
  function LookupImage(cached: Value, outcome: ResolverOutcome): Lookup {
    if Truthy(cached) then Lookup(cached, None)
    else
      match outcome
      case ResolveFailed => Lookup(cached, None)
      case Resolved(v) => Lookup(v, Some(v))
  }

  /** The lookup against a file-backed store: the new store state and the value held. */
  function StoreLookup(s: StoreState, key: string, outcome: ResolverOutcome): (StoreState, Value) {
    var l := LookupImage(ValueAt(s.data, key), outcome);
    (if l.stored.Some? then AfterPut(s, key, l.stored.value) else s, l.image)
  }

  /** A cache hit ignores the resolver and leaves the store as it is. */
  lemma HitSkipsResolver(s: StoreState, key: string, outcome: ResolverOutcome)
    requires Truthy(ValueAt(s.data, key))
    ensures StoreLookup(s, key, outcome) == (s, ValueAt(s.data, key))
  {
  }

  /** On a miss, the resolved image is what is held and what is `put` under the key. */
  lemma MissStoresResolvedImage(s: StoreState, key: string, image: Value)
    requires !Truthy(ValueAt(s.data, key))
    ensures StoreLookup(s, key, Resolved(image)) == (AfterPut(s, key, image), image)
    ensures StoreLookup(s, key, ResolveFailed) == (s, ValueAt(s.data, key))
  {
  }

  /**
   * Once a miss is resolved to a truthy image, the next lookup of the same
   * key is a hit: it holds the same image, whatever the resolver would say,
   * and changes nothing.
   */
  lemma ResolvedImageServedFromCache(s: StoreState, key: string, image: Value, next: ResolverOutcome)
    requires !Truthy(ValueAt(s.data, key)) && Truthy(image)
    ensures var (s1, held) := StoreLookup(s, key, Resolved(image));
            held == image && StoreLookup(s1, key, next) == (s1, image)
  {
    var (s1, held) := StoreLookup(s, key, Resolved(image));
    assert ValueAt(s1.data, key) == image;
  }

  /**
   * A lookup ends in 404 exactly when the cache misses and the resolver
   * either fails or finds no truthy image, fallback or not.
   */
  lemma NotFoundExactlyWhenNothingFound(s: StoreState, key: string, outcome: ResolverOutcome,
                                        format: Option<string>, fallback: Option<string>)
    ensures Respond(StoreLookup(s, key, outcome).1, format, fallback) == NotFound <==>
            !Truthy(ValueAt(s.data, key)) && (outcome.ResolveFailed? || !Truthy(outcome.image))
  {
  }

  /**
   * With caching disabled every lookup asks the resolver, and what is held
   * is the resolver's image, or nothing when it fails.
   */
  lemma NoCacheAlwaysResolves(nc: NoCacheKeyValueStore, key: string, outcome: ResolverOutcome)
    ensures LookupImage(nc.Get(key), outcome).image == if outcome.Resolved? then outcome.image else Missing
  {
  }

  /** The parameters of a well-formed `/image` request. */
  datatype ImageQuery = ImageQuery(key: string, format: Option<string>, fallback: Option<string>)

  /** `url.query[name]`, `undefined` when absent. */
  function Param(query: map<string, string>, name: string): Option<string> {
    if name in query then Some(query[name]) else None
  }

  /**
   * The `/image` route applies when the path is "/image" and `domain` is
   * truthy; the cache key is the path of the `domain` URL.
   */
  function ImageRoute(url: ParsedUrl): (r: Option<ImageQuery>)
    ensures r.Some? <==> url.path == "/image" && Param(url.query, "domain").GetOr("") != ""
    ensures r.Some? ==> r.value == ImageQuery(PathOf(url.query["domain"]), Param(url.query, "format"), Param(url.query, "fallback"))
    ensures r.Some? ==> '#' !in r.value.key && '?' !in r.value.key
  {
    if url.path == "/image" && "domain" in url.query && url.query["domain"] != "" then
      Some(ImageQuery(PathOf(url.query["domain"]), Param(url.query, "format"), Param(url.query, "fallback")))
    else
      None
  }

  /** A request served through a file-backed store: the new store state and the response. */
  function ServeCached(s: StoreState, request: string, decode: string -> string, outcome: ResolverOutcome)
    : (StoreState, Option<Response>)
  {
    match ImageRoute(ParseUrlSpec(request, decode))
    case None => (s, None)
    case Some(q) =>
      var (s1, held) := StoreLookup(s, q.key, outcome);
      (s1, Some(Respond(held, q.format, q.fallback)))
  }

  /** A request served with caching disabled. */
  function ServeUncached(request: string, decode: string -> string, outcome: ResolverOutcome): Option<Response> {
    match ImageRoute(ParseUrlSpec(request, decode))
    case None => None
    case Some(q) => Some(Respond(LookupImage(Missing, outcome).image, q.format, q.fallback))
  }

  /** The cache chosen at start-up, when it is one of the server's own. */
  datatype Cache = FileStore(store: KeyValueStore) | NoStore(nullStore: NoCacheKeyValueStore)

  /**
   * Lines 114-153 of the handler: `cache.get`, the resolver on a miss with
   * `cache.put` of its image, then `respond`.
   */
  method LookupAndRespond(cache: Cache, q: ImageQuery, outcome: ResolverOutcome) returns (response: Response)
    requires cache.FileStore? ==> cache.store.Valid()
    modifies if cache.FileStore? then {cache.store} else {}
    ensures cache.FileStore? ==> cache.store.Valid()
    ensures cache.FileStore? ==>
              var (s1, held) := StoreLookup(old(cache.store.State()), q.key, outcome);
              cache.store.State() == s1 && response == Respond(held, q.format, q.fallback)
    ensures cache.NoStore? ==> response == Respond(LookupImage(Missing, outcome).image, q.format, q.fallback)
  {
    var image := match cache
      case FileStore(st) => st.Get(q.key)
      case NoStore(nc) => nc.Get(q.key);
    if !Truthy(image) {
      match outcome
      case ResolveFailed =>
      case Resolved(v) =>
        image := v;
        match cache {
          case FileStore(st) => st.Put(q.key, v);
          case NoStore(nc) => nc.Put(q.key, v);
        }
    }
    response := Respond(image, q.format, q.fallback);
  }

  /** The request handler's `/image` branch, acting on the chosen cache. */
  method ServeImage(cache: Cache, request: string, decode: string -> string, outcome: ResolverOutcome)
    returns (response: Option<Response>)
    requires cache.FileStore? ==> cache.store.Valid()
    modifies if cache.FileStore? then {cache.store} else {}
    ensures cache.FileStore? ==> cache.store.Valid()
    ensures cache.FileStore? ==>
              (cache.store.State(), response) == ServeCached(old(cache.store.State()), request, decode, outcome)
    ensures cache.NoStore? ==> response == ServeUncached(request, decode, outcome)
  {
    var url := ParseUrl(request, decode);
    if !(url.path == "/image" && "domain" in url.query && url.query["domain"] != "") {
      return None;
    }
    var dest := ParseUrl(url.query["domain"], decode);
    var format := if "format" in url.query then Some(url.query["format"]) else None;
    var fallback := if "fallback" in url.query then Some(url.query["fallback"]) else None;
    var q := ImageQuery(dest.path, format, fallback);
    assert ImageRoute(url) == Some(q);
    var r := LookupAndRespond(cache, q, outcome);
    response := Some(r);
  }

  /**
   * The `cache` option: absent (falsy), or an object that may have `get` and
   * `put` members and `file` and `autocommit` settings (`autocommit` 0 stands
   * for every falsy setting).
   */
  datatype CacheArg = CacheArg(hasGet: bool, hasPut: bool, file: string, autocommit: int)

  /** The `cache` option used when the server is created without arguments. */
  const DefaultCacheArg: Option<CacheArg> := Some(CacheArg(false, false, "", 60000))

  /** Created without arguments, the server uses a store on file "" that autocommits every minute. */
  lemma DefaultIsAutocommittingStore()
    ensures SelectCache(DefaultCacheArg) == UseFileStore("", Some(60000))
  {
  }

  datatype CacheChoice = UseSupplied | UseFileStore(file: string, autocommit: Option<int>) | UseNoCache

  /**
   * The cache selector: no option disables caching, an object with both
   * `get` and `put` is used as it is, and anything else configures a
   * file-backed store, with autocommit when its setting is truthy.
   */
  function SelectCache(arg: Option<CacheArg>): (c: CacheChoice)
    ensures c.UseNoCache? <==> arg.None?
    ensures c.UseSupplied? <==> arg.Some? && arg.value.hasGet && arg.value.hasPut
    ensures c.UseFileStore? ==> c.file == arg.value.file
    ensures c.UseFileStore? ==> (c.autocommit.Some? <==> arg.value.autocommit != 0)
    ensures c.UseFileStore? && c.autocommit.Some? ==> c.autocommit.value == arg.value.autocommit
  {
    match arg
    case None => UseNoCache
    case Some(a) =>
      if a.hasGet && a.hasPut then UseSupplied
      else UseFileStore(a.file, if a.autocommit != 0 then Some(a.autocommit) else None)
  }

  /**
   * Start-up: builds the selected cache. A caller-supplied cache is the
   * caller's own object, so `None` is returned for it.
   */
  method Configure(arg: Option<CacheArg>) returns (cache: Option<Cache>)
    ensures cache.None? <==> SelectCache(arg).UseSupplied?
    ensures SelectCache(arg).UseNoCache? ==> cache.Some? && cache.value.NoStore?
    ensures SelectCache(arg).UseFileStore? ==>
              && cache.Some? && cache.value.FileStore?
              && fresh(cache.value.store)
              && cache.value.store.file == SelectCache(arg).file
              && cache.value.store.Valid()
              && cache.value.store.State().data == map[]
              && !cache.value.store.State().changed
              && cache.value.store.State().timer == SelectCache(arg).autocommit
              && cache.value.store.State().writes == []
  {
    match arg
    case None =>
      var nc := new NoCacheKeyValueStore();
      cache := Some(NoStore(nc));
    case Some(a) =>
      if a.hasGet && a.hasPut {
        cache := None;
      } else {
        var st := new KeyValueStore(a.file);
        if a.autocommit != 0 {
          var _ := st.Autocommit(a.autocommit);
        }
        cache := Some(FileStore(st));
      }
  }
}
