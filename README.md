# ogp-server: a Dafny model of the caching image resolver

ogp-server answers `GET /image?domain=<url>&format=<json|redirect>` with the
Open Graph preview image of the page at `<url>`. Resolving an image is a
network scrape, so results are kept in a write-back key/value cache that is
persisted to a JSON file. This project models the logic of `index.js`:

- `UrlParsing` (`url_parsing.dfy`): `parseUrl`, with JavaScript's
  `split` on one-character separators (`Split`, and its inverse `Join`).
  `ParseUrl` is the imperative parser: it fills the query dictionary in a
  loop. It is proved equal to `ParseUrlSpec`, and the lemmas below are proved
  about that function.
- `CacheStore` (`cache_store.dfy`): the `KeyValueStore` class, whose fields
  `data`, `changed` and `timer` are updated in place, as in the source. Each
  of its methods is proved against a transition function on the abstract
  `StoreState` (`AfterPut`, `AfterCommit`, `AfterAutocommit`, `AfterStop`,
  `AfterHydrate`). Lemmas over whole sequences of operations (`Run`) state
  the properties the store is meant to have.
  - The file is a ghost log, `writes`, of every dictionary `commit` hands to
    the file system.
  - What hydration reads is an input, `FileState`.
  - The autocommit timer is its interval, `timer`, plus a ghost count of the
    intervals still running.
  - `Get` is a function that reads the store, so it cannot change it.
  - `NoCacheKeyValueStore` is also a class here.
- `ImageService` (`image_service.dfy`): the cache selector (`SelectCache`,
  `Configure`) and the `/image` branch of the request handler.
  - `ImageRoute` decides whether a request is an image request and gives its
    cache key.
  - `LookupImage` and `StoreLookup` model the hit/miss logic and the put
    after a resolved miss.
  - `Respond` decides the response.
  - `ServeImage` is the imperative handler over the chosen cache. It is
    proved equal to `ServeCached` for a file-backed store and to
    `ServeUncached` when caching is disabled.
  - The Open Graph resolver's outcome is an input, `ResolverOutcome`. It is
    used only on a miss.
- `ImageScenarios` (`scenarios.dfy`): whole requests, from the request URL to
  the response and the new store state.

Values are `Value = Missing | Url(string) | Urls(seq<string>)`. `Missing` is
JavaScript's `undefined`. `Truthy` is JavaScript truthiness: `Url("")` is
falsy and every list, even an empty one, is truthy. `decodeURIComponent` is
a parameter, `decode: string -> string`.

The model follows the code where its behaviour is easy to misread:

- The fallback never applies. The guard at `index.js:120-122` is evidently
  meant to substitute the `fallback` parameter when no image was found. But
  it sits inside `if (image)` (`index.js:117`) under the guard `!image`, so
  it can never run, and a falsy value is always 404 (`FallbackNeverApplies`,
  `ImageScenarios.FailedMissIgnoresFallback`). The list check reads the value
  before that dead substitution.
- The cache key is the whole `domain` value up to `?` or `#`. For example
  `http://example.com` is the key for `domain=http://example.com`. It is not
  the bare host name (`index.js:113`).
- A failed hydration does not empty the store. A missing, unreadable or
  unparsable file leaves the dictionary as it is, including any `put` made
  before (`index.js:11-25`).
- A `put` of a falsy value does not mark the store dirty (`index.js:31`).

## Model

| member | source | states |
|---|---|---|
| `UrlParsing.Split` | index.js:65-68 | every piece is free of the separator, there is at least one piece, and joining the pieces with the separator gives back the input |
| `UrlParsing.SplitJoin` | index.js:65-68 | splitting undoes joining separator-free pieces, so `Split` and `Join` are inverse |
| `UrlParsing.SplitAt` | index.js:65-68 | the text before the first separator is the first piece, and the rest is split on |
| `UrlParsing.PathOf` | index.js:65-70 | the path is a prefix of the URL with no `#` or `?`, and it ends at the first `#` or `?` (or at the end) |
| `UrlParsing.ParseUrl` | index.js:64-78 | the loop over the `&`-separated parameters builds exactly the dictionary `ParseUrlSpec` describes: path `PathOf(url)` and query `QueryOf` (the left fold of the `forEach`, index.js:73-76) of the pieces of `QueryText(url)` |
| `UrlParsing.QueryOfExtend` | index.js:73-76 | one `forEach` step adds the parameter's key with its value to the dictionary built so far |
| `UrlParsing.QueryKeys` | index.js:73-76 | a key is in the fold `QueryOf` if and only if some parameter's key is that key, where `ParamKey` is the parameter's text before its first `=` (`s[0]`, index.js:74-75) |
| `UrlParsing.QueryLastWins` | index.js:73-76 | in the fold `QueryOf`, a key's value is `ParamValue` of the last parameter carrying it (the decoded text between its first and second `=`, or "" when that is empty or missing, index.js:75), so later duplicates overwrite earlier ones |
| `UrlParsing.KeyValueParam` | index.js:74-75 | a parameter `k=v` with non-empty `v` has key `k` and value `decode(v)` |
| `UrlParsing.ParseTwoParams` | index.js:64-78 | `path?k0=v0&k1=v1` parses to that path and the two decoded parameters, the second winning a shared key |
| `UrlParsing.EmptyUrl` | index.js:65-72 | the empty (falsy) URL parses to path "" and the query `{"": ""}` |
| `CacheStore.AfterPut` | index.js:30-35 | a falsy value leaves the whole state unchanged; a truthy one becomes the key's value, every other key keeps its value, and the store becomes dirty |
| `CacheStore.AfterCommit` | index.js:36-45 | a clean store is unchanged; a dirty one issues exactly one write of its whole dictionary and becomes clean, whatever the write's outcome |
| `CacheStore.AfterAutocommit` | index.js:46-55 | with a timer set, nothing changes and no handle is returned; otherwise one timer with the given interval is started and a handle is returned |
| `CacheStore.AfterStop` | index.js:50-53 | `stop` unsets the timer and clears the one interval that was running, if any |
| `CacheStore.AfterHydrate` | index.js:11-25 | a parsed dictionary replaces the whole dictionary; a `null` parse empties it; a missing, unreadable or unparsable file leaves it; the dirty flag, timer and writes never change |
| `CacheStore.AtMostOneTimer` | index.js:46-55 | over any sequence of operations, exactly one interval runs while the timer is set and none otherwise |
| `CacheStore.StopThenAutocommitRestarts` | index.js:46-55 | after `stop`, `autocommit` starts a timer again and returns a handle |
| `CacheStore.CommitsWithoutPutWriteOnce` | index.js:36-45 | with no `put` in between, any number of commits issue at most one write, none from a clean store, and earlier writes are kept |
| `CacheStore.SyncedWithoutHydration` | index.js:30-45 | without hydration, a clean store's dictionary always equals the last dictionary written |
| `CacheStore.CommitPersistsEverything` | index.js:36-45 | after any operations other than hydration, a `commit` leaves the last write equal to the whole in-memory dictionary |
| `CacheStore.PutCommitHydrate` | index.js:11-45 | round trip: a truthy `put`, then `commit`, then a new store hydrated from the written dictionary gives back the value |
| `CacheStore.HydrationDiscardsEarlierPut` | index.js:11-35 | a `put` made before hydration is lost when the parsed file lacks the key; the store stays dirty and the next commit writes the file's dictionary |
| `CacheStore.KeyValueStore.constructor` | index.js:6-10 | a new store is bound to its file, empty, clean, with no timer and no writes |
| `CacheStore.KeyValueStore.Hydrate` | index.js:11-25 | the hydration callback changes the fields as `AfterHydrate` says |
| `CacheStore.KeyValueStore.Put` | index.js:30-35 | changes the fields as `AfterPut` says; afterwards `Get(key)` is the value if truthy, else what it was. `KeyValueStore.Get` (index.js:27-29) is a function that only reads the fields, so `get` never changes the store, and it gives `Missing` for an absent key |
| `CacheStore.KeyValueStore.Commit` | index.js:36-45 | changes the fields as `AfterCommit` says |
| `CacheStore.KeyValueStore.Autocommit` | index.js:46-49 | changes the fields and returns the handle as `AfterAutocommit` says, with interval 60000 by default |
| `CacheStore.KeyValueStore.Stop` | index.js:50-53 | changes the fields as `AfterStop` says |
| `CacheStore.NoCacheKeyValueStore.Get` | index.js:60 | the null cache never holds a truthy value |
| `CacheStore.NoCacheKeyValueStore.Put` | index.js:61 | after a `put`, `get` of the same key is still absent |
| `ImageService.Respond` | index.js:116-140 | 404 if and only if the value is falsy; for a truthy value, JSON lists `UrlsOf(value)`, all its URLs (the list itself, or `[url]` for a single one: `array ? image : [image]`, index.js:128), and a redirect goes to its first URL |
| `ImageService.FallbackNeverApplies` | index.js:116-122 | the fallback never changes the response, and a falsy value is 404 even with a fallback |
| `ImageService.RedirectToFirstListedImage` | index.js:124-135 | the redirect target is the first URL the JSON answer would list |
| `ImageService.HitSkipsResolver` | index.js:113-153 | on a hit, `StoreLookup` (the `get`, the resolver on a miss and the `put`, index.js:113-150, built on `LookupImage`) ignores the resolver's outcome and leaves the store unchanged |
| `ImageService.MissStoresResolvedImage` | index.js:142-150 | on a miss, `StoreLookup` and `LookupImage` hold the resolver's image and `put` it under the key; a failed resolution leaves the store and the held value as they were |
| `ImageService.ResolvedImageServedFromCache` | index.js:113-150 | after a miss resolved to a truthy image, the next lookup of the key is a hit with the same image and changes nothing |
| `ImageService.NotFoundExactlyWhenNothingFound` | index.js:116-150 | the answer is 404 if and only if the cache misses and the resolver fails or finds no truthy image |
| `ImageService.NoCacheAlwaysResolves` | index.js:142-150 | with caching disabled the held image is always the resolver's, or nothing when it fails |
| `ImageService.ImageRoute` | index.js:112-113 | a request is an image request if and only if its path is `/image` and `domain` is non-empty; the key is then the path of the `domain` URL (`PathOf`, so it holds no `#` or `?`), and `format` and `fallback` are the query's own parameters, absent when missing |
| `ImageService.LookupAndRespond` | index.js:114-153 | get, the resolver on a miss, and put change the store as `StoreLookup` says, and the response is `Respond` of the held value |
| `ImageService.ServeImage` | index.js:112-155 | the handler's new store state and response are those of `ServeCached` (file-backed store: `ImageRoute`, then `StoreLookup`, then `Respond`) or `ServeUncached` (caching disabled: the same with a cache that always misses); both are `None` outside the `/image` branch |
| `ImageService.SelectCache` | index.js:88-100 | no option means the null cache; an object with both `get` and `put` is used as is; anything else is a file store on its `file`, with autocommit if and only if the setting is truthy |
| `ImageService.DefaultIsAutocommittingStore` | index.js:80-85 | without arguments the server uses a store on file "" that autocommits every 60000 ms |
| `ImageService.Configure` | index.js:88-100 | builds the selected cache: a fresh, empty, clean store on the configured file with the timer set to the selected interval, or the null cache |
| `ImageScenarios.HitAnsweredAsJson` | index.js:112-153 | `/image?domain=d&format=json` with `d` cached as a single URL answers `{"images": [url]}` and leaves the store unchanged |
| `ImageScenarios.FailedMissIgnoresFallback` | index.js:112-153 | `/image?domain=d&fallback=f` with a miss and a failed resolution answers 404 and leaves the store unchanged |
| `ImageScenarios.ImageWithoutDomain` | index.js:112 | `/image` without `domain` is not handled by the image branch and leaves the store unchanged |

## Left out

- HTTP plumbing is not modelled: `http.createServer`, `writeHead`/`write`/`end`, the `/ping` route, the catch-all 404 and `listen` (`index.js:102-110`, `index.js:157-167`). Requests outside the `/image` branch give `None`.
- server.js is not part of this model: it only reads `PORT` and calls the exported factory.
- ImageService.LookupAndRespond: a lookup is one atomic step in the model (as are `StoreLookup` and `ServeCached`). In the source the `og` call (`index.js:143`) suspends between `cache.get` (`index.js:114`) and `cache.put` (`index.js:147`). So two concurrent misses on the same key each call the resolver and the later `put` wins, and a `commit` or the hydration callback can run between the `get` and the `put`. Modelling that needs an interleaving semantics of the event loop, which this sequential model does not have.
- ImageService.ServeImage: does not serve requests through a caller-supplied cache (`index.js:89-90`). Such a cache is selected, but its `get` and `put` are the caller's code.
- The Open Graph resolver (`index.js:143`) is a network call. It is an input: an error, or the value of `data.image && data.image.url`.
- File I/O and JSON are abstracted:
  - `fs.exists`, `readFile` and `writeFile` become the `FileState` input and the ghost `writes` log.
  - `JSON.stringify` followed by `JSON.parse` is taken to give the dictionary back unchanged (`PutCommitHydrate`).
  - A file that parses to a number, string, array or `true` is not modelled. For `true` (and any other truthy primitive), `_data` becomes that primitive and a later `put` throws in strict mode (`index.js:18`, `index.js:33`).
  - Stored values other than strings and lists of strings are not modelled.
- Periodic firing of the autocommit timer (`setInterval`) is not modelled. Only whether the timer is set, and its interval, are.
- Asynchrony is only partly modelled:
  - Hydration may be applied after any operations, which shows the lost-`put` race (`HydrationDiscardsEarlierPut`).
  - Overlapping `writeFile` calls, and the file contents a failed or interleaved write leaves, are not modelled.
- `decodeURIComponent` is the parameter `decode`. Its exception on a malformed escape is not modelled.
- Keys inherited from `Object.prototype` (such as `constructor` or `__proto__`) are not modelled. Both `_data` and the query dictionary are plain maps here.
- `parseUrl`'s argument is a string. The `(url || "").toString()` conversion of non-string values is not modelled, and a falsy string is "".
- The `autocommit` setting is an integer, with 0 standing for every falsy setting (including `NaN`).
- A `cache` option that is a truthy non-object, such as a string, is not modelled: `"get" in args.cache` throws on it (`index.js:89`), and `CacheArg` only describes objects.
- A 301 to an empty list gives an `undefined` `Location` (`location == None`). Node's handling of that header is not modelled.
- `NoCacheKeyValueStore`'s constructor never calls `super()`, so `new NoCacheKeyValueStore()` would throw in JavaScript (`index.js:59`). The model constructs it normally and models only its `get`/`put`.
- `console.error` logging is not modelled.
