# AxiosCache in Dafny

A model of the `Cache` class of `src/config/AxiosCache.js`, a time-to-live
response cache that sits in front of an axios instance and keeps its entries
in the browser's Web Storage.

- **Keys.** The request path keys a request as `url?cacheParams=<identity>`.
  The identity is a string body verbatim, another truthy body as JSON, or
  String(params) when the body is absent or falsy. The response path builds
  its key with String(body) instead of JSON.
- **Request hook.** With `cache === true` it looks the key up in the area
  named by `cacheMode` (sessionStorage by default). A fresh entry
  short-circuits the request. A stale entry makes it remove the bare `url`
  key. With caching off it removes the bare `url` from localStorage when
  `getItem` there returns a non-empty string, otherwise from sessionStorage. The defaults are `cache = false` and
  `expire = 100000` ms.
- **Response hook.** A 200 response with caching on is stored as
  `{expire: now, params, data, result}`. Its key is appended to `caches`,
  the list of keys written this session. On the error path, every axios
  cancellation resolves with its message's `result`. That covers the
  cache's own cancellation for a hit, which carries the stored entry, and
  any cancellation the caller raised. A string message gives undefined. An
  undefined or null message makes reading `result` throw a TypeError, so
  the hook rejects. Every other error is rejected unchanged.
- **Teardown sweep** (`mapStorage`). It walks localStorage from index 0 up
  to the length read beforehand. It removes every key it meets that carries
  the `?cacheParams=` marker and is not in `caches`.

Files:

- `wrappers.dfy`: Option and Result.
- `js_value.dfy`: JavaScript values. It defines truthiness, String(v),
  `${JSON.stringify(v)}`, what a JSON round trip keeps, property access and
  `includes`.
- `web_storage.dfy`: a Web Storage area as an ordered list of key/value
  items. The `Store` class has `getItem`, `setItem`, `removeItem`, `length`
  and `key(i)`.
- `axios_cache.dfy`: the cache.
  - Pure functions for keys, freshness and the storage helpers.
  - The request and response hooks (`Request`, `Respond`,
    `OnResponseError`) and the teardown sweep (`Sweep`), as functions over a
    snapshot of both areas.
  - The `Cache` class, whose methods perform the same steps on two `Store`
    objects and the `caches` field. Each method ends in the state the
    matching function describes.
  - `NewCache`, which models the throwing constructor.
- `cache_laws.dfy`: the properties, and a client scenario written against
  the class.

The model follows the code as written, also where it does not do what a
cache of this kind is meant to do. The lemmas named below show each case:

- A stored string that JSON.parse rejects is not a miss. getStorage throws,
  so the request is rejected (`RequestUnparsable`).
- A stale entry is not deleted. The stale branch removes the bare `url` key,
  and the stale entry stays under its cache key (`RequestStale`,
  `WriteThenStale`).
- A request with caching off does not clear that url's entries from both
  areas. It removes the bare `url` from one area only, and the entries
  stored under cache keys survive (`RequestCachingOff`,
  `CachingOffKeepsEntry`).
- The two paths do not always build the same key. They agree for string,
  number, boolean and falsy bodies (`KeysAgree`). They differ for an object
  body when `response.config.data` is still that object. Such a request
  then never hits its own stored response (`KeysDifferForObjectBody`,
  `ObjectBodyMisses`). If the object has been replaced by its JSON text by
  the time the response arrives, the keys agree again
  (`KeysAgreeForSerializedBody`).
- The key does not tell params objects apart. Every params object prints
  as `[object Object]`, so GETs to one url with different `params` objects
  share one entry. A hit then serves the other request's payload
  (`OtherParamsHit`).
- The teardown sweep need not remove every orphan. The model keeps the
  remaining keys in order after a removal, so each removal shifts the later
  keys down and the next key is skipped. Once the index passes the
  shrunken length, `key(i)` returns null and `null.includes` throws
  (`SweepSkipsOrphan`). What the sweep does guarantee is that it removes
  only orphans (`SweepRemovesOnlyOrphans`).

## Model

| member | source | states |
|---|---|---|
| `JsValue.NormalizeIsJson` | src/config/AxiosCache.js:101-109 | the value setStorage stores and getStorage parses back contains no undefined anywhere |
| `JsValue.NormalizeKeepsJson` | src/config/AxiosCache.js:101-109 | a value without undefined comes back from the JSON round trip unchanged |
| `JsValue.NormalizeIdempotent` | src/config/AxiosCache.js:101-109 | a second JSON round trip changes nothing |
| `JsValue.ContainsInfix` | src/config/AxiosCache.js:136 | a key built as `a + "?cacheParams=" + b` satisfies `key.includes("?cacheParams=")` |
| `WebStorage.Lookup` | src/config/AxiosCache.js:107 | getItem finds a value iff the key is stored, and the pair it returns is in the area |
| `WebStorage.Put` | src/config/AxiosCache.js:102 | after setItem the key reads back the new value, every other key reads as before, no other pair is added or lost |
| `WebStorage.Delete` | src/config/AxiosCache.js:113 | after removeItem the key is absent, every other key reads as before, exactly the pairs under that key are gone, and an absent key changes nothing |
| `WebStorage.PutKeepsUnique` | src/config/AxiosCache.js:102 | setItem keeps the keys of an area unique |
| `WebStorage.DeleteKeepsUnique` | src/config/AxiosCache.js:113 | removeItem keeps the keys of an area unique |
| `WebStorage.Store.GetItem` | src/config/AxiosCache.js:107 | returns the value stored under the key, or none for null |
| `WebStorage.Store.SetItem` | src/config/AxiosCache.js:102 | the area becomes Put of its old contents; keys stay unique |
| `WebStorage.Store.RemoveItem` | src/config/AxiosCache.js:113 | the area becomes Delete of its old contents; keys stay unique |
| `WebStorage.Store.Length` | src/config/AxiosCache.js:132 | returns the number of stored pairs |
| `WebStorage.Store.Key` | src/config/AxiosCache.js:135 | returns the key at position i, or null past the end |
| `AxiosCache.EffectiveCache` | src/config/AxiosCache.js:35 | the default `cache = false` applies only when the field is undefined |
| `AxiosCache.EffectiveExpire` | src/config/AxiosCache.js:36 | the default `expire = 100000` applies only when the field is undefined |
| `AxiosCache.ReadKey` | src/config/AxiosCache.js:39-43 | the read key starts with the url, is longer than it, and contains the `?cacheParams=` marker |
| `AxiosCache.WriteKey` | src/config/AxiosCache.js:84 | the write key starts with the url, is longer than it, and contains the `?cacheParams=` marker |
| `AxiosCache.Request` | src/config/AxiosCache.js:38-60 | a request that goes out carries its modelled config fields unchanged; a short-circuit or a parse failure leaves storage untouched; a short-circuit happens only with caching on and a truthy entry |
| `AxiosCache.Respond` | src/config/AxiosCache.js:73-88 | the hook always returns `response.data`; `caches` only grows, by at most one key, and by exactly one for a 200 with caching on; state changes only for a 200 with caching on |
| `AxiosCache.OnResponseError` | src/config/AxiosCache.js:90-96 | every cancellation resolves with its message's `result`, except that an undefined or null message rejects with the TypeError of reading `result`; every other error is rejected unchanged |
| `AxiosCache.Sweep` | src/config/AxiosCache.js:131-141 | the sweep never grows the area, and it throws only after localStorage has shrunk below the length read at the start |
| `AxiosCache.Cache.constructor` | src/config/AxiosCache.js:2-15 | the new cache holds the two areas and the callbacks, and `caches` is empty |
| `AxiosCache.Cache.SetStorage` | src/config/AxiosCache.js:101-103 | the selected area, sessionStorage by default, gets `JSON.stringify(value)` under the key (the text "undefined" for undefined); the other area and `caches` are unchanged |
| `AxiosCache.Cache.GetStorage` | src/config/AxiosCache.js:106-109 | returns JSON.parse of what the selected area holds under the key |
| `AxiosCache.Cache.RemoveStorage` | src/config/AxiosCache.js:112-114 | the key is removed from the selected area only |
| `AxiosCache.Cache.ClearStorage` | src/config/AxiosCache.js:122-128 | the key is removed from localStorage when it holds a truthy string there, otherwise from sessionStorage |
| `AxiosCache.Cache.OnRequest` | src/config/AxiosCache.js:26-61 | after the callback, the decision and the new storage are those of `Request`; `caches` is unchanged |
| `AxiosCache.Cache.OnResponse` | src/config/AxiosCache.js:70-89 | after the callback, the returned data, the new storage and `caches` are those of `Respond` |
| `AxiosCache.Cache.MapStorage` | src/config/AxiosCache.js:131-141 | localStorage ends as `Sweep` from index 0 over its initial length says, `threw` tells whether `key(i)` gave null, and sessionStorage and `caches` are untouched |
| `AxiosCache.NewCache` | src/config/AxiosCache.js:2-15 | construction fails exactly when no axios instance is given; otherwise the cache starts with no keys written |
| `CacheLaws.ReadKeyInjective` | src/config/AxiosCache.js:39-43 | for one url, two requests share a read key iff their body-or-params identities are equal |
| `CacheLaws.KeysAgree` | src/config/AxiosCache.js:84 | for a string, number or boolean body, or no truthy body, the write key equals the read key |
| `CacheLaws.KeysDifferForObjectBody` | src/config/AxiosCache.js:84 | for an object body that `response.config.data` still holds as the object, the write key differs from the read key |
| `CacheLaws.KeysAgreeForSerializedBody` | src/config/AxiosCache.js:84 | for an object body replaced by its JSON text before the response arrives, the write key equals the read key of the object |
| `AxiosCache.Envelope` | src/config/AxiosCache.js:78-83 | the entry setStorage is given is truthy, and its `expire`, `params`, `data` and `result` fields are the write time, the params, the body and the payload |
| `AxiosCache.Fresh` | src/config/AxiosCache.js:51 | an entry whose `expire` or whose ttl is NaN is never fresh; otherwise it is fresh exactly when less than ttl has passed since it was written |
| `AxiosCache.Clear` | src/config/AxiosCache.js:122-128 | when localStorage's `getItem` returns a non-empty string the key leaves localStorage and sessionStorage is untouched, otherwise the key leaves sessionStorage and localStorage is untouched; every other key reads as before in both areas |
| `CacheLaws.EnvelopeFields` | src/config/AxiosCache.js:78-83 | the stored entry parses back with `expire` equal to the write time and `result` equal to the payload's JSON round trip, and it is truthy |
| `CacheLaws.FreshIff` | src/config/AxiosCache.js:51 | an entry written at t0 is fresh iff `now - t0 < expire` |
| `CacheLaws.FreshnessBoundary` | src/config/AxiosCache.js:47-55 | with the default expire an entry is fresh 99999 ms after writing, and stale at 100000 and 100001 ms |
| `CacheLaws.SetThenGet` | src/config/AxiosCache.js:101-109 | getStorage after setStorage on the same area and key yields the JSON round trip of a defined value, and a parse failure for undefined; other keys read the same stored text as before, and the other area is unchanged |
| `CacheLaws.SetThenGetJson` | src/config/AxiosCache.js:101-109 | for a value without undefined, getStorage after setStorage yields exactly that value |
| `CacheLaws.MissingKeyIsMiss` | src/config/AxiosCache.js:106-109 | a missing key parses to null, which is falsy |
| `CacheLaws.RequestHit` | src/config/AxiosCache.js:44-52 | a truthy fresh entry short-circuits the request with that entry, and storage is unchanged |
| `CacheLaws.RequestMiss` | src/config/AxiosCache.js:44-46 | with no entry the request goes out with its config, and storage is unchanged |
| `CacheLaws.RequestUnparsable` | src/config/AxiosCache.js:44 | an entry JSON.parse rejects makes the request fail, and storage is unchanged |
| `CacheLaws.RequestStale` | src/config/AxiosCache.js:53-55 | a stale entry lets the request go out; only the bare url is removed from the selected area; the other area is unchanged and the stale entry still reads the same |
| `CacheLaws.RequestCachingOff` | src/config/AxiosCache.js:57-58 | with caching off the request goes out; the bare url is removed from localStorage when `getItem` there returns a non-empty string, otherwise from sessionStorage; the other area and every other key are unchanged |
| `CacheLaws.RespondNotOk` | src/config/AxiosCache.js:73-75 | a non-200 response returns its data, and storage and `caches` are unchanged |
| `CacheLaws.RespondCachingOff` | src/config/AxiosCache.js:76-88 | a 200 response with caching off returns its data, and storage and `caches` are unchanged |
| `CacheLaws.RespondWrites` | src/config/AxiosCache.js:76-88 | a 200 response with caching on appends its write key to `caches` and stores the envelope under it in the selected area; other keys read the same stored text as before, the other area is unchanged, and it returns the data |
| `CacheLaws.WriteThenHit` | src/config/AxiosCache.js:44-93 | a stored 200 response whose body is a string, number, boolean or falsy is hit by the same request made less than expire later; storage is unchanged, and the request resolves with the payload's JSON round trip |
| `CacheLaws.OtherParamsHit` | src/config/AxiosCache.js:39-93 | a 200 response stored for one params object is hit by a request to the same url with a different params object less than expire later, and that request resolves with the first response's payload after its JSON round trip |
| `CacheLaws.WriteThenHitExact` | src/config/AxiosCache.js:78-93 | for a payload without undefined in it, such as `{a: 1}`, the hit resolves with exactly that payload |
| `CacheLaws.WriteThenStale` | src/config/AxiosCache.js:51-55 | the same request once expire has passed goes out, and the stale entry stays stored under its key |
| `CacheLaws.ObjectBodyMisses` | src/config/AxiosCache.js:39-86 | for an object body still held as the object in the response's config, the repeat of a stored request is a miss when nothing was stored under its read key before |
| `CacheLaws.CachingOffKeepsEntry` | src/config/AxiosCache.js:57-58 | a request with caching off leaves the entry stored under the cache key in place |
| `CacheLaws.SweepRemovesOnlyOrphans` | src/config/AxiosCache.js:131-141 | the sweep adds nothing, and it keeps every item whose key is in `caches` or lacks the marker |
| `CacheLaws.SweepKeepsUnique` | src/config/AxiosCache.js:137 | the sweep keeps the keys of localStorage unique |
| `CacheLaws.SweepSkipsOrphan` | src/config/AxiosCache.js:134-137 | with two orphans and nothing written, the second orphan survives and the sweep throws |
| `CacheLaws.SweepExample` | src/config/AxiosCache.js:131-141 | with `/x?cacheParams=1` written this session, `/y?cacheParams=2` is removed and `/x?cacheParams=1` stays |
| `CacheLaws.HitScenario` | src/config/AxiosCache.js:38-95 | on a fresh cache object, a stored 200 response with a JSON payload is answered 99999 ms later by a short-circuit that resolves with that payload |

## Left out

- Interceptor registration (`interceptors.request.use`, `interceptors.response.use`) is not modelled. The hooks are methods called directly.
- The request interceptor's error handler is not modelled. It rejects the error unchanged.
- The optional interceptor callbacks are modelled as synchronous functions that may return a replacement. Awaiting them is not modelled.
- The cancellation semantics assumed are those of axios 0.x's `Cancel`, which keeps the message as given. Later axios versions raise a `CanceledError` that replaces an undefined or null message with `"canceled"`. Under that, the hook resolves with undefined where the model rejects (`OnResponseError`). The repository does not pin the axios version.
- `CancelToken` and `isCancel` are not modelled. A hit is the `ShortCircuit` decision. Any axios cancellation arriving at the response hook is the `Cancel` error.
- The request config is modelled by the fields the cache reads. When an entry exists, the source replaces `config.cancelToken` with the cache's own token, which discards a token the caller supplied. The model does not capture that, including on the stale branch, where the request goes out.
- The model takes `response.config` as given. It does not model axios's transformRequest. With the default transformRequest, an object body reaches the response hook as its JSON text, and the keys then agree.
- The `window.onbeforeunload` wiring is not modelled. `MapStorage` is called directly.
- `Date().getTime()` is not modelled. The current time is a parameter.
- The exact JSON text is not modelled. A stored string is either JSON text, modelled as the value it parses to, or text that JSON.parse rejects.
- JavaScript numbers are integers here. NaN, Infinity and fractions are not modelled.
- Numbers are unbounded here. Precision loss beyond 2^53 is not modelled, and neither is the exponent form String() and JSON.stringify print from 1e21 on. `IntText` prints every digit.
- JavaScript's `-0` is not modelled. It has no counterpart in `int`.
- Values that make `JSON.stringify` throw, BigInt and circular structures, cannot be expressed by `Value`. Such a body would reject the request at line 42. Such a payload would reject the response at line 102, after line 85 had already pushed its key to `caches`.
- Converting strings, arrays and objects to numbers (for a string or array `expire`) is not modelled. Such operands count as NaN.
- Lone surrogates in JSON strings are not escaped in the model.
- Functions, symbols, dates, duplicate member names and `toString`/`toJSON` overrides in bodies and params are not modelled.
- A url that is not a string is not modelled, and neither is a `cacheMode` other than the two storage areas.
- Web Storage leaves the order of `key(i)` to the browser. It is stable only while the number of keys does not change. The model appends a new key and keeps the remaining keys in order after a removal. The exact end state of `MapStorage` and `Sweep` depends on that choice. `SweepRemovesOnlyOrphans` and `SweepSkipsOrphan` do not.
- `src/icons/index.js` registers Vue components and loads SVG files. It has no cache logic and is not part of this model.
