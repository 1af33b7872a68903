/**
 * The response cache that sits in front of an axios instance
 * (src/config/AxiosCache.js). A request hook looks a request up in Web
 * Storage and, on a fresh entry, short-circuits the call; a response hook
 * stores successful responses; a teardown sweep removes the orphaned entries
 * of durable storage that it reaches.
 *
 * The decisions are pure functions over a snapshot of both storage areas
 * (Request, Respond, Clear, Sweep); the class Cache performs them step by step
 * on its two Store objects and its `caches` list, and each of its methods ends
 * in exactly the state the matching function describes.
 */
module AxiosCache {
  import opened Wrappers
  import opened JsValue
  import opened WebStorage

  const DefaultCache := false
  const DefaultExpire := 100 * 1000
  /** What every cache key carries between the url and the request identity. */
  const Marker := "?cacheParams="

  /** The storage area a request names in `cacheMode` (`window[mode]`). */
  datatype Mode = SessionStorage | LocalStorage

  /** The fields of an axios request config the cache reads; Undefined marks an absent field. */
  datatype Config = Config(
    url: string,
    data: Value,
    params: Value,
    cacheMode: Option<Mode>,
    cache: Value,
    expire: Value)

  datatype Response = Response(status: int, data: Value, config: Config)

  /**
   * What the request hook hands on: the config to send, the cached entry to
   * answer with instead of sending (the cancellation the source raises for a
   * hit), or the SyntaxError JSON.parse threw on a stored string.
   */
  datatype Decision = Proceed(config: Config) | ShortCircuit(entry: Value) | ParseFailed

  /**
   * An error reaching the response hook: any axios cancellation (the cache's
   * own for a hit, or one the caller raised), the SyntaxError of a request
   * whose stored entry JSON.parse rejected, a transport failure, or the
   * TypeError the hook itself throws reading `result` of an undefined or
   * null cancellation message.
   */
  datatype HttpError =
    | Cancel(message: Value)
    | StorageSyntaxError
    | TransportError(reason: Value)
    | ResultOfNothing

  datatype Settled = Resolved(value: Value) | Rejected(error: HttpError)

  datatype ErrorKind = MissingClient

  /** The host's HTTP client; only its presence matters here. */
  datatype HttpClient = HttpClient

  /** The optional async interceptor callbacks given at construction, taken as synchronous. */
  datatype Options = Options(
    requestInterceptorFn: Option<Config -> Option<Config>>,
    responseInterceptorFn: Option<Response -> Option<Response>>)

  /** Both storage areas at one moment. */
  datatype Stores = Stores(session: seq<Item>, local: seq<Item>)

  /** Both storage areas and the keys written this session. */
  datatype CacheState = CacheState(stores: Stores, caches: seq<string>)

  datatype RequestStep = RequestStep(decision: Decision, stores: Stores)

  datatype ResponseStep = ResponseStep(data: Value, state: CacheState)

  /** Where mapStorage stopped: the remaining items, and whether `key(i)` gave null. */
  datatype SweepResult = Swept(items: seq<Item>, threw: bool)

  // ---------------------------------------------------------------------
  // Configuration
  // ---------------------------------------------------------------------

  /** `cache = this.defaultConfig.cache`: the default replaces only an undefined field. */
  function EffectiveCache(c: Config): (v: Value)
    ensures !c.cache.Undefined? ==> v == c.cache
    ensures c.cache.Undefined? ==> v == Bool(false)
  {
    if c.cache.Undefined? then Bool(DefaultCache) else c.cache
  }

  /** `expire = this.defaultConfig.expire`. */
  function EffectiveExpire(c: Config): (v: Value)
    ensures !c.expire.Undefined? ==> v == c.expire
    ensures c.expire.Undefined? ==> v == Num(100000)
  {
    if c.expire.Undefined? then Num(DefaultExpire) else c.expire
  }

  /** `cache === true`. */
  predicate CachingOn(c: Config) {
    EffectiveCache(c) == Bool(true)
  }

  /** The `mode = "sessionStorage"` default of the storage helpers. */
  function ModeOf(m: Option<Mode>): Mode {
    if m.Some? then m.value else SessionStorage
  }

  /** `newConfig || config` after the request callback. */
  function AdoptConfig(hook: Option<Config -> Option<Config>>, c: Config): Config {
    if hook.None? then c
    else
      var adopted := hook.value(c);
      if adopted.Some? then adopted.value else c
  }

  /** `newResponse || response` after the response callback. */
  function AdoptResponse(hook: Option<Response -> Option<Response>>, r: Response): Response {
    if hook.None? then r
    else
      var adopted := hook.value(r);
      if adopted.Some? then adopted.value else r
  }

  // ---------------------------------------------------------------------
  // Keys and freshness
  // ---------------------------------------------------------------------

  /** A key of the cache's naming convention for url. */
  predicate IsCacheKeyFor(url: string, k: string) {
    |url| < |k| && k[..|url|] == url && Contains(k, Marker)
  }

  /**
   * Key of the request path: a string body verbatim, another truthy body as
   * JSON, and the query parameters when the body is absent or falsy.
   */
  function ReadKey(url: string, data: Value, params: Value): (k: string)
    ensures IsCacheKeyFor(url, k)
  {
    ContainsInfix(url, Marker, ReadIdentity(data, params));
    url + Marker + ReadIdentity(data, params)
  }

  function ReadIdentity(data: Value, params: Value): string {
    if Truthy(data) then (if data.Str? then data.s else Stringify(data)) else ToText(params)
  }

  /** Key of the response path: a truthy body through String(), not JSON. */
  function WriteKey(url: string, data: Value, params: Value): (k: string)
    ensures IsCacheKeyFor(url, k)
  {
    ContainsInfix(url, Marker, WriteIdentity(data, params));
    url + Marker + WriteIdentity(data, params)
  }

  function WriteIdentity(data: Value, params: Value): string {
    if Truthy(data) then ToText(data) else ToText(params)
  }

  /**
   * `curTime - obj.expire < expire`, with NaN on either side making the
   * comparison false.
   */
  function Fresh(now: int, entry: Value, expire: Value): (b: bool)
    ensures ToNumber(Field(entry, "expire")).None? || ToNumber(expire).None? ==> !b
    ensures forall t0, ttl :: ToNumber(Field(entry, "expire")) == Some(t0) && ToNumber(expire) == Some(ttl) ==>
              (b <==> now - t0 < ttl)
  {
    var written := ToNumber(Field(entry, "expire"));
    var ttl := ToNumber(expire);
    written.Some? && ttl.Some? && now - written.value < ttl.value
  }

  /** The object setStorage serialises for a response. */
  function Envelope(now: int, params: Value, data: Value, result: Value): (e: Value)
    ensures Truthy(e)
    ensures Field(e, "expire") == Num(now) && Field(e, "params") == params
    ensures Field(e, "data") == data && Field(e, "result") == result
  {
    var last := [Member("result", result)];
    var ms2 := [Member("data", data)] + last;
    var ms1 := [Member("params", params)] + ms2;
    var ms := [Member("expire", Num(now))] + ms1;
    assert ms[1..] == ms1 && ms1[1..] == ms2 && ms2[1..] == last && last[1..] == [];
    assert MemberValue(ms2, "result") == result && MemberValue(ms1, "result") == result;
    assert MemberValue(ms1, "data") == data;
    assert "expire" != "params" by { assert "expire"[0] != "params"[0]; }
    assert MemberValue(ms, "params") == MemberValue(ms1, "params") == params;
    Obj(ms)
  }

  // ---------------------------------------------------------------------
  // Storage helpers on a snapshot
  // ---------------------------------------------------------------------

  function Area(s: Stores, m: Mode): seq<Item> {
    if m == LocalStorage then s.local else s.session
  }

  function WithArea(s: Stores, m: Mode, items: seq<Item>): (r: Stores)
    ensures Area(r, m) == items
    ensures forall m' :: m' != m ==> Area(r, m') == Area(s, m')
  {
    if m == LocalStorage then s.(local := items) else s.(session := items)
  }

  /** Result of `JSON.parse(getItem(key))`. */
  datatype Parsed = Parsed(value: Value) | Unparsable

  /** JSON.parse of what getItem returned; a missing key gives null, which JSON.parse turns into null. */
  function ParseItem(b: Option<Blob>): Parsed {
    if b.None? then Parsed(Null)
    else if b.value.JsonText? then Parsed(b.value.value)
    else Unparsable
  }

  /** getStorage. */
  function Get(s: Stores, m: Mode, key: string): Parsed {
    ParseItem(Lookup(Area(s, m), key))
  }

  /**
   * What setItem receives for `JSON.stringify(v)`: the JSON text of v, or
   * for v undefined the undefined result, which setItem stores as the text
   * "undefined" that JSON.parse rejects.
   */
  function Serialized(v: Value): Blob {
    if v.Undefined? then OtherText("undefined") else JsonText(Normalize(v))
  }

  /** setStorage. */
  function Set(s: Stores, m: Mode, key: string, v: Value): Stores {
    WithArea(s, m, Put(Area(s, m), key, Serialized(v)))
  }

  /** removeStorage. */
  function Remove(s: Stores, m: Mode, key: string): Stores {
    WithArea(s, m, Delete(Area(s, m), key))
  }

  /** Truthiness of the string `getItem` returned; JSON text is never empty. */
  predicate StoredTruthy(b: Option<Blob>) {
    b.Some? && (b.value.JsonText? || b.value.text != "")
  }

  /**
   * clearStorage: from localStorage when getItem there returns a non-empty
   * string, otherwise from sessionStorage.
   */
  function Clear(s: Stores, key: string): (r: Stores)
    ensures StoredTruthy(Lookup(s.local, key)) ==> key !in KeysOf(r.local) && r.session == s.session
    ensures !StoredTruthy(Lookup(s.local, key)) ==> r.local == s.local && key !in KeysOf(r.session)
    ensures forall m, k :: k != key ==> Lookup(Area(r, m), k) == Lookup(Area(s, m), k)
  {
    if StoredTruthy(Lookup(s.local, key)) then Remove(s, LocalStorage, key)
    else Remove(s, SessionStorage, key)
  }

  // ---------------------------------------------------------------------
  // The interceptors as functions
  // ---------------------------------------------------------------------

  /** The request hook on config c (already past the callback) at time now. */
  function Request(s: Stores, c: Config, now: int): (r: RequestStep)
    ensures r.decision.Proceed? ==> r.decision.config == c
    ensures !r.decision.Proceed? ==> r.stores == s
    ensures r.decision.ShortCircuit? ==> CachingOn(c) && Truthy(r.decision.entry)
  {
    if CachingOn(c) then
      var m := ModeOf(c.cacheMode);
      match Get(s, m, ReadKey(c.url, c.data, c.params))
      case Unparsable => RequestStep(ParseFailed, s)
      case Parsed(obj) =>
        if !Truthy(obj) then RequestStep(Proceed(c), s)
        else if Fresh(now, obj, EffectiveExpire(c)) then RequestStep(ShortCircuit(obj), s)
        else RequestStep(Proceed(c), Remove(s, m, c.url))
    else
      RequestStep(Proceed(c), Clear(s, c.url))
  }

  /** The response hook on response r (already past the callback) at time now. */
  function Respond(st: CacheState, r: Response, now: int): (step: ResponseStep)
    ensures step.data == r.data
    ensures |st.caches| <= |step.state.caches| <= |st.caches| + 1 && step.state.caches[..|st.caches|] == st.caches
    ensures step.state != st ==> r.status == 200 && CachingOn(r.config)
    ensures r.status == 200 && CachingOn(r.config) ==> |step.state.caches| == |st.caches| + 1
  {
    if r.status != 200 then ResponseStep(r.data, st)
    else if CachingOn(r.config) then
      var c := r.config;
      var key := WriteKey(c.url, c.data, c.params);
      var stores := Set(st.stores, ModeOf(c.cacheMode), key, Envelope(now, c.params, c.data, r.data));
      ResponseStep(r.data, CacheState(stores, st.caches + [key]))
    else ResponseStep(r.data, st)
  }

  /**
   * The response hook's error path: every cancellation resolves with its
   * message's `result`, unless the message is undefined or null, where
   * reading `result` throws; every other error is rejected unchanged.
   */
  function OnResponseError(e: HttpError): (r: Settled)
    ensures e.Cancel? && !e.message.Undefined? && !e.message.Null? ==> r == Resolved(Field(e.message, "result"))
    ensures e.Cancel? && (e.message.Undefined? || e.message.Null?) ==> r == Rejected(ResultOfNothing)
    ensures !e.Cancel? ==> r == Rejected(e)
  {
    match e
    case Cancel(message) =>
      if message.Undefined? || message.Null? then Rejected(ResultOfNothing)
      else Resolved(Field(message, "result"))
    case _ => Rejected(e)
  }

  /** An orphan: a key of the cache's naming convention not written this session. */
  predicate Orphan(key: string, caches: seq<string>) {
    key !in caches && Contains(key, Marker)
  }

  /**
   * mapStorage from position i on, with n the length read before the loop:
   * each removal shifts the later keys down, and once i passes the end the
   * null that `key(i)` returns makes `key.includes` throw.
   */
  function Sweep(items: seq<Item>, caches: seq<string>, i: nat, n: nat): (r: SweepResult)
    ensures |r.items| <= |items|
    ensures r.threw ==> |r.items| < n
    decreases n - i
  {
    if n <= i then Swept(items, false)
    else if |items| <= i then Swept(items, true)
    else if Orphan(items[i].key, caches) then Sweep(Delete(items, items[i].key), caches, i + 1, n)
    else Sweep(items, caches, i + 1, n)
  }

  // ---------------------------------------------------------------------
  // The cache object
  // ---------------------------------------------------------------------

  class Cache {
    const session: Store
    const local: Store
    /** Every key the response hook wrote this session, in order. */
    var caches: seq<string>
    const requestHook: Option<Config -> Option<Config>>
    const responseHook: Option<Response -> Option<Response>>

    ghost predicate Valid()
      reads this, session, local
    {
      session != local && session.Valid() && local.Valid()
    }

    function State(): CacheState
      reads this, session, local
    {
      CacheState(Stores(session.items, local.items), caches)
    }

    constructor (session: Store, local: Store, options: Options)
      requires session != local && session.Valid() && local.Valid()
      ensures Valid()
      ensures this.session == session && this.local == local && caches == []
      ensures requestHook == options.requestInterceptorFn
      ensures responseHook == options.responseInterceptorFn
    {
      this.session := session;
      this.local := local;
      caches := [];
      requestHook := options.requestInterceptorFn;
      responseHook := options.responseInterceptorFn;
    }

    function Select(mode: Option<Mode>): Store
      reads this
    {
      if ModeOf(mode) == LocalStorage then local else session
    }

    /** setStorage */
    method SetStorage(mode: Option<Mode>, key: string, value: Value)
      requires Valid()
      modifies session, local
      ensures Valid()
      ensures State() == old(State()).(stores := Set(old(State().stores), ModeOf(mode), key, value))
    {
      Select(mode).SetItem(key, Serialized(value));
    }

    /** getStorage */
    method GetStorage(mode: Option<Mode>, key: string) returns (p: Parsed)
      requires Valid()
      ensures p == Get(State().stores, ModeOf(mode), key)
    {
      var raw := Select(mode).GetItem(key);
      p := ParseItem(raw);
    }

    /** removeStorage */
    method RemoveStorage(mode: Option<Mode>, key: string)
      requires Valid()
      modifies session, local
      ensures Valid()
      ensures State() == old(State()).(stores := Remove(old(State().stores), ModeOf(mode), key))
    {
      Select(mode).RemoveItem(key);
    }

    /** clearStorage */
    method ClearStorage(key: string)
      requires Valid()
      modifies session, local
      ensures Valid()
      ensures State() == old(State()).(stores := Clear(old(State().stores), key))
    {
      var raw := local.GetItem(key);
      if StoredTruthy(raw) {
        local.RemoveItem(key);
      } else {
        session.RemoveItem(key);
      }
    }

    /** The request interceptor, with the current time passed in. */
    method OnRequest(input: Config, now: int) returns (d: Decision)
      requires Valid()
      modifies session, local
      ensures Valid()
      ensures var step := Request(old(State().stores), AdoptConfig(requestHook, input), now);
              d == step.decision && State() == old(State()).(stores := step.stores)
    {
      var config := AdoptConfig(requestHook, input);
      var cache := EffectiveCache(config);
      var expire := EffectiveExpire(config);
      if cache == Bool(true) {
        var getKey := ReadKey(config.url, config.data, config.params);
        var obj := GetStorage(config.cacheMode, getKey);
        if obj.Unparsable? {
          d := ParseFailed;
          return;
        }
        if Truthy(obj.value) {
          if Fresh(now, obj.value, expire) {
            d := ShortCircuit(obj.value);
            return;
          } else {
            RemoveStorage(config.cacheMode, config.url);
          }
        }
      } else {
        ClearStorage(config.url);
      }
      d := Proceed(config);
    }

    /** The response interceptor's success path, with the current time passed in. */
    method OnResponse(input: Response, now: int) returns (data: Value)
      requires Valid()
      modifies this, session, local
      ensures Valid()
      ensures var step := Respond(old(State()), AdoptResponse(responseHook, input), now);
              data == step.data && State() == step.state
    {
      var response := AdoptResponse(responseHook, input);
      if response.status != 200 {
        return response.data;
      }
      var config := response.config;
      if EffectiveCache(config) == Bool(true) {
        var obj := Envelope(now, config.params, config.data, response.data);
        var setKey := WriteKey(config.url, config.data, config.params);
        caches := caches + [setKey];
        SetStorage(config.cacheMode, setKey, obj);
      }
      data := response.data;
    }

    /** mapStorage; `threw` reports the TypeError a null key raises. */
    method MapStorage() returns (threw: bool)
      requires Valid()
      modifies local
      ensures Valid()
      ensures session.items == old(session.items) && caches == old(caches)
      ensures Sweep(old(local.items), caches, 0, |old(local.items)|) == Swept(local.items, threw)
    {
      var length := local.Length();
      threw := false;
      if length != 0 {
        var i := 0;
        while i < length
          invariant 0 <= i <= length
          invariant local.Valid()
          invariant Sweep(local.items, caches, i, length) == Sweep(old(local.items), caches, 0, length)
        {
          var key := local.Key(i);
          if key.None? {
            // `!this.caches.includes(null)` holds, so `null.includes(...)` runs and throws
            threw := true;
            return;
          }
          if key.value !in caches && Contains(key.value, Marker) {
            local.RemoveItem(key.value);
          }
          i := i + 1;
        }
      }
    }
  }

  /** `new Cache(axios, config)`: fails when no axios instance is given. */
  method NewCache(axios: Option<HttpClient>, options: Options, session: Store, local: Store)
    returns (r: Result<Cache, ErrorKind>)
    requires session != local && session.Valid() && local.Valid()
    ensures axios.None? <==> r.Failure?
    ensures r.Failure? ==> r.error == MissingClient
    ensures r.Success? ==> fresh(r.value) && r.value.Valid() && r.value.caches == []
    ensures r.Success? ==> r.value.session == session && r.value.local == local
    ensures r.Success? ==> r.value.requestHook == options.requestInterceptorFn
    ensures r.Success? ==> r.value.responseHook == options.responseInterceptorFn
  {
    if axios.None? {
      return Failure(MissingClient);
    }
    var c := new Cache(session, local, options);
    r := Success(c);
  }
}
