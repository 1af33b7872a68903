/**
 * Properties of the cache model: how keys are derived, when an entry is
 * fresh, what each branch of the interceptors does to storage, the round
 * trip from a stored response to a short-circuited request, and what the
 * teardown sweep may and may not remove.
 */
module CacheLaws {
  import opened Wrappers
  import opened JsValue
  import opened WebStorage
  import opened AxiosCache

  // ---------------------------------------------------------------------
  // Keys
  // ---------------------------------------------------------------------

  /** For one url, two requests share a read key exactly when their identities print alike. */
  lemma ReadKeyInjective(url: string, d1: Value, p1: Value, d2: Value, p2: Value)
    ensures ReadKey(url, d1, p1) == ReadKey(url, d2, p2) <==> ReadIdentity(d1, p1) == ReadIdentity(d2, p2)
  {
    var prefix := url + Marker;
    if ReadKey(url, d1, p1) == ReadKey(url, d2, p2) {
      assert ReadKey(url, d1, p1)[|prefix|..] == ReadIdentity(d1, p1);
      assert ReadKey(url, d2, p2)[|prefix|..] == ReadIdentity(d2, p2);
    }
  }

  /** A string body, a number or boolean body, or no truthy body: both paths build the same key. */
  lemma KeysAgree(url: string, data: Value, params: Value)
    requires !Truthy(data) || data.Str? || data.Num? || data.Bool?
    ensures ReadKey(url, data, params) == WriteKey(url, data, params)
  {
  }

  /**
   * An object body that is still the object when the response arrives: the
   * read path prints JSON, the write path "[object Object]", so the keys differ.
   */
  lemma KeysDifferForObjectBody(url: string, data: Value, params: Value)
    requires data.Obj?
    ensures ReadKey(url, data, params) != WriteKey(url, data, params)
  {
    var at := |url| + |Marker|;
    assert ReadKey(url, data, params)[at] == '{';
    assert WriteKey(url, data, params)[at] == '[';
  }

  /**
   * An object body that has been replaced by its JSON text by the time the
   * response arrives: the write key equals the read key of the object.
   */
  lemma KeysAgreeForSerializedBody(url: string, data: Value, params: Value)
    requires data.Obj?
    ensures WriteKey(url, Str(Stringify(data)), params) == ReadKey(url, data, params)
  {
    assert Stringify(data)[0] == '{';
  }

  // ---------------------------------------------------------------------
  // Freshness
  // ---------------------------------------------------------------------

  /** What getStorage returns for the entry written at t0. */
  lemma EnvelopeFields(t0: int, params: Value, data: Value, result: Value)
    ensures Field(Normalize(Envelope(t0, params, data, result)), "expire") == Num(t0)
    ensures Field(Normalize(Envelope(t0, params, data, result)), "result") == Normalize(result)
    ensures Truthy(Normalize(Envelope(t0, params, data, result)))
  {
    var last := [Member("result", result)];
    var ms2 := [Member("data", data)] + last;
    var ms1 := [Member("params", params)] + ms2;
    var ms := [Member("expire", Num(t0))] + ms1;
    assert Envelope(t0, params, data, result) == Obj(ms);
    assert ms[1..] == ms1 && ms1[1..] == ms2 && ms2[1..] == last && last[1..] == [];
    assert MemberValue(NormalizeMembers(last), "result") == Normalize(result);
    assert MemberValue(NormalizeMembers(ms2), "result") == Normalize(result);
    assert MemberValue(NormalizeMembers(ms1), "result") == Normalize(result);
    assert NormalizeMembers(ms) == [Member("expire", Num(t0))] + NormalizeMembers(ms1);
  }

  /** An entry written at t0 is a hit exactly while less than ttl has passed. */
  lemma FreshIff(now: int, t0: int, ttl: int, params: Value, data: Value, result: Value)
    ensures Fresh(now, Normalize(Envelope(t0, params, data, result)), Num(ttl)) <==> now - t0 < ttl
  {
    EnvelopeFields(t0, params, data, result);
  }

  /** With the default expire of 100000 ms, the entry is fresh 99999 ms later and stale from 100000 ms on. */
  lemma FreshnessBoundary(c: Config, t0: int, params: Value, data: Value, result: Value)
    requires c.expire.Undefined?
    ensures Fresh(t0 + 99999, Normalize(Envelope(t0, params, data, result)), EffectiveExpire(c))
    ensures !Fresh(t0 + 100000, Normalize(Envelope(t0, params, data, result)), EffectiveExpire(c))
    ensures !Fresh(t0 + 100001, Normalize(Envelope(t0, params, data, result)), EffectiveExpire(c))
  {
    FreshIff(t0 + 99999, t0, 100000, params, data, result);
    FreshIff(t0 + 100000, t0, 100000, params, data, result);
    FreshIff(t0 + 100001, t0, 100000, params, data, result);
  }

  // ---------------------------------------------------------------------
  // Storage helpers
  // ---------------------------------------------------------------------

  /**
   * setStorage then getStorage gives back the JSON round trip of the value,
   * and fails to parse for undefined; nothing else moves.
   */
  lemma SetThenGet(s: Stores, m: Mode, key: string, v: Value)
    ensures !v.Undefined? ==> Get(Set(s, m, key, v), m, key) == Parsed(Normalize(v))
    ensures v.Undefined? ==> Get(Set(s, m, key, v), m, key) == Unparsable
    ensures forall k :: k != key ==> Get(Set(s, m, key, v), m, k) == Get(s, m, k)
    ensures forall k :: k != key ==> Lookup(Area(Set(s, m, key, v), m), k) == Lookup(Area(s, m), k)
    ensures forall m' :: m' != m ==> Area(Set(s, m, key, v), m') == Area(s, m')
  {
  }

  /** A value JSON carries exactly is read back as itself. */
  lemma SetThenGetJson(s: Stores, m: Mode, key: string, v: Value)
    requires IsJson(v)
    ensures Get(Set(s, m, key, v), m, key) == Parsed(v)
  {
    NormalizeKeepsJson(v);
  }

  /** A missing key reads as null, which is a miss. */
  lemma MissingKeyIsMiss(s: Stores, m: Mode, key: string)
    requires key !in KeysOf(Area(s, m))
    ensures Get(s, m, key) == Parsed(Null) && !Truthy(Get(s, m, key).value)
  {
  }

  // ---------------------------------------------------------------------
  // Request hook
  // ---------------------------------------------------------------------

  /** A fresh entry short-circuits the request and leaves storage alone. */
  lemma RequestHit(s: Stores, c: Config, now: int, obj: Value)
    requires CachingOn(c)
    requires Get(s, ModeOf(c.cacheMode), ReadKey(c.url, c.data, c.params)) == Parsed(obj)
    requires Truthy(obj) && Fresh(now, obj, EffectiveExpire(c))
    ensures Request(s, c, now) == RequestStep(ShortCircuit(obj), s)
  {
  }

  /** No entry: the request goes out unchanged and storage is left alone. */
  lemma RequestMiss(s: Stores, c: Config, now: int)
    requires CachingOn(c)
    requires ReadKey(c.url, c.data, c.params) !in KeysOf(Area(s, ModeOf(c.cacheMode)))
    ensures Request(s, c, now) == RequestStep(Proceed(c), s)
  {
  }

  /**
   * A stored string JSON.parse rejects makes the request fail, storage
   * untouched; the SyntaxError passes the response hook as a rejection.
   */
  lemma RequestUnparsable(s: Stores, c: Config, now: int, text: string)
    requires CachingOn(c)
    requires Lookup(Area(s, ModeOf(c.cacheMode)), ReadKey(c.url, c.data, c.params)) == Some(OtherText(text))
    ensures Request(s, c, now) == RequestStep(ParseFailed, s)
    ensures OnResponseError(StorageSyntaxError) == Rejected(StorageSyntaxError)
  {
  }

  /**
   * A stale entry: the request goes out, and only the bare url is removed
   * from the selected area, so the stale entry itself stays where it was.
   */
  lemma RequestStale(s: Stores, c: Config, now: int, obj: Value)
    requires CachingOn(c)
    requires Get(s, ModeOf(c.cacheMode), ReadKey(c.url, c.data, c.params)) == Parsed(obj)
    requires Truthy(obj) && !Fresh(now, obj, EffectiveExpire(c))
    ensures Request(s, c, now).decision == Proceed(c)
    ensures var m := ModeOf(c.cacheMode);
            var after := Request(s, c, now).stores;
            && Area(after, m) == Delete(Area(s, m), c.url)
            && (forall m' :: m' != m ==> Area(after, m') == Area(s, m'))
            && Get(after, m, ReadKey(c.url, c.data, c.params)) == Parsed(obj)
  {
  }

  /**
   * Caching off: the request goes out, and the bare url is removed from
   * localStorage when it is there, otherwise from sessionStorage; the other
   * area and every other key are left alone.
   */
  lemma RequestCachingOff(s: Stores, c: Config, now: int)
    requires !CachingOn(c)
    ensures Request(s, c, now).decision == Proceed(c)
    ensures var after := Request(s, c, now).stores;
            if StoredTruthy(Lookup(s.local, c.url))
            then after == Stores(s.session, Delete(s.local, c.url))
            else after == Stores(Delete(s.session, c.url), s.local)
    ensures var after := Request(s, c, now).stores;
            forall m, k :: k != c.url ==> Lookup(Area(after, m), k) == Lookup(Area(s, m), k)
  {
  }

  // ---------------------------------------------------------------------
  // Response hook
  // ---------------------------------------------------------------------

  /** A status other than 200 unwraps the payload and changes nothing. */
  lemma RespondNotOk(st: CacheState, r: Response, now: int)
    requires r.status != 200
    ensures Respond(st, r, now) == ResponseStep(r.data, st)
  {
  }

  /** A 200 response with caching off unwraps the payload and changes nothing. */
  lemma RespondCachingOff(st: CacheState, r: Response, now: int)
    requires r.status == 200 && !CachingOn(r.config)
    ensures Respond(st, r, now) == ResponseStep(r.data, st)
  {
  }

  /**
   * A 200 response with caching on appends one key to `caches` and stores
   * one envelope under it in the selected area.
   */
  lemma RespondWrites(st: CacheState, r: Response, now: int)
    requires r.status == 200 && CachingOn(r.config)
    ensures var c := r.config;
            var key := WriteKey(c.url, c.data, c.params);
            var m := ModeOf(c.cacheMode);
            var step := Respond(st, r, now);
            && step.data == r.data
            && step.state.caches == st.caches + [key]
            && Get(step.state.stores, m, key) == Parsed(Normalize(Envelope(now, c.params, c.data, r.data)))
            && (forall k :: k != key ==> Get(step.state.stores, m, k) == Get(st.stores, m, k))
            && (forall k :: k != key ==> Lookup(Area(step.state.stores, m), k) == Lookup(Area(st.stores, m), k))
            && (forall m' :: m' != m ==> Area(step.state.stores, m') == Area(st.stores, m'))
  {
    var c := r.config;
    SetThenGet(st.stores, ModeOf(c.cacheMode), WriteKey(c.url, c.data, c.params), Envelope(now, c.params, c.data, r.data));
  }

  // ---------------------------------------------------------------------
  // From a stored response to a short-circuited request
  // ---------------------------------------------------------------------

  /** The request that repeats the url, body, params and area recorded in a response's config. */
  predicate SameRequest(c: Config, r: Response) {
    && c.url == r.config.url && c.data == r.config.data && c.params == r.config.params
    && ModeOf(c.cacheMode) == ModeOf(r.config.cacheMode)
  }

  /**
   * A 200 response stored at t0, then the same request less than ttl later:
   * the request short-circuits, and the response hook's error path resolves
   * it with the stored payload after its JSON round trip.
   */
  lemma WriteThenHit(st: CacheState, r: Response, t0: int, c: Config, now: int, ttl: int)
    requires r.status == 200 && CachingOn(r.config)
    requires !Truthy(r.config.data) || r.config.data.Str? || r.config.data.Num? || r.config.data.Bool?
    requires SameRequest(c, r) && CachingOn(c)
    requires ToNumber(EffectiveExpire(c)) == Some(ttl) && now - t0 < ttl
    ensures var stores := Respond(st, r, t0).state.stores;
            var d := Request(stores, c, now).decision;
            && d.ShortCircuit?
            && Request(stores, c, now).stores == stores
            && OnResponseError(Cancel(d.entry)) == Resolved(Normalize(r.data))
  {
    var rc := r.config;
    var m := ModeOf(rc.cacheMode);
    var key := WriteKey(rc.url, rc.data, rc.params);
    var entry := Envelope(t0, rc.params, rc.data, r.data);
    KeysAgree(rc.url, rc.data, rc.params);
    RespondWrites(st, r, t0);
    EnvelopeFields(t0, rc.params, rc.data, r.data);
    FreshIff(now, t0, ttl, rc.params, rc.data, r.data);
    assert Get(Respond(st, r, t0).state.stores, m, ReadKey(c.url, c.data, c.params)) == Parsed(Normalize(entry));
  }

  /**
   * Every params object prints as "[object Object]", so a GET to the same url
   * with other params reads the key a response for the first params was
   * stored under, short-circuits, and resolves with that response's payload.
   */
  lemma OtherParamsHit(st: CacheState, r: Response, t0: int, c: Config, now: int, ttl: int)
    requires r.status == 200 && CachingOn(r.config)
    requires !Truthy(r.config.data) && c.data == r.config.data && c.url == r.config.url
    requires ModeOf(c.cacheMode) == ModeOf(r.config.cacheMode) && CachingOn(c)
    requires r.config.params.Obj? && c.params.Obj? && c.params != r.config.params
    requires ToNumber(EffectiveExpire(c)) == Some(ttl) && now - t0 < ttl
    ensures var d := Request(Respond(st, r, t0).state.stores, c, now).decision;
            && d.ShortCircuit?
            && OnResponseError(Cancel(d.entry)) == Resolved(Normalize(r.data))
  {
    var rc := r.config;
    var m := ModeOf(rc.cacheMode);
    var entry := Envelope(t0, rc.params, rc.data, r.data);
    assert ReadKey(c.url, c.data, c.params) == WriteKey(rc.url, rc.data, rc.params);
    RespondWrites(st, r, t0);
    EnvelopeFields(t0, rc.params, rc.data, r.data);
    FreshIff(now, t0, ttl, rc.params, rc.data, r.data);
    assert Get(Respond(st, r, t0).state.stores, m, ReadKey(c.url, c.data, c.params)) == Parsed(Normalize(entry));
  }

  /** A payload without undefined in it, such as {a: 1}: the hit resolves with exactly that payload. */
  lemma WriteThenHitExact(st: CacheState, r: Response, t0: int, c: Config, now: int, ttl: int)
    requires r.status == 200 && CachingOn(r.config)
    requires !Truthy(r.config.data) || r.config.data.Str? || r.config.data.Num? || r.config.data.Bool?
    requires SameRequest(c, r) && CachingOn(c)
    requires ToNumber(EffectiveExpire(c)) == Some(ttl) && now - t0 < ttl
    requires IsJson(r.data)
    ensures var d := Request(Respond(st, r, t0).state.stores, c, now).decision;
            d.ShortCircuit? && OnResponseError(Cancel(d.entry)) == Resolved(r.data)
  {
    WriteThenHit(st, r, t0, c, now, ttl);
    NormalizeKeepsJson(r.data);
  }

  /**
   * The same request once ttl has passed goes out again, and the stale entry
   * is still stored under its key afterwards.
   */
  lemma WriteThenStale(st: CacheState, r: Response, t0: int, c: Config, now: int, ttl: int)
    requires r.status == 200 && CachingOn(r.config)
    requires !Truthy(r.config.data) || r.config.data.Str? || r.config.data.Num? || r.config.data.Bool?
    requires SameRequest(c, r) && CachingOn(c)
    requires ToNumber(EffectiveExpire(c)) == Some(ttl) && ttl <= now - t0
    ensures var stores := Respond(st, r, t0).state.stores;
            var key := WriteKey(r.config.url, r.config.data, r.config.params);
            var m := ModeOf(c.cacheMode);
            && Request(stores, c, now).decision == Proceed(c)
            && Lookup(Area(Request(stores, c, now).stores, m), key) == Lookup(Area(stores, m), key)
            && key in KeysOf(Area(Request(stores, c, now).stores, m))
  {
    var rc := r.config;
    KeysAgree(rc.url, rc.data, rc.params);
    RespondWrites(st, r, t0);
    EnvelopeFields(t0, rc.params, rc.data, r.data);
    FreshIff(now, t0, ttl, rc.params, rc.data, r.data);
  }

  /**
   * An object body that the response's config still carries as the object
   * is stored under a key its own repeat never reads: when nothing was
   * stored under the read key before, the repeat is a miss.
   */
  lemma ObjectBodyMisses(st: CacheState, r: Response, t0: int, c: Config, now: int)
    requires r.status == 200 && CachingOn(r.config) && r.config.data.Obj?
    requires SameRequest(c, r) && CachingOn(c)
    requires ReadKey(c.url, c.data, c.params) !in KeysOf(Area(st.stores, ModeOf(c.cacheMode)))
    ensures var stores := Respond(st, r, t0).state.stores;
            Request(stores, c, now) == RequestStep(Proceed(c), stores)
  {
    var rc := r.config;
    KeysDifferForObjectBody(rc.url, rc.data, rc.params);
    RespondWrites(st, r, t0);
  }

  /** A request with caching off does not remove the entry stored under the cache key. */
  lemma CachingOffKeepsEntry(st: CacheState, r: Response, t0: int, c: Config, now: int)
    requires r.status == 200 && CachingOn(r.config)
    requires c.url == r.config.url && !CachingOn(c)
    ensures var stores := Respond(st, r, t0).state.stores;
            var key := WriteKey(r.config.url, r.config.data, r.config.params);
            var m := ModeOf(r.config.cacheMode);
            && key in KeysOf(Area(Request(stores, c, now).stores, m))
            && Lookup(Area(Request(stores, c, now).stores, m), key) == Lookup(Area(stores, m), key)
  {
    RespondWrites(st, r, t0);
  }

  // ---------------------------------------------------------------------
  // Teardown sweep
  // ---------------------------------------------------------------------

  /**
   * The sweep removes only orphans and adds nothing: every item it drops had
   * a marked key missing from `caches`.
   */
  lemma {:induction false} SweepRemovesOnlyOrphans(items: seq<Item>, caches: seq<string>, i: nat, n: nat)
    ensures forall it :: it in Sweep(items, caches, i, n).items ==> it in items
    ensures forall it :: it in items && !Orphan(it.key, caches) ==> it in Sweep(items, caches, i, n).items
    decreases n - i
  {
    if i < n && i < |items| {
      if Orphan(items[i].key, caches) {
        SweepRemovesOnlyOrphans(Delete(items, items[i].key), caches, i + 1, n);
      } else {
        SweepRemovesOnlyOrphans(items, caches, i + 1, n);
      }
    }
  }

  /** The sweep keeps keys unique. */
  lemma {:induction false} SweepKeepsUnique(items: seq<Item>, caches: seq<string>, i: nat, n: nat)
    requires UniqueKeys(items)
    ensures UniqueKeys(Sweep(items, caches, i, n).items)
    decreases n - i
  {
    if i < n && i < |items| {
      if Orphan(items[i].key, caches) {
        DeleteKeepsUnique(items, items[i].key);
        SweepKeepsUnique(Delete(items, items[i].key), caches, i + 1, n);
      } else {
        SweepKeepsUnique(items, caches, i + 1, n);
      }
    }
  }

  /**
   * Not every orphan goes: with two orphans, removing the first moves the
   * second to position 0, the loop reads past the end and throws, and the
   * second orphan survives.
   */
  lemma SweepSkipsOrphan(b1: Blob, b2: Blob)
    ensures var items := [Item("/x?cacheParams=1", b1), Item("/y?cacheParams=2", b2)];
            Sweep(items, [], 0, 2) == Swept([Item("/y?cacheParams=2", b2)], true)
  {
    var x := Item("/x?cacheParams=1", b1);
    var y := Item("/y?cacheParams=2", b2);
    ContainsInfix("/x", Marker, "1");
    assert x.key == "/x" + Marker + "1";
    assert Delete([x, y], x.key) == [y];
  }

  /**
   * A teardown where "/x?cacheParams=1" was written this session and
   * "/y?cacheParams=2" was not: the sweep removes the second and keeps the first.
   */
  lemma SweepExample(b1: Blob, b2: Blob)
    ensures var items := [Item("/x?cacheParams=1", b1), Item("/y?cacheParams=2", b2)];
            Sweep(items, ["/x?cacheParams=1"], 0, 2) == Swept([Item("/x?cacheParams=1", b1)], false)
  {
    var x := Item("/x?cacheParams=1", b1);
    var y := Item("/y?cacheParams=2", b2);
    ContainsInfix("/y", Marker, "2");
    assert y.key == "/y" + Marker + "2";
    assert [x, y][1..] == [y];
    assert Delete([x, y], y.key) == [x];
  }

  // ---------------------------------------------------------------------
  // The cache object end to end
  // ---------------------------------------------------------------------

  /**
   * A fresh cache answers a GET to "/a" with caching on: the 200 response
   * at t0 is stored, and the same request 99999 ms later short-circuits and
   * resolves with the stored payload, without going to the network.
   */
  method HitScenario(payload: Value, t0: int) returns (d: Decision, settled: Settled)
    requires IsJson(payload)
    ensures d.ShortCircuit? && settled == Resolved(payload)
  {
    var session := new Store([]);
    var local := new Store([]);
    var made := NewCache(Some(HttpClient), Options(None, None), session, local);
    var cache := made.value;
    var config := Config("/a", Undefined, Undefined, None, Bool(true), Undefined);
    var response := Response(200, payload, config);
    ghost var before := cache.State();
    var data := cache.OnResponse(response, t0);
    WriteThenHitExact(before, response, t0, config, t0 + 99999, 100000);
    d := cache.OnRequest(config, t0 + 99999);
    settled := OnResponseError(Cancel(d.entry));
  }
}
