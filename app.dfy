/** The ESI meta application: the cache of loaded specification documents,
    keyed by `<prefix>:app:<url>`, with the same serve / revalidate /
    invalidate decision as the client, a custom expire that overrides the
    `Expires` header, and a three-attempt fetch. */
module App {
  import opened Common
  import Cache
  import Utils
  import Exceptions

  /** A loaded operation registry: its identity, and the URL of each
      operation by name. */
  datatype SpecApp = SpecApp(id: nat, ops: map<string, string>)

  /** A cache value. The code stores `(app, headers, expiry)` triples; any
      other value is `Malformed`, where `raw` is `None` for Python's `None`
      and `Some(a)` for some other object, which the code then carries along
      as the app. */
  datatype Entry = Triple(app: Option<SpecApp>, headers: Option<Headers>, expiry: int) | Malformed(raw: Option<SpecApp>)

  type Store = map<string, Entry>

  const DefaultExpire: int := 86400

  /** `cache_time` as the constructor keeps it: a negative value becomes one day. */
  function NormaliseExpire(cacheTime: Option<int>): (r: Option<int>)
    ensures cacheTime.None? ==> r.None?
    ensures cacheTime.Some? && cacheTime.value < 0 ==> r == Some(DefaultExpire)
    ensures cacheTime.Some? && cacheTime.value >= 0 ==> r == cacheTime
  {
    if cacheTime.Some? && cacheTime.value < 0 then Some(DefaultExpire) else cacheTime
  }

  function MetaKey(prefix: string): string
  {
    prefix + ":app:meta_swagger_url"
  }

  function EndpointKey(prefix: string, url: string): string
  {
    prefix + ":app:" + url
  }

  function AppUrl(url: string, datasource: string): string
  {
    url + "?datasource=" + datasource
  }

  // ---- the decision ----

  /** The three parts of a cache value, and whether it has to be invalidated
      as malformed. */
  function Unpack(v: Entry): (r: (Option<SpecApp>, Option<Headers>, int, bool))
    ensures v.Triple? ==> r == (v.app, v.headers, v.expiry, false)
    ensures v.Malformed? ==> r == (v.raw, None, 0, true)
  {
    match v
    case Triple(a, h, e) => (a, h, e, false)
    case Malformed(raw) => (raw, None, 0, true)
  }

  /** Use the cached app, or send a HEAD with the validator to attach and
      whether the entry is invalidated first. */
  datatype AppPlan = UseCached | Refetch(ifNoneMatch: Option<string>, drop: bool)

  /** Whether the `Expires` header decides: no custom expire, and a header. */
  predicate HeaderDecides(headers: Headers, expire: Option<int>)
  {
    expire.None? && HeaderGet(headers, "expires").Some?
  }

  function PlanApp(app: Option<SpecApp>, headers: Option<Headers>, expiry: int, expire: Option<int>, clock: Clock): (p: AppPlan)
    ensures app.None? || headers.None? ==> p == Refetch(None, false)
    ensures app.Some? && headers.Some? && HeaderDecides(headers.value, expire) ==>
      (p.UseCached? <==> TimeLeft(clock, HeaderGet(headers.value, "expires")) >= 0)
    ensures app.Some? && headers.Some? && !HeaderDecides(headers.value, expire) ==>
      (p.UseCached? <==> expire == Some(0) || expiry >= clock.now)
    ensures app.Some? && headers.Some? && p.Refetch? ==>
      p.ifNoneMatch == HeaderGet(headers.value, "etag") && (p.drop <==> p.ifNoneMatch.None?)
  {
    if app.None? || headers.None? then Refetch(None, false)
    else
      var expires := HeaderGet(headers.value, "expires");
      var cacheTimeout := if expire.None? && expires.Some? then TimeLeft(clock, expires) else -1;
      if expire.None? && expires.Some? && cacheTimeout >= 0 then UseCached
      else if !(expire.None? && expires.Some?) && (expire == Some(0) || expiry >= clock.now) then UseCached
      else
        var etag := HeaderGet(headers.value, "etag");
        Refetch(etag, (expires.None? || cacheTimeout < 0 || expiry < clock.now) && etag.None?)
  }

  /** The request headers: JSON, and `If-None-Match` when there is a validator. */
  function HeadHeaders(validator: Option<string>): map<string, string>
  {
    var accept := map["Accept" := "application/json"];
    if validator.Some? then accept["If-None-Match" := validator.value] else accept
  }

  /** The expiry timestamp stored with the app: now plus a positive custom
      expire, otherwise 0. */
  function StoredExpiry(expire: Option<int>, clock: Clock): (t: int)
    ensures expire.Some? && expire.value > 0 ==> t == clock.now + expire.value
    ensures expire.None? || expire.value <= 0 ==> t == 0
  {
    if expire.Some? && expire.value > 0 then clock.now + expire.value else 0
  }

  /** The TTL handed to the backend: a positive custom expire, otherwise the
      time left of the HEAD response's `Expires`. */
  function Expiration(expire: Option<int>, headers: Headers, clock: Clock): (e: int)
    ensures expire.Some? && expire.value > 0 ==> e == expire.value
    ensures expire.None? || expire.value <= 0 ==> e == TimeLeft(clock, HeaderGet(headers, "expires"))
  {
    if expire.Some? && expire.value > 0 then expire.value else TimeLeft(clock, HeaderGet(headers, "expires"))
  }

  // ---- the network ----

  datatype HeadResponse = HeadResponse(status: int, headers: Headers)

  const FetchAttempts: nat := 3

  /** The server of the specification documents. It records the HEAD
      requests (URL and headers) and the document fetches (URL) it receives;
      `headReply(n, url, h)` answers the `n`-th HEAD, and `createReply(n, url)`
      is the `n`-th fetch: the loaded app, or `None` for an HTTP error. */
  class SpecServer {
    var heads: seq<(string, map<string, string>)>
    var fetches: seq<string>
    const headReply: (nat, string, map<string, string>) -> HeadResponse
    const createReply: (nat, string) -> Option<SpecApp>

    constructor (headReply: (nat, string, map<string, string>) -> HeadResponse, createReply: (nat, string) -> Option<SpecApp>)
      ensures heads == [] && fetches == []
      ensures this.headReply == headReply && this.createReply == createReply
    {
      heads, fetches := [], [];
      this.headReply := headReply;
      this.createReply := createReply;
    }

    method Head(url: string, h: map<string, string>) returns (r: HeadResponse)
      modifies this
      ensures heads == old(heads) + [(url, h)] && fetches == old(fetches)
      ensures r == headReply(|old(heads)|, url, h)
    {
      r := headReply(|heads|, url, h);
      heads := heads + [(url, h)];
    }

    method Create(url: string) returns (r: Option<SpecApp>)
      modifies this
      ensures fetches == old(fetches) + [url] && heads == old(heads)
      ensures r == createReply(|old(fetches)|, url)
    {
      r := createReply(|fetches|, url);
      fetches := fetches + [url];
    }

    /** The fetch loop: up to three fetches of `url`, stopping at the first
        that succeeds; an HTTP error moves on to the next attempt. */
    method FetchApp(url: string) returns (fetched: Option<SpecApp>, ghost attempts: nat)
      modifies this
      ensures (fetched, attempts) == Fetched(createReply, |old(fetches)|, url, FetchAttempts)
      ensures heads == old(heads) && |fetches| == |old(fetches)| + attempts && fetches[..|old(fetches)|] == old(fetches)
      ensures forall i :: |old(fetches)| <= i < |fetches| ==> fetches[i] == url
    {
      ghost var n0 := |fetches|;
      fetched := None;
      var k: nat := 0;
      while k < FetchAttempts && fetched.None?
        invariant k <= FetchAttempts && |fetches| == n0 + k && heads == old(heads) && fetches[..n0] == old(fetches)
        invariant forall i :: n0 <= i < |fetches| ==> fetches[i] == url
        invariant Fetched(createReply, n0, url, FetchAttempts) == Resumed(createReply, n0, url, fetched, k)
      {
        FetchedStep(createReply, n0 + k, url, FetchAttempts - k);
        fetched := Create(url);
        k := k + 1;
      }
      attempts := k;
    }
  }

  /** Where the fetch loop stands after `k` fetches from fetch number `n`:
      done with `fetched` if it holds an app, otherwise still to go. */
  ghost function Resumed(create: (nat, string) -> Option<SpecApp>, n: nat, url: string,
                         fetched: Option<SpecApp>, k: nat): (Option<SpecApp>, nat)
    requires k <= FetchAttempts
  {
    if fetched.Some? then (fetched, k)
    else
      var rest := Fetched(create, n + k, url, FetchAttempts - k);
      (rest.0, rest.1 + k)
  }

  /** One step of `Fetched`. */
  lemma FetchedStep(create: (nat, string) -> Option<SpecApp>, n: nat, url: string, left: nat)
    requires left > 0
    ensures Fetched(create, n, url, left) ==
      if create(n, url).Some? then (create(n, url), 1)
      else (Fetched(create, n + 1, url, left - 1).0, Fetched(create, n + 1, url, left - 1).1 + 1)
  {
  }

  /** At most `left` fetches of `url`, the first being fetch number `n`,
      stopping at the first that succeeds: its app, and the number made. */
  function Fetched(create: (nat, string) -> Option<SpecApp>, n: nat, url: string, left: nat): (r: (Option<SpecApp>, nat))
    ensures r.1 <= left
    ensures left > 0 ==> r.1 >= 1
    ensures r.0.Some? ==> r.1 >= 1 && r.0 == create(n + r.1 - 1, url)
    ensures r.0.None? ==> r.1 == left
    decreases left
  {
    if left == 0 then (None, 0)
    else if create(n, url).Some? then (create(n, url), 1)
    else
      var rest := Fetched(create, n + 1, url, left - 1);
      (rest.0, rest.1 + 1)
  }

  /** Every fetch before the last one made failed, and when no app came
      back every fetch failed. */
  lemma {:induction false} FetchedFailuresBefore(create: (nat, string) -> Option<SpecApp>, n: nat, url: string, left: nat)
    ensures var r := Fetched(create, n, url, left);
      (forall i :: n <= i < n + r.1 - 1 ==> create(i, url).None?) &&
      (r.0.None? ==> forall i :: n <= i < n + left ==> create(i, url).None?)
    decreases left
  {
    if left > 0 && create(n, url).None? {
      FetchedFailuresBefore(create, n + 1, url, left - 1);
    }
  }

  /** One load: the app or the error, the store afterwards, the HEAD sent if
      any, and the number of fetches made. */
  datatype Loaded = Loaded(result: Result<SpecApp, Exceptions.ApiError>, store: Store,
                           head: Option<(string, map<string, string>)>, attempts: nat)

  function Load(inMemory: bool, caching: bool, m: Store, url: string, key: string, datasource: string,
                expire: Option<int>, clock: Clock,
                headReply: (nat, string, map<string, string>) -> HeadResponse, nh: nat,
                create: (nat, string) -> Option<SpecApp>, nc: nat): Loaded
  {
    var appUrl := AppUrl(url, datasource);
    var stored := if key in m then m[key] else Triple(None, None, 0);
    var (cachedApp, cachedHeaders, cachedExpiry, malformed) := Unpack(stored);
    var m0 := if malformed then m - {key} else m;
    var plan := PlanApp(cachedApp, cachedHeaders, cachedExpiry, expire, clock);
    if plan.UseCached? then Loaded(Success(cachedApp.value), m0, None, 0)
    else
      var m1 := if plan.drop then m0 - {key} else m0;
      var h := HeadHeaders(plan.ifNoneMatch);
      var res := headReply(nh, appUrl, h);
      AfterHead(inMemory, caching, m1, key, appUrl, h, res, cachedApp, StoredExpiry(expire, clock), create, nc)
  }

  /** The load once the HEAD request `h` has been answered with `res`: a 304
      keeps the cached app, anything else fetches the document again. */
  function AfterHead(inMemory: bool, caching: bool, m1: Store, key: string, appUrl: string,
                     h: map<string, string>, res: HeadResponse, cachedApp: Option<SpecApp>, timeout: int,
                     create: (nat, string) -> Option<SpecApp>, nc: nat): Loaded
  {
    if res.status == 304 && cachedApp.Some? then
      Loaded(Success(cachedApp.value),
             Cache.Stored(inMemory, m1, key, Triple(cachedApp, Some(res.headers), timeout)),
             Some((appUrl, h)), 0)
    else
      var f := Fetched(create, nc, appUrl, FetchAttempts);
      if f.0.None? then
        Loaded(Failure(Exceptions.ApiError(appUrl, 500, map[])), m1, Some((appUrl, h)), f.1)
      else
        Loaded(Success(f.0.value),
               if caching then Cache.Stored(inMemory, m1, key, Triple(f.0, Some(res.headers), timeout)) else m1,
               Some((appUrl, h)), f.1)
  }

  function HeadList(h: Option<(string, map<string, string>)>): seq<(string, map<string, string>)>
  {
    if h.Some? then [h.value] else []
  }

  // ---- properties of one load ----

  /** A cached app with a custom expire of 0 is used with no request at all. */
  lemma ZeroExpireUsesCache(inMemory: bool, caching: bool, m: Store, url: string, key: string, datasource: string,
                            clock: Clock, headReply: (nat, string, map<string, string>) -> HeadResponse, nh: nat,
                            create: (nat, string) -> Option<SpecApp>, nc: nat)
    requires key in m && m[key].Triple? && m[key].app.Some? && m[key].headers.Some?
    ensures var o := Load(inMemory, caching, m, url, key, datasource, Some(0), clock, headReply, nh, create, nc);
      o == Loaded(Success(m[key].app.value), m, None, 0)
  {
  }

  /** Under a custom expire, a cached app whose stored expiry is not past is
      used with no request at all. */
  lemma StoredExpiryUsesCache(inMemory: bool, caching: bool, m: Store, url: string, key: string, datasource: string,
                              expire: int, clock: Clock, headReply: (nat, string, map<string, string>) -> HeadResponse,
                              nh: nat, create: (nat, string) -> Option<SpecApp>, nc: nat)
    requires key in m && m[key].Triple? && m[key].app.Some? && m[key].headers.Some?
    requires m[key].expiry >= clock.now
    ensures var o := Load(inMemory, caching, m, url, key, datasource, Some(expire), clock, headReply, nh, create, nc);
      o == Loaded(Success(m[key].app.value), m, None, 0)
  {
  }

  /** Without a custom expire, a cached app whose `Expires` has time left is
      used with no request at all. */
  lemma HeaderExpiryUsesCache(inMemory: bool, caching: bool, m: Store, url: string, key: string, datasource: string,
                              clock: Clock, headReply: (nat, string, map<string, string>) -> HeadResponse,
                              nh: nat, create: (nat, string) -> Option<SpecApp>, nc: nat)
    requires key in m && m[key].Triple? && m[key].app.Some? && m[key].headers.Some?
    requires HeaderGet(m[key].headers.value, "expires").Some?
    requires TimeLeft(clock, HeaderGet(m[key].headers.value, "expires")) >= 0
    ensures var o := Load(inMemory, caching, m, url, key, datasource, None, clock, headReply, nh, create, nc);
      o == Loaded(Success(m[key].app.value), m, None, 0)
  {
  }

  /** A cached app that has to be checked is revalidated with its ETag, and
      on a 304 it is returned and stored again with the new headers. */
  lemma NotModifiedRestoresCachedApp(m: Store, url: string, key: string, datasource: string,
                                     expire: Option<int>, clock: Clock,
                                     headReply: (nat, string, map<string, string>) -> HeadResponse, nh: nat,
                                     create: (nat, string) -> Option<SpecApp>, nc: nat, caching: bool)
    requires key in m && m[key].Triple? && m[key].app.Some? && m[key].headers.Some?
    requires PlanApp(m[key].app, m[key].headers, m[key].expiry, expire, clock).Refetch?
    ensures var o := Load(true, caching, m, url, key, datasource, expire, clock, headReply, nh, create, nc);
      var etag := HeaderGet(m[key].headers.value, "etag");
      o.head == Some((AppUrl(url, datasource), HeadHeaders(etag))) &&
      (headReply(nh, AppUrl(url, datasource), HeadHeaders(etag)).status == 304 ==>
        o.result == Success(m[key].app.value) && o.attempts == 0 &&
        key in o.store &&
        o.store[key] == Triple(m[key].app, Some(headReply(nh, AppUrl(url, datasource), HeadHeaders(etag)).headers),
                               StoredExpiry(expire, clock)))
  {
  }

  /** When every one of the three fetches fails, the load fails with a 500
      for the document URL. */
  lemma AllFetchesFailIs500(inMemory: bool, caching: bool, m: Store, url: string, key: string, datasource: string,
                            expire: Option<int>, clock: Clock,
                            headReply: (nat, string, map<string, string>) -> HeadResponse, nh: nat,
                            create: (nat, string) -> Option<SpecApp>, nc: nat)
    requires forall i :: nc <= i < nc + FetchAttempts ==> create(i, AppUrl(url, datasource)).None?
    ensures var o := Load(inMemory, caching, m, url, key, datasource, expire, clock, headReply, nh, create, nc);
      o.result.Failure? ==> o.result.error == Exceptions.ApiError(AppUrl(url, datasource), 500, map[]) &&
                            o.attempts == FetchAttempts
    ensures var o := Load(inMemory, caching, m, url, key, datasource, expire, clock, headReply, nh, create, nc);
      o.attempts > 0 ==> o.result.Failure?
  {
  }

  /** A load never makes more than three fetches, and fails only after three. */
  lemma FetchesAreBounded(inMemory: bool, caching: bool, m: Store, url: string, key: string, datasource: string,
                          expire: Option<int>, clock: Clock,
                          headReply: (nat, string, map<string, string>) -> HeadResponse, nh: nat,
                          create: (nat, string) -> Option<SpecApp>, nc: nat)
    ensures var o := Load(inMemory, caching, m, url, key, datasource, expire, clock, headReply, nh, create, nc);
      o.attempts <= FetchAttempts && (o.result.Failure? ==> o.attempts == FetchAttempts) &&
      (o.attempts > 0 ==> o.head.Some?)
  {
  }

  /** With caching off, a fetched app is not written to the store. */
  lemma NoCachingNoWrite(inMemory: bool, m: Store, url: string, key: string, datasource: string,
                         expire: Option<int>, clock: Clock,
                         headReply: (nat, string, map<string, string>) -> HeadResponse, nh: nat,
                         create: (nat, string) -> Option<SpecApp>, nc: nat)
    ensures var o := Load(inMemory, false, m, url, key, datasource, expire, clock, headReply, nh, create, nc);
      o.attempts > 0 ==> o.store == m - {key} || o.store == m
  {
  }

  /** A malformed value never survives a load: afterwards the key holds a
      triple or nothing. */
  lemma MalformedNeverSurvives(inMemory: bool, caching: bool, m: Store, url: string, key: string, datasource: string,
                               expire: Option<int>, clock: Clock,
                               headReply: (nat, string, map<string, string>) -> HeadResponse, nh: nat,
                               create: (nat, string) -> Option<SpecApp>, nc: nat)
    ensures var o := Load(inMemory, caching, m, url, key, datasource, expire, clock, headReply, nh, create, nc);
      key in o.store ==> o.store[key].Triple?
    ensures var o := Load(inMemory, caching, m, url, key, datasource, expire, clock, headReply, nh, create, nc);
      forall k :: k in o.store && k != key ==> k in m && o.store[k] == m[k]
  {
  }

  // ---- endpoints ----

  /** `t in s` for strings: `t` occurs in `s` at some position. */
  predicate Contains(s: string, t: string)
    decreases |s|
  {
    |t| <= |s| && (s[..|t|] == t || Contains(s[1..], t))
  }

  datatype AttributeError = NotAnOperation(name: string) | NotASwaggerEndpoint(name: string)

  /** `__getattr__` for an operation name: the document URL to load and its
      cache key, for an operation whose URL names a swagger document. */
  function EndpointTarget(a: SpecApp, prefix: string, name: string): (r: Result<(string, string), AttributeError>)
    ensures name !in a.ops ==> r == Failure(NotAnOperation(name))
    ensures name in a.ops && !Contains(a.ops[name], "swagger.json") ==> r == Failure(NotASwaggerEndpoint(name))
    ensures r.Success? ==>
      name in a.ops && Contains(a.ops[name], "swagger.json") &&
      r.value == ("https:" + a.ops[name], EndpointKey(prefix, a.ops[name]))
  {
    if name !in a.ops then Failure(NotAnOperation(name))
    else if Contains(a.ops[name], "swagger.json") then
      Success(("https:" + a.ops[name], EndpointKey(prefix, a.ops[name])))
    else Failure(NotASwaggerEndpoint(name))
  }

  function EndpointKeys(prefix: string, urls: set<string>): set<string>
  {
    set u | u in urls :: EndpointKey(prefix, u)
  }

  /** The keys `clear_cached_endpoints` invalidates: one per endpoint URL
      under `prefix`, and the meta key under the app's own prefix. */
  function ClearedKeys(prefix: string, cachePrefix: string, a: SpecApp): set<string>
  {
    EndpointKeys(prefix, a.ops.Values) + {MetaKey(cachePrefix)}
  }

  /** Invalidates every key of `keys`, one at a time. */
  method InvalidateEach(b: Cache.Backend<string, Entry>, keys: set<string>)
    modifies b.Obj()
    ensures b.Contents() == old(b.Contents()) - keys
  {
    var todo := keys;
    while todo != {}
      invariant todo <= keys
      invariant b.Contents() == old(b.Contents()) - (keys - todo)
      decreases |todo|
    {
      var k :| k in todo;
      Cache.Invalidate(b, k);
      todo := todo - {k};
    }
  }

  /** Every document an endpoint lookup caches is dropped by clearing with
      the same prefix. */
  lemma ClearCoversEndpoints(a: SpecApp, prefix: string, cachePrefix: string, name: string)
    requires EndpointTarget(a, prefix, name).Success?
    ensures EndpointTarget(a, prefix, name).value.1 in ClearedKeys(prefix, cachePrefix, a)
  {
    assert a.ops[name] in a.ops.Values;
  }

  /** A history that keeps its first part, extended by one that keeps the
      result, still keeps the first part. */
  lemma PrefixKept<T>(first: seq<T>, middle: seq<T>, last: seq<T>)
    requires |first| <= |middle| <= |last|
    requires middle[..|first|] == first && last[..|middle|] == middle
    ensures last[..|first|] == first
  {
    assert last[..|first|] == last[..|middle|][..|first|];
  }

  /** Two loads in a row: the fetches of the first, of `first`, then those
      of the second, of `second`, after the history `before`. */
  lemma FetchesCompose(before: seq<string>, middle: seq<string>, after: seq<string>, k1: nat, k2: nat,
                       first: string, second: string)
    requires |middle| == |before| + k1 && middle[..|before|] == before
    requires forall i :: |before| <= i < |middle| ==> middle[i] == first
    requires |after| == |middle| + k2 && after[..|middle|] == middle
    requires forall i :: |middle| <= i < |after| ==> after[i] == second
    ensures |after| == |before| + k1 + k2 && after[..|before|] == before
    ensures forall i :: |before| <= i < |before| + k1 ==> after[i] == first
    ensures forall i :: |before| + k1 <= i < |after| ==> after[i] == second
  {
    PrefixKept(before, middle, after);
    forall i | |before| <= i < |before| + k1
      ensures after[i] == first
    {
      assert after[i] == after[..|middle|][i];
    }
  }

  datatype AppError = Config(config: Utils.ConfigError) | Api(api: Exceptions.ApiError) | Attribute(attribute: AttributeError)

  class EsiApp {
    const metaUrl: string
    const expire: Option<int>
    const cachePrefix: string
    const metaKey: string
    const caching: bool
    const cache: Cache.Backend<string, Entry>
    const datasource: string
    const server: SpecServer
    var app: Option<SpecApp>

    constructor (metaUrl: string, expire: Option<int>, cachePrefix: string, caching: bool,
                 cache: Cache.Backend<string, Entry>, datasource: string, server: SpecServer)
      ensures this.metaUrl == metaUrl && this.expire == expire && this.cachePrefix == cachePrefix
      ensures this.metaKey == MetaKey(cachePrefix) && this.caching == caching && this.cache == cache
      ensures this.datasource == datasource && this.server == server && app.None?
    {
      this.metaUrl := metaUrl;
      this.expire := expire;
      this.cachePrefix := cachePrefix;
      this.metaKey := MetaKey(cachePrefix);
      this.caching := caching;
      this.cache := cache;
      this.datasource := datasource;
      this.server := server;
      app := None;
    }

    /** `__init__`: keeps the normalised expire, selects the backend, and
        loads the meta document. Caching is on unless the cache argument is
        `None`. */
    static method Create(metaUrl: string, cacheTime: Option<int>, cachePrefix: string,
                         arg: Utils.CacheArg<string, Entry>, datasource: string, server: SpecServer, clock: Clock)
      returns (r: Result<EsiApp, AppError>)
      modifies server, if arg.Instance? then {arg.backend.Obj()} else {}
      ensures arg.Other? ==> r == Failure(Config(Utils.ValueError("Provided cache must implement BaseCache")))
      ensures !arg.Other? ==>
        var o := Load(arg.FalseArg? || (arg.Instance? && arg.backend.InMemory?), !arg.NoneArg?,
                      if arg.Instance? then old(arg.backend.Contents()) else map[],
                      metaUrl, MetaKey(cachePrefix), datasource, NormaliseExpire(cacheTime), clock,
                      server.headReply, |old(server.heads)|, server.createReply, |old(server.fetches)|);
        (r.Success? <==> o.result.Success?) &&
        (r.Failure? ==> r == Failure(Api(o.result.error))) &&
        (r.Success? ==> r.value.app == Some(o.result.value) && r.value.cache.Contents() == o.store) &&
        (arg.Instance? ==> arg.backend.Contents() == o.store) &&
        server.heads == old(server.heads) + HeadList(o.head) &&
        |server.fetches| == |old(server.fetches)| + o.attempts &&
        server.fetches[..|old(server.fetches)|] == old(server.fetches) &&
        forall i :: |old(server.fetches)| <= i < |server.fetches| ==> server.fetches[i] == AppUrl(metaUrl, datasource)
      ensures r.Success? ==> fresh(r.value) && r.value.app.Some? && r.value.server == server
      ensures r.Success? ==> r.value.expire == NormaliseExpire(cacheTime) && r.value.metaKey == MetaKey(cachePrefix)
      ensures r.Success? ==> r.value.caching == !arg.NoneArg?
      ensures r.Success? && arg.Instance? ==> r.value.cache == arg.backend
      ensures r.Success? && arg.FalseArg? ==> r.value.cache.InMemory? && fresh(r.value.cache.Obj())
      ensures r.Success? && arg.NoneArg? ==> r.value.cache.NoCache?
      ensures r.Success? ==>
        r.value.metaUrl == metaUrl && r.value.cachePrefix == cachePrefix && r.value.datasource == datasource
    {
      var checked := Utils.CheckCache(arg);
      if checked.Failure? {
        return Failure(Config(checked.error));
      }
      var e := new EsiApp(metaUrl, NormaliseExpire(cacheTime), cachePrefix, !arg.NoneArg?, checked.value, datasource, server);
      var loaded := e.GetOrCreateApp(metaUrl, e.metaKey, clock);
      if loaded.Failure? {
        return Failure(Api(loaded.error));
      }
      e.app := Some(loaded.value);
      r := Success(e);
    }

    /** `__get_or_create_app` */
    method GetOrCreateApp(url: string, key: string, clock: Clock) returns (r: Result<SpecApp, Exceptions.ApiError>)
      modifies cache.Obj(), server
      ensures var o := Load(cache.InMemory?, caching, old(cache.Contents()), url, key, datasource, expire, clock,
                            server.headReply, |old(server.heads)|, server.createReply, |old(server.fetches)|);
        r == o.result && cache.Contents() == o.store &&
        server.heads == old(server.heads) + HeadList(o.head) &&
        |server.fetches| == |old(server.fetches)| + o.attempts &&
        server.fetches[..|old(server.fetches)|] == old(server.fetches) &&
        forall i :: |old(server.fetches)| <= i < |server.fetches| ==> server.fetches[i] == AppUrl(url, datasource)
    {
      var stored := Cache.Get(cache, key, Triple(None, None, 0));
      var cachedApp, cachedHeaders, cachedExpiry;
      if stored.Malformed? {
        Cache.Invalidate(cache, key);
        cachedApp, cachedHeaders, cachedExpiry := stored.raw, None, 0;
      } else {
        cachedApp, cachedHeaders, cachedExpiry := stored.app, stored.headers, stored.expiry;
      }
      var plan := PlanApp(cachedApp, cachedHeaders, cachedExpiry, expire, clock);
      if plan.UseCached? {
        return Success(cachedApp.value);
      }
      if plan.drop {
        Cache.Invalidate(cache, key);
      }
      r := HeadAndFetch(key, AppUrl(url, datasource), HeadHeaders(plan.ifNoneMatch), cachedApp, clock);
    }

    /** The part of `__get_or_create_app` from the HEAD request on. */
    method HeadAndFetch(key: string, appUrl: string, headers: map<string, string>, cachedApp: Option<SpecApp>, clock: Clock)
      returns (r: Result<SpecApp, Exceptions.ApiError>)
      modifies cache.Obj(), server
      ensures var res := server.headReply(|old(server.heads)|, appUrl, headers);
        var o := AfterHead(cache.InMemory?, caching, old(cache.Contents()), key, appUrl, headers, res, cachedApp,
                           StoredExpiry(expire, clock), server.createReply, |old(server.fetches)|);
        r == o.result && cache.Contents() == o.store &&
        server.heads == old(server.heads) + HeadList(o.head) &&
        |server.fetches| == |old(server.fetches)| + o.attempts &&
        server.fetches[..|old(server.fetches)|] == old(server.fetches) &&
        forall i :: |old(server.fetches)| <= i < |server.fetches| ==> server.fetches[i] == appUrl
    {
      var timeout := StoredExpiry(expire, clock);
      var res := server.Head(appUrl, headers);
      var expiration := Expiration(expire, res.headers, clock);
      if res.status == 304 && cachedApp.Some? {
        Cache.Set(cache, key, Triple(cachedApp, Some(res.headers), timeout), Some(expiration));
        return Success(cachedApp.value);
      }
      var fetched, _ := server.FetchApp(appUrl);
      if fetched.None? {
        return Failure(Exceptions.ApiError(appUrl, 500, map[]));
      }
      if caching {
        Cache.Set(cache, key, Triple(fetched, Some(res.headers), timeout), Some(expiration));
      }
      r := Success(fetched.value);
    }

    /** The app reading `app` yields: the one held, or the meta document
        loaded again. */
    ghost function CurrentLoad(clock: Clock): Loaded
      reads this, cache.Obj(), server
    {
      if app.Some? then Loaded(Success(app.value), cache.Contents(), None, 0)
      else Load(cache.InMemory?, caching, cache.Contents(), metaUrl, metaKey, datasource, expire, clock,
                server.headReply, |server.heads|, server.createReply, |server.fetches|)
    }

    /** The cache and the server are as the load `o` of `url` leaves them. */
    twostate predicate Followed(o: Loaded, url: string)
      reads cache.Obj(), server
    {
      cache.Contents() == o.store && server.heads == old(server.heads) + HeadList(o.head) &&
      |server.fetches| == |old(server.fetches)| + o.attempts &&
      server.fetches[..|old(server.fetches)|] == old(server.fetches) &&
      forall i :: |old(server.fetches)| <= i < |server.fetches| ==> server.fetches[i] == AppUrl(url, datasource)
    }

    /** The state after an endpoint's document `t` (its URL and cache key)
        was loaded, once the meta document had been loaded as `c`, starting
        from the HEADs `heads0` and the fetches `fetches0`: `r` is the outcome
        of that load, the store is the one it leaves, the HEADs sent are those
        of both loads in order, the earlier fetches are kept, and the new
        ones are `c.attempts` of the meta document followed by those of `t`. */
    ghost predicate EndpointLoaded(c: Loaded, t: (string, string), clock: Clock,
                             heads0: seq<(string, map<string, string>)>, fetches0: seq<string>,
                             r: Result<SpecApp, AppError>)
      reads cache.Obj(), server
    {
      var o := Load(cache.InMemory?, caching, c.store, t.0, t.1, datasource, expire, clock,
                    server.headReply, |heads0| + |HeadList(c.head)|,
                    server.createReply, |fetches0| + c.attempts);
      r == (if o.result.Success? then Success(o.result.value) else Failure(Api(o.result.error))) &&
      cache.Contents() == o.store &&
      server.heads == heads0 + HeadList(c.head) + HeadList(o.head) &&
      |server.fetches| == |fetches0| + c.attempts + o.attempts &&
      server.fetches[..|fetches0|] == fetches0 &&
      (forall i :: |fetches0| <= i < |fetches0| + c.attempts ==> server.fetches[i] == AppUrl(metaUrl, datasource)) &&
      (forall i :: |fetches0| + c.attempts <= i < |server.fetches| ==> server.fetches[i] == AppUrl(t.0, datasource))
    }

    /** Reading `app`: a cleared app is loaded again from the meta document. */
    method CurrentApp(clock: Clock) returns (r: Result<SpecApp, Exceptions.ApiError>)
      modifies this, cache.Obj(), server
      ensures old(app).Some? ==>
        r == Success(old(app).value) && app == old(app) &&
        cache.Contents() == old(cache.Contents()) && server.heads == old(server.heads) && server.fetches == old(server.fetches)
      ensures var c := old(CurrentLoad(clock));
        r == c.result && Followed(c, metaUrl) && app == (if r.Success? then Some(r.value) else None)
    {
      if app.Some? {
        return Success(app.value);
      }
      r := GetOrCreateApp(metaUrl, metaKey, clock);
      if r.Success? {
        app := Some(r.value);
      }
    }

    /** `__getattr__` for an operation name: loads (or finds in cache) the
        document the operation points to. */
    method Endpoint(name: string, clock: Clock) returns (r: Result<SpecApp, AppError>)
      modifies this, cache.Obj(), server
      ensures var c := old(CurrentLoad(clock));
        c.result.Failure? ==> r == Failure(Api(c.result.error)) && app.None? && Followed(c, metaUrl)
      ensures var c := old(CurrentLoad(clock));
        c.result.Success? && EndpointTarget(c.result.value, cachePrefix, name).Failure? ==>
          r == Failure(Attribute(EndpointTarget(c.result.value, cachePrefix, name).error)) &&
          app == Some(c.result.value) && Followed(c, metaUrl)
      ensures var c := old(CurrentLoad(clock));
        c.result.Success? && EndpointTarget(c.result.value, cachePrefix, name).Success? ==>
          app == Some(c.result.value) &&
          EndpointLoaded(c, EndpointTarget(c.result.value, cachePrefix, name).value, clock,
                         old(server.heads), old(server.fetches), r)
    {
      var current := CurrentApp(clock);
      if current.Failure? {
        return Failure(Api(current.error));
      }
      ghost var c := old(CurrentLoad(clock));
      r := LoadEndpoint(current.value, name, clock, c, old(server.heads), old(server.fetches));
    }

    /** The part of `__getattr__` after `self.app` is read: the operation
        named `name` of `a` and the document it points to. `c` is how `a` was
        obtained, and `heads0`/`fetches0` what the server had recorded before. */
    method LoadEndpoint(a: SpecApp, name: string, clock: Clock, ghost c: Loaded,
                        ghost heads0: seq<(string, map<string, string>)>, ghost fetches0: seq<string>)
      returns (r: Result<SpecApp, AppError>)
      requires c.result == Success(a)
      requires cache.Contents() == c.store && server.heads == heads0 + HeadList(c.head)
      requires |server.fetches| == |fetches0| + c.attempts && server.fetches[..|fetches0|] == fetches0
      requires forall i :: |fetches0| <= i < |server.fetches| ==> server.fetches[i] == AppUrl(metaUrl, datasource)
      modifies cache.Obj(), server
      ensures EndpointTarget(c.result.value, cachePrefix, name).Failure? ==>
        r == Failure(Attribute(EndpointTarget(c.result.value, cachePrefix, name).error)) &&
        cache.Contents() == old(cache.Contents()) && server.heads == old(server.heads) && server.fetches == old(server.fetches)
      ensures EndpointTarget(c.result.value, cachePrefix, name).Success? ==>
        EndpointLoaded(c, EndpointTarget(c.result.value, cachePrefix, name).value, clock, heads0, fetches0, r)
    {
      var t := EndpointTarget(a, cachePrefix, name);
      if t.Failure? {
        return Failure(Attribute(t.error));
      }
      ghost var middle := server.fetches;
      var loaded := GetOrCreateApp(t.value.0, t.value.1, clock);
      FetchesCompose(fetches0, middle, server.fetches, c.attempts, |server.fetches| - |middle|,
                     AppUrl(metaUrl, datasource), AppUrl(t.value.0, datasource));
      if loaded.Failure? {
        return Failure(Api(loaded.error));
      }
      r := Success(loaded.value);
    }

    /** `clear_cached_endpoints`: drops the document of every endpoint under
        `prefix` (the app's own prefix by default) and the meta document,
        then clears `app`. */
    method ClearCachedEndpoints(prefix: Option<string>, clock: Clock) returns (r: Result<(), Exceptions.ApiError>)
      modifies this, cache.Obj(), server
      ensures r.Success? ==> app.None?
      ensures var c := old(CurrentLoad(clock));
        c.result.Failure? ==> r == Failure(c.result.error) && app.None? && Followed(c, metaUrl)
      ensures var c := old(CurrentLoad(clock));
        c.result.Success? ==>
          r.Success? &&
          cache.Contents() == c.store - ClearedKeys(if prefix.Some? then prefix.value else cachePrefix, cachePrefix, c.result.value) &&
          server.heads == old(server.heads) + HeadList(c.head) &&
          |server.fetches| == |old(server.fetches)| + c.attempts &&
          server.fetches[..|old(server.fetches)|] == old(server.fetches) &&
          forall i :: |old(server.fetches)| <= i < |server.fetches| ==> server.fetches[i] == AppUrl(metaUrl, datasource)
    {
      ghost var c := CurrentLoad(clock);
      var p := if prefix.Some? then prefix.value else cachePrefix;
      var current := CurrentApp(clock);
      if current.Failure? {
        return Failure(current.error);
      }
      var a := current.value;
      ghost var loaded := cache.Contents();
      InvalidateEach(cache, EndpointKeys(p, a.ops.Values));
      Cache.Invalidate(cache, MetaKey(cachePrefix));
      assert cache.Contents() == loaded - ClearedKeys(p, cachePrefix, a);
      app := None;
      r := Success(());
    }
  }
}
