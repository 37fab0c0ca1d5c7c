/** The ESI client's conditional executor (cache lookup, revalidation with
    `If-None-Match`, eager invalidation, the synthetic 500 for transport
    failures, the 304 merge), its caching decision, the bounded 5xx retry loop
    and the batch dispatcher. */
module Client {
  import opened Common
  import Cache
  import Utils
  import Exceptions

  type CacheKey = Utils.CacheKey

  /** `CachedResponse(status_code, headers, content, url)`; a response from
      the transport has the same four parts. */
  datatype CachedResponse = CachedResponse(status: int, headers: Headers, content: string, url: string)

  type Store = map<CacheKey, CachedResponse>

  /** `__uncached_methods__` */
  const UncachedMethods: seq<string> := ["POST", "PUT", "DELETE", "HEAD"]

  predicate IsUncached(verb: string)
  {
    verb in UncachedMethods
  }

  // ---- the transport ----

  /** The prepared request handed to the session. */
  datatype Outgoing = Outgoing(verb: string, url: string, query: seq<(string, string)>, data: string, header: map<string, string>)

  /** What sending does: an answer, or a connection error or a timeout raised by the session. */
  datatype Reply = Answer(response: CachedResponse) | ConnectionFailed(message: string) | TimedOut(message: string)

  /** The HTTP session. It records what it is sent; `respond(n, o)` is the
      server's reply to `o` when `o` is the `n`-th request of the session. */
  class Session {
    var sent: seq<Outgoing>
    const respond: (nat, Outgoing) -> Reply

    constructor (respond: (nat, Outgoing) -> Reply)
      ensures sent == [] && this.respond == respond
    {
      sent := [];
      this.respond := respond;
    }

    method Send(o: Outgoing) returns (r: Reply)
      modifies this
      ensures sent == old(sent) + [o]
      ensures r == respond(|old(sent)|, o)
    {
      r := respond(|sent|, o);
      sent := sent + [o];
    }
  }

  function SentList(o: Option<Outgoing>): seq<Outgoing>
  {
    if o.Some? then [o.value] else []
  }

  // ---- the decision of the conditional executor ----

  /** A cached entry may be served when it carries `expires` and the time
      left is not negative: an entry with exactly 0 seconds left still counts. */
  predicate Fresh(r: CachedResponse, clock: Clock)
  {
    HeaderGet(r.headers, "expires").Some? && TimeLeft(clock, HeaderGet(r.headers, "expires")) >= 0
  }

  /** Serve the cached entry, or send the request, with the validator to
      attach and whether the entry is invalidated first. */
  datatype Plan = Serve(hit: CachedResponse) | Fetch(ifNoneMatch: Option<string>, drop: bool)

  function PlanFor(cached: Option<CachedResponse>, clock: Clock): (p: Plan)
    ensures cached.None? ==> p == Fetch(None, false)
    ensures cached.Some? ==> (p.Serve? <==> Fresh(cached.value, clock))
    ensures p.Serve? ==> p.hit == cached.value
    ensures cached.Some? && p.Fetch? ==> p.ifNoneMatch == HeaderGet(cached.value.headers, "etag")
    ensures cached.Some? && p.Fetch? ==> (p.drop <==> p.ifNoneMatch.None?)
  {
    if cached.None? then Fetch(None, false)
    else
      var expires := HeaderGet(cached.value.headers, "expires");
      if expires.Some? && TimeLeft(clock, expires) >= 0 then Serve(cached.value)
      else
        var etag := HeaderGet(cached.value.headers, "etag");
        Fetch(etag, (expires.None? || TimeLeft(clock, expires) < 0) && etag.None?)
  }

  /** The entry the executor consults as the code is written: the lookup
      happens whatever the method is. */
  function LookupAsWritten(m: Store, key: CacheKey): (c: Option<CachedResponse>)
    ensures c.Some? <==> key in m
    ensures c.Some? ==> c.value == m[key]
  {
    if key in m then Some(m[key]) else None
  }

  /** The entry the executor consults: a method that is never cached never
      reads the cache either. */
  function Consulted(verb: string, m: Store, key: CacheKey): (c: Option<CachedResponse>)
    ensures IsUncached(verb) ==> c.None?
    ensures !IsUncached(verb) ==> c == LookupAsWritten(m, key)
  {
    if IsUncached(verb) then None else LookupAsWritten(m, key)
  }

  /** The caller's headers, with `If-None-Match` when there is a validator. */
  function WithValidator(h: map<string, string>, validator: Option<string>): map<string, string>
  {
    if validator.Some? then h["If-None-Match" := validator.value] else h
  }

  function ErrorBody(message: string): string
  {
    "{\"error\": \"" + message + "\"}"
  }

  /** The response the executor goes on with: the answer, or a synthetic 500
      standing for a connection error or a timeout. */
  function Received(reply: Reply, url: string): CachedResponse
  {
    match reply
    case Answer(res) => res
    case ConnectionFailed(msg) => CachedResponse(500, map[], ErrorBody(msg), url)
    case TimedOut(msg) => CachedResponse(500, map[], ErrorBody(msg), url)
  }

  /** A 304 answers a request for which an entry was found, and the client
      returns cached bodies for it. */
  predicate Revalidated(cached: Option<CachedResponse>, res: CachedResponse, noEtagBody: bool)
  {
    res.status == 304 && cached.Some? && !noEtagBody
  }

  /** The cached entry with `Expires` and `Date` taken from the 304. */
  function Merge304(cached: CachedResponse, notModified: CachedResponse): (r: CachedResponse)
    ensures r.status == cached.status && r.content == cached.content && r.url == cached.url
    ensures "expires" in r.headers && r.headers["expires"] == HeaderGet(notModified.headers, "expires")
    ensures "date" in r.headers && r.headers["date"] == HeaderGet(notModified.headers, "date")
    ensures forall h :: h != "expires" && h != "date" ==> (h in r.headers <==> h in cached.headers)
    ensures forall h :: h in cached.headers && h != "expires" && h != "date" ==> r.headers[h] == cached.headers[h]
  {
    var expires := HeaderGet(notModified.headers, "expires");
    var date := HeaderGet(notModified.headers, "date");
    cached.(headers := cached.headers["expires" := expires]["date" := date])
  }

  /** One pass of the executor: the response, the store afterwards, and the
      request sent, if any. */
  datatype Outcome = Outcome(response: CachedResponse, store: Store, sent: Option<Outgoing>)

  /** The executor once the entry to consult is known. With the in-memory
      backend the entry is the very object the dictionary holds, so the
      header update of a 304 reaches the stored entry as well, unless that
      entry was invalidated before the request. */
  function ExecuteWith(cached: Option<CachedResponse>, inMemory: bool, m: Store, key: CacheKey, verb: string,
                       req: Request, clock: Clock, noEtagBody: bool, respond: (nat, Outgoing) -> Reply, n: nat): Outcome
  {
    match PlanFor(cached, clock)
    case Serve(hit) => Outcome(hit, m, None)
    case Fetch(validator, drop) =>
      var m1 := if drop then m - {key} else m;
      var out := Outgoing(verb, req.url, req.query, req.data, WithValidator(req.header, validator));
      var res := Received(respond(n, out), out.url);
      if Revalidated(cached, res, noEtagBody) then
        var merged := Merge304(cached.value, res);
        Outcome(merged, if inMemory && !drop then m1[key := merged] else m1, Some(out))
      else
        Outcome(res, m1, Some(out))
  }

  /** The executor as written: it consults the cache for every method. */
  function ExecuteAsWritten(inMemory: bool, m: Store, key: CacheKey, verb: string, req: Request, clock: Clock,
                            noEtagBody: bool, respond: (nat, Outgoing) -> Reply, n: nat): Outcome
  {
    ExecuteWith(LookupAsWritten(m, key), inMemory, m, key, verb, req, clock, noEtagBody, respond, n)
  }

  /** The executor with the lookup skipped for methods that are never cached. */
  function Execute(inMemory: bool, m: Store, key: CacheKey, verb: string, req: Request, clock: Clock,
                   noEtagBody: bool, respond: (nat, Outgoing) -> Reply, n: nat): Outcome
  {
    ExecuteWith(Consulted(verb, m, key), inMemory, m, key, verb, req, clock, noEtagBody, respond, n)
  }

  // ---- the caching decision ----

  /** A 200 response is stored when it carries `expires`, its method may be
      cached, and its expiry is not in the past. */
  predicate Cacheable(res: CachedResponse, verb: string, clock: Clock)
  {
    "expires" in res.headers && !IsUncached(verb) && TimeLeft(clock, HeaderGet(res.headers, "expires")) >= 0
  }

  /** A response that would be cached but for an expiry already past: it is
      skipped with a warning. */
  predicate StaleOnArrival(res: CachedResponse, verb: string, clock: Clock)
  {
    "expires" in res.headers && !IsUncached(verb) && TimeLeft(clock, HeaderGet(res.headers, "expires")) < 0
  }

  /** One call of the client: the executor, then the caching of a 200. */
  function Step(inMemory: bool, m: Store, req: Request, clock: Clock, noEtagBody: bool,
                respond: (nat, Outgoing) -> Reply, n: nat): Outcome
  {
    var key := Utils.MakeCacheKey(req);
    var verb := Upper(req.verb);
    var o := Execute(inMemory, m, key, verb, req, clock, noEtagBody, respond, n);
    if o.response.status == 200 && Cacheable(o.response, verb, clock) then
      o.(store := Cache.Stored(inMemory, o.store, key, o.response))
    else
      o
  }

  // ---- properties of one call ----

  /** A fresh entry is returned as it is, with no request sent, and the store
      keeps it. */
  lemma FreshEntryServedWithoutNetwork(m: Store, req: Request, clock: Clock, noEtagBody: bool,
                                       respond: (nat, Outgoing) -> Reply, n: nat)
    requires Utils.MakeCacheKey(req) in m
    requires !IsUncached(Upper(req.verb))
    requires Fresh(m[Utils.MakeCacheKey(req)], clock)
    ensures var o := Step(true, m, req, clock, noEtagBody, respond, n);
      o.sent.None? && o.response == m[Utils.MakeCacheKey(req)] && o.store == m
  {
    var key := Utils.MakeCacheKey(req);
    assert m[key := m[key]] == m;
  }

  /** A response one call stores is served by the next call for the same
      request, without a request, while it is still fresh. */
  lemma StoredThenServed(m: Store, req: Request, clock1: Clock, clock2: Clock, noEtagBody: bool,
                         respond: (nat, Outgoing) -> Reply, n1: nat, n2: nat)
    requires !IsUncached(Upper(req.verb))
    requires Step(true, m, req, clock1, noEtagBody, respond, n1).response.status == 200
    requires Cacheable(Step(true, m, req, clock1, noEtagBody, respond, n1).response, Upper(req.verb), clock1)
    requires Fresh(Step(true, m, req, clock1, noEtagBody, respond, n1).response, clock2)
    ensures var o1 := Step(true, m, req, clock1, noEtagBody, respond, n1);
      var o2 := Step(true, o1.store, req, clock2, noEtagBody, respond, n2);
      o2.sent.None? && o2.response == o1.response && o2.store == o1.store
  {
    var o1 := Step(true, m, req, clock1, noEtagBody, respond, n1);
    var key := Utils.MakeCacheKey(req);
    assert key in o1.store && o1.store[key] == o1.response;
    FreshEntryServedWithoutNetwork(o1.store, req, clock2, noEtagBody, respond, n2);
  }

  /** A method that is never cached is always sent, without a validator, and
      leaves the store as it was. */
  lemma UncachedMethodBypassesCache(inMemory: bool, m: Store, req: Request, clock: Clock, noEtagBody: bool,
                                    respond: (nat, Outgoing) -> Reply, n: nat)
    requires IsUncached(Upper(req.verb))
    ensures var o := Step(inMemory, m, req, clock, noEtagBody, respond, n);
      o.store == m &&
      o.sent == Some(Outgoing(Upper(req.verb), req.url, req.query, req.data, req.header)) &&
      o.response == Received(respond(n, o.sent.value), req.url)
  {
  }

  /** A stale entry with an ETag is revalidated: the request carries
      `If-None-Match`, and on a 304 the cached body comes back with the new
      `Expires` and `Date`, and is what the store then holds. */
  lemma RevalidationKeepsBody(m: Store, req: Request, clock: Clock, respond: (nat, Outgoing) -> Reply, n: nat)
    requires Utils.MakeCacheKey(req) in m
    requires !IsUncached(Upper(req.verb))
    requires !Fresh(m[Utils.MakeCacheKey(req)], clock)
    requires HeaderGet(m[Utils.MakeCacheKey(req)].headers, "etag").Some?
    ensures var key := Utils.MakeCacheKey(req);
      var o := Step(true, m, req, clock, false, respond, n);
      o.sent.Some? &&
      o.sent.value.header == req.header["If-None-Match" := HeaderGet(m[key].headers, "etag").value] &&
      (respond(n, o.sent.value).Answer? && respond(n, o.sent.value).response.status == 304 ==>
        o.response == Merge304(m[key], respond(n, o.sent.value).response) &&
        key in o.store && o.store[key] == o.response)
  {
  }

  /** With `no_etag_body`, a 304 is returned as it is. */
  lemma NoEtagBodyReturns304(inMemory: bool, m: Store, req: Request, clock: Clock,
                             respond: (nat, Outgoing) -> Reply, n: nat)
    ensures var o := Step(inMemory, m, req, clock, true, respond, n);
      o.sent.Some? && respond(n, o.sent.value).Answer? && respond(n, o.sent.value).response.status == 304 ==>
        o.response == respond(n, o.sent.value).response
  {
  }

  /** A stale entry without an ETag is invalidated before the request, which
      carries no validator; afterwards the key holds at most the new response. */
  lemma StaleWithoutValidatorDropped(m: Store, req: Request, clock: Clock, noEtagBody: bool,
                                     respond: (nat, Outgoing) -> Reply, n: nat)
    requires Utils.MakeCacheKey(req) in m
    requires !IsUncached(Upper(req.verb))
    requires !Fresh(m[Utils.MakeCacheKey(req)], clock)
    requires HeaderGet(m[Utils.MakeCacheKey(req)].headers, "etag").None?
    ensures var key := Utils.MakeCacheKey(req);
      var o := Step(true, m, req, clock, noEtagBody, respond, n);
      o.sent == Some(Outgoing(Upper(req.verb), req.url, req.query, req.data, req.header)) &&
      o.store - {key} == m - {key} &&
      (key in o.store ==> o.store[key] == o.response)
  {
  }

  /** A connection error or a timeout becomes a 500 with no headers and a
      body naming the error; nothing is stored for it. */
  lemma TransportFailureIsServerError(inMemory: bool, m: Store, req: Request, clock: Clock, noEtagBody: bool,
                                      respond: (nat, Outgoing) -> Reply, n: nat)
    ensures var o := Step(inMemory, m, req, clock, noEtagBody, respond, n);
      o.sent.Some? && !respond(n, o.sent.value).Answer? ==>
        o.response == CachedResponse(500, map[], ErrorBody(respond(n, o.sent.value).message), req.url) &&
        (o.store == m || o.store == m - {Utils.MakeCacheKey(req)})
  {
  }

  /** Every stored entry is a 200 response carrying `expires`. */
  predicate StoreInvariant(m: Store)
  {
    forall k :: k in m ==> m[k].status == 200 && "expires" in m[k].headers
  }

  lemma StepKeepsStoreInvariant(inMemory: bool, m: Store, req: Request, clock: Clock, noEtagBody: bool,
                                respond: (nat, Outgoing) -> Reply, n: nat)
    requires StoreInvariant(m)
    ensures StoreInvariant(Step(inMemory, m, req, clock, noEtagBody, respond, n).store)
  {
  }

  // ---- the missing method check of the cache lookup ----

  /** As written, a POST whose URL, headers, path and query match a fresh
      cached GET is answered from the cache and never reaches the server. */
  lemma PostAnsweredFromCacheAsWritten(respond: (nat, Outgoing) -> Reply, n: nat)
    ensures var get := Request("get", "https://esi.evetech.net/latest/characters/1/mail/", map[], map[], [], "", []);
      var post := get.(verb := "post", data := "{\"subject\": \"hi\"}");
      var hit := CachedResponse(200, map["expires" := Some("Sat, 17 Oct 2026 12:00:00 GMT")], "[]", get.url);
      var clock := Clock(0, _ => 60);
      var m := map[Utils.MakeCacheKey(get) := hit];
      IsUncached(Upper(post.verb)) &&
      ExecuteAsWritten(true, m, Utils.MakeCacheKey(post), Upper(post.verb), post, clock, false, respond, n) ==
        Outcome(hit, m, None)
  {
    var get := Request("get", "https://esi.evetech.net/latest/characters/1/mail/", map[], map[], [], "", []);
    var post := get.(verb := "post", data := "{\"subject\": \"hi\"}");
    Utils.KeyIgnoresOrderMethodAndBody(get, [], "post", "{\"subject\": \"hi\"}");
    assert Upper(post.verb) == "POST";
  }

  // ---- retries and batches ----

  const MaxAttempts: nat := 5

  predicate IsServerError(status: int)
  {
    500 <= status <= 599
  }

  /** The sleep before retry `n`, in centiseconds (`n ** 4 / 100` seconds). */
  function Backoff(n: nat): nat
  {
    n * n * n * n
  }

  /** The sleeps before retries `from` to `from + k - 1`, in order. */
  function BackoffsFrom(from: nat, k: nat): (s: seq<nat>)
    ensures |s| == k
    decreases k
  {
    if k == 0 then [] else [Backoff(from)] + BackoffsFrom(from + 1, k - 1)
  }

  /** The sleeps before retries 1 to `k`, in order. */
  function Backoffs(k: nat): (s: seq<nat>)
    ensures |s| == k
  {
    BackoffsFrom(1, k)
  }

  lemma {:induction false} BackoffsFromAreFourthPowers(from: nat, k: nat)
    ensures forall i :: 0 <= i < k ==> BackoffsFrom(from, k)[i] == Backoff(from + i)
    decreases k
  {
    if k > 0 {
      BackoffsFromAreFourthPowers(from + 1, k - 1);
    }
  }

  lemma BackoffsAreFourthPowers(k: nat)
    ensures forall i :: 0 <= i < k ==> Backoffs(k)[i] == (i + 1) * (i + 1) * (i + 1) * (i + 1)
  {
    BackoffsFromAreFourthPowers(1, k);
  }

  /** The sleeps of `attempts` attempts of `_retry_request` entered with
      `_retry == retry`: none before the first call of a request, and
      `Backoff(retry)` before each later one. */
  function Sleeps(retry: nat, attempts: nat): (s: seq<nat>)
    decreases attempts
  {
    if attempts == 0 then [] else (if retry == 0 then [] else [Backoff(retry)]) + Sleeps(retry + 1, attempts - 1)
  }

  lemma SleepsStep(retry: nat, attempts: nat, later: seq<nat>)
    requires later == Sleeps(retry + 1, attempts)
    ensures Sleeps(retry, attempts + 1) == (if retry == 0 then [] else [Backoff(retry)]) + later
  {
  }

  lemma {:induction false} SleepsFromRetry(retry: nat, attempts: nat)
    requires retry >= 1
    ensures Sleeps(retry, attempts) == BackoffsFrom(retry, attempts)
    decreases attempts
  {
    if attempts > 0 {
      SleepsFromRetry(retry + 1, attempts - 1);
    }
  }

  /** A request that took `attempts` attempts slept `Backoff(1)` to
      `Backoff(attempts - 1)`, in order. */
  lemma SleepsAreBackoffs(attempts: nat)
    requires attempts >= 1
    ensures Sleeps(0, attempts) == Backoffs(attempts - 1)
  {
    SleepsFromRetry(1, attempts - 1);
  }

  function Total(s: seq<nat>): nat
  {
    if s == [] then 0 else s[0] + Total(s[1..])
  }

  /** The longest run of retries sleeps 0.01 + 0.16 + 0.81 + 2.56 seconds in all. */
  lemma TotalBackoff()
    ensures Backoffs(MaxAttempts - 1) == [1, 16, 81, 256]
    ensures Total(Backoffs(MaxAttempts - 1)) == 354
  {
    assert Backoffs(4) == [1, 16, 81, 256];
    var s: seq<nat> := [1, 16, 81, 256];
    assert s[1..] == [16, 81, 256] && s[1..][1..] == [81, 256] && s[1..][1..][1..] == [256];
    assert Total([256]) == 256;
    assert Total([81, 256]) == 337;
    assert Total([16, 81, 256]) == 353;
  }

  /** What a run of calls leaves: the response it ends with, the store
      afterwards, the requests sent, and the status of every attempt. */
  datatype Run = Run(response: CachedResponse, store: Store, sent: seq<Outgoing>, statuses: seq<int>)

  /** A single `_request` for a request, a store and the number of requests
      the session has sent so far. */
  type Call = (Request, Store, nat) -> Outcome

  /** The client's `_request`: `Step` with its configuration. */
  function CallOf(inMemory: bool, clock: Clock, noEtagBody: bool, respond: (nat, Outgoing) -> Reply): Call
  {
    (req: Request, m: Store, n: nat) => Step(inMemory, m, req, clock, noEtagBody, respond, n)
  }

  /** One call as a run of one attempt. */
  function Once(o: Outcome): Run
  {
    Run(o.response, o.store, SentList(o.sent), [o.response.status])
  }

  /** `_retry_request` entered with `_retry == retry`: one call, and, on a
      5xx while fewer than five attempts have been made, the next attempt
      against the store this one left. */
  function Retried(call: Call, req: Request, m: Store, n: nat, retry: nat): (a: Run)
    ensures |a.statuses| >= 1
    decreases MaxAttempts - retry, 1
  {
    // the first call of the attempt, then what its outcome leads to
    RetriedFrom(call, req, call(req, m, n), n, retry)
  }

  /** What an attempt of `_retry_request` entered with `_retry == retry`
      does once its call has had the outcome `o`: stop, or try again
      against the store the call left on a 5xx while fewer than five
      attempts have been made. */
  function RetriedFrom(call: Call, req: Request, o: Outcome, n: nat, retry: nat): (a: Run)
    ensures |a.statuses| >= 1
    decreases MaxAttempts - retry, 0
  {
    if IsServerError(o.response.status) && retry + 1 < MaxAttempts then
      var rest := Retried(call, req, o.store, n + |SentList(o.sent)|, retry + 1);
      Run(rest.response, rest.store, SentList(o.sent) + rest.sent, [o.response.status] + rest.statuses)
    else
      Once(o)
  }

  /** A 5xx before the last attempt: the run is the next attempt's, after
      this one's request and status. */
  lemma RetriedAgain(call: Call, req: Request, m: Store, n: nat, retry: nat, o: Outcome, rest: Run)
    requires o == call(req, m, n) && IsServerError(o.response.status) && retry + 1 < MaxAttempts
    requires rest == Retried(call, req, o.store, n + |SentList(o.sent)|, retry + 1)
    ensures Retried(call, req, m, n, retry) ==
      Run(rest.response, rest.store, SentList(o.sent) + rest.sent, [o.response.status] + rest.statuses)
  {
  }

  /** What `_retry_request` has to show after a retry: the run, the
      requests sent and the sleeps of this attempt followed by the next. */
  lemma RetryThen(call: Call, req: Request, m: Store, n: nat, retry: nat, o: Outcome, rest: Run,
                  before: seq<Outgoing>, later: seq<nat>)
    requires o == call(req, m, n) && IsServerError(o.response.status) && retry + 1 < MaxAttempts
    requires rest == Retried(call, req, o.store, n + |SentList(o.sent)|, retry + 1)
    requires later == Sleeps(retry + 1, |rest.statuses|)
    ensures var run := Run(rest.response, rest.store, SentList(o.sent) + rest.sent, [o.response.status] + rest.statuses);
      run == Retried(call, req, m, n, retry) &&
      (before + SentList(o.sent)) + rest.sent == before + run.sent &&
      (if retry == 0 then [] else [Backoff(retry)]) + later == Sleeps(retry, |run.statuses|)
  {
    RetriedAgain(call, req, m, n, retry, o, rest);
    ConcatAssociative(before, SentList(o.sent), rest.sent);
    SleepsStep(retry, |rest.statuses|, later);
  }

  /** No 5xx, or the last attempt: the run is this attempt alone. */
  lemma RetriedStops(call: Call, req: Request, m: Store, n: nat, retry: nat, o: Outcome)
    requires o == call(req, m, n) && !(IsServerError(o.response.status) && retry + 1 < MaxAttempts)
    ensures Retried(call, req, m, n, retry) == Once(o)
  {
  }

  /** The shape of a run allowed `budget` attempts: at least one attempt
      and at most `budget`, at most one request sent per attempt, the last
      status the status of the response returned, every earlier one a 5xx,
      and a run that stopped early stopped on a status that is not a 5xx. */
  predicate AttemptsShape(a: Run, budget: int)
  {
    1 <= |a.statuses| <= budget && |a.sent| <= |a.statuses| &&
    a.statuses[|a.statuses| - 1] == a.response.status &&
    (forall i :: 0 <= i < |a.statuses| - 1 ==> IsServerError(a.statuses[i])) &&
    (|a.statuses| < budget ==> !IsServerError(a.response.status))
  }

  lemma ShapeOnce(o: Outcome, budget: int)
    requires budget >= 1 && (budget == 1 || !IsServerError(o.response.status))
    ensures AttemptsShape(Once(o), budget)
  {
  }

  lemma ShapeAgain(sent: Option<Outgoing>, status: int, rest: Run, budget: int)
    requires AttemptsShape(rest, budget - 1) && IsServerError(status)
    ensures AttemptsShape(Run(rest.response, rest.store, SentList(sent) + rest.sent, [status] + rest.statuses), budget)
  {
    var statuses := [status] + rest.statuses;
    forall i | 0 <= i < |statuses| - 1
      ensures IsServerError(statuses[i])
    {
      if i > 0 {
        assert statuses[i] == rest.statuses[i - 1];
      }
    }
  }

  /** Attempts are made only while the previous ones got a 5xx, at most five
      in all; the last status is the status of the response returned, and
      each attempt sends at most one request. */
  lemma {:induction false} RetriedAttempts(call: Call, req: Request, m: Store, n: nat, retry: nat)
    requires retry < MaxAttempts
    ensures AttemptsShape(Retried(call, req, m, n, retry), MaxAttempts - retry)
    decreases MaxAttempts - retry
  {
    var o := call(req, m, n);
    if IsServerError(o.response.status) && retry + 1 < MaxAttempts {
      RetriedAttempts(call, req, o.store, n + |SentList(o.sent)|, retry + 1);
      RetriedShapeAgain(call, req, m, n, retry, o);
    } else {
      RetriedStops(call, req, m, n, retry, o);
      ShapeOnce(o, MaxAttempts - retry);
    }
  }

  lemma RetriedShapeAgain(call: Call, req: Request, m: Store, n: nat, retry: nat, o: Outcome)
    requires o == call(req, m, n) && IsServerError(o.response.status) && retry + 1 < MaxAttempts
    requires AttemptsShape(Retried(call, req, o.store, n + |SentList(o.sent)|, retry + 1), MaxAttempts - (retry + 1))
    ensures AttemptsShape(Retried(call, req, m, n, retry), MaxAttempts - retry)
  {
    var rest := Retried(call, req, o.store, n + |SentList(o.sent)|, retry + 1);
    RetriedAgain(call, req, m, n, retry, o, rest);
    ShapeAgain(o.sent, o.response.status, rest, MaxAttempts - retry);
  }

  /** A first answer that is not a 5xx is the only attempt. */
  lemma NoRetryWithoutServerError(call: Call, req: Request, m: Store, n: nat)
    requires !IsServerError(call(req, m, n).response.status)
    ensures Retried(call, req, m, n, 0) == Once(call(req, m, n))
  {
  }

  /** A call that keeps every stored entry a 200 carrying `expires`. */
  ghost predicate KeepsStoreInvariant(call: Call)
  {
    forall req, m, n :: StoreInvariant(m) ==> StoreInvariant(call(req, m, n).store)
  }

  /** Retrying keeps the store invariant that each call keeps. */
  lemma {:induction false} RetriedKeepsStoreInvariant(call: Call, req: Request, m: Store, n: nat, retry: nat)
    requires KeepsStoreInvariant(call) && StoreInvariant(m)
    ensures StoreInvariant(Retried(call, req, m, n, retry).store)
    decreases MaxAttempts - retry
  {
    var o := call(req, m, n);
    if IsServerError(o.response.status) && retry + 1 < MaxAttempts {
      RetriedKeepsStoreInvariant(call, req, o.store, n + |SentList(o.sent)|, retry + 1);
    }
  }

  /** The error `raise_on_error` raises for a response of 400 or more. */
  function Raised(url: string, res: CachedResponse, raiseOnError: bool): Result<CachedResponse, Exceptions.ApiError>
  {
    if raiseOnError && res.status >= 400 then Failure(Exceptions.ApiError(url, res.status, map[])) else Success(res)
  }

  /** One dispatch of a request against a store, with the number of
      requests the session has sent so far. */
  type Dispatcher = (Request, Store, nat) -> Run

  /** `request`: the retry loop or a single call, as configured. */
  function Dispatched(retryRequests: bool, call: Call, req: Request, m: Store, n: nat): Run
  {
    if retryRequests then Retried(call, req, m, n, 0) else Once(call(req, m, n))
  }

  function DispatcherOf(retryRequests: bool, call: Call): Dispatcher
  {
    (req: Request, m: Store, n: nat) => Dispatched(retryRequests, call, req, m, n)
  }

  /** What a batch leaves: one response per request, the store afterwards,
      and the requests sent. */
  datatype BatchRun = BatchRun(responses: seq<CachedResponse>, store: Store, sent: seq<Outgoing>)

  /** The requests of `reqs` dispatched one after another, each against the
      store the previous ones left, continuing the run `start` of a session
      that had sent `n` requests before it. */
  function Continue(dispatch: Dispatcher, n: nat, reqs: seq<Request>, start: BatchRun): (b: BatchRun)
    ensures |b.responses| == |start.responses| + |reqs|
    decreases |reqs|
  {
    if reqs == [] then start
    else
      var b := Continue(dispatch, n, reqs[..|reqs| - 1], start);
      var d := dispatch(reqs[|reqs| - 1], b.store, n + |b.sent|);
      BatchRun(b.responses + [d.response], d.store, b.sent + d.sent)
  }

  /** `multi_request` run sequentially from the store `m`. */
  function Batch(dispatch: Dispatcher, reqs: seq<Request>, m: Store, n: nat): (b: BatchRun)
    ensures |b.responses| == |reqs|
  {
    Continue(dispatch, n, reqs, BatchRun([], m, []))
  }

  /** One more request: the batch of the first `i + 1` requests is the
      batch of the first `i` followed by one dispatch. */
  lemma BatchStep(dispatch: Dispatcher, reqs: seq<Request>, i: nat, m: Store, n: nat, b: BatchRun, d: Run)
    requires i < |reqs| && b == Batch(dispatch, reqs[..i], m, n) && d == dispatch(reqs[i], b.store, n + |b.sent|)
    ensures Batch(dispatch, reqs[..i + 1], m, n) == BatchRun(b.responses + [d.response], d.store, b.sent + d.sent)
  {
    assert reqs[..i + 1][..i] == reqs[..i];
  }

  lemma ConcatAssociative<T>(a: seq<T>, b: seq<T>, c: seq<T>)
    ensures a + (b + c) == (a + b) + c
  {
  }

  lemma ConcatDropLast<T>(a: seq<T>, b: seq<T>)
    requires b != []
    ensures (a + b)[..|a + b| - 1] == a + b[..|b| - 1] && (a + b)[|a + b| - 1] == b[|b| - 1]
  {
    assert (a + b)[..|a + b| - 1] == a + b[..|b| - 1];
  }

  /** Running two parts one after the other is running their concatenation:
      the second part goes on from the store and the requests the first
      left. */
  lemma {:induction false} ContinueSplit(dispatch: Dispatcher, n: nat, reqs1: seq<Request>, reqs2: seq<Request>,
                                        start: BatchRun)
    ensures Continue(dispatch, n, reqs1 + reqs2, start) == Continue(dispatch, n, reqs2, Continue(dispatch, n, reqs1, start))
    decreases |reqs2|
  {
    if reqs2 == [] {
      assert reqs1 + reqs2 == reqs1;
    } else {
      ConcatDropLast(reqs1, reqs2);
      ContinueSplit(dispatch, n, reqs1, reqs2[..|reqs2| - 1], start);
    }
  }

  /** The first responses of a batch are the responses of its first requests. */
  lemma {:induction false} BatchPrefix(dispatch: Dispatcher, reqs: seq<Request>, k: nat, m: Store, n: nat)
    requires k <= |reqs|
    ensures Batch(dispatch, reqs, m, n).responses[..k] == Batch(dispatch, reqs[..k], m, n).responses
  {
    ContinuePrefix(dispatch, n, reqs[..k], reqs[k..], BatchRun([], m, []));
    assert reqs[..k] + reqs[k..] == reqs;
  }

  lemma {:induction false} ContinuePrefix(dispatch: Dispatcher, n: nat, reqs1: seq<Request>, reqs2: seq<Request>,
                                         start: BatchRun)
    ensures Continue(dispatch, n, reqs1 + reqs2, start).responses[..|start.responses| + |reqs1|] ==
      Continue(dispatch, n, reqs1, start).responses
    decreases |reqs2|
  {
    ContinueSplit(dispatch, n, reqs1, reqs2, start);
    ContinueExtends(dispatch, n, reqs2, Continue(dispatch, n, reqs1, start));
  }

  /** Continuing a run only appends to its responses. */
  lemma {:induction false} ContinueExtends(dispatch: Dispatcher, n: nat, reqs: seq<Request>, start: BatchRun)
    ensures Continue(dispatch, n, reqs, start).responses[..|start.responses|] == start.responses
    decreases |reqs|
  {
    if reqs != [] {
      ContinueExtends(dispatch, n, reqs[..|reqs| - 1], start);
    }
  }

  /** A dispatch that keeps every stored entry a 200 carrying `expires`. */
  ghost predicate DispatchKeepsStoreInvariant(dispatch: Dispatcher)
  {
    forall req, m, n :: StoreInvariant(m) ==> StoreInvariant(dispatch(req, m, n).store)
  }

  /** The client's dispatch keeps the store invariant, with or without retries. */
  lemma DispatcherKeepsStoreInvariant(retryRequests: bool, call: Call)
    requires KeepsStoreInvariant(call)
    ensures DispatchKeepsStoreInvariant(DispatcherOf(retryRequests, call))
  {
    forall req, m, n | StoreInvariant(m)
      ensures StoreInvariant(DispatcherOf(retryRequests, call)(req, m, n).store)
    {
      if retryRequests {
        RetriedKeepsStoreInvariant(call, req, m, n, 0);
      }
    }
  }

  /** A batch keeps the store invariant that each dispatch keeps. */
  lemma {:induction false} ContinueKeepsStoreInvariant(dispatch: Dispatcher, n: nat, reqs: seq<Request>, start: BatchRun)
    requires DispatchKeepsStoreInvariant(dispatch) && StoreInvariant(start.store)
    ensures StoreInvariant(Continue(dispatch, n, reqs, start).store)
    decreases |reqs|
  {
    if reqs != [] {
      ContinueKeepsStoreInvariant(dispatch, n, reqs[..|reqs| - 1], start);
    }
  }

  /** The worker pool size: `threads` clamped into [1, 100]. */
  function PoolSize(threads: int): (w: int)
    ensures 1 <= w <= 100
    ensures 1 <= threads <= 100 ==> w == threads
    ensures threads > 100 ==> w == 100
    ensures threads < 1 ==> w == 1
  {
    var capped := if threads < 100 then threads else 100;
    if capped > 1 then capped else 1
  }

  class EsiClient {
    const cache: Cache.Backend<CacheKey, CachedResponse>
    const session: Session
    const retryRequests: bool
    const noEtagBody: bool
    /** `_request` at a given time, as a function of the request, the store
        and the number of requests the session has sent. */
    ghost const attempt: Clock -> Call

    /** `attempt` is `Step` with this client's backend kind, `no_etag_body`
        and server. */
    ghost predicate Valid()
    {
      forall clock, req, m, n {:trigger Step(cache.InMemory?, m, req, clock, noEtagBody, session.respond, n)} ::
        attempt(clock)(req, m, n) == Step(cache.InMemory?, m, req, clock, noEtagBody, session.respond, n)
    }

    constructor (cache: Cache.Backend<CacheKey, CachedResponse>, session: Session, retryRequests: bool, noEtagBody: bool)
      ensures this.cache == cache && this.session == session
      ensures this.retryRequests == retryRequests && this.noEtagBody == noEtagBody
      ensures Valid()
    {
      this.cache := cache;
      this.session := session;
      this.retryRequests := retryRequests;
      this.noEtagBody := noEtagBody;
      this.attempt := (clock: Clock) => CallOf(cache.InMemory?, clock, noEtagBody, session.respond);
    }

    /** Every attempt keeps every stored entry a 200 carrying `expires`. */
    lemma AttemptKeepsStoreInvariant(clock: Clock)
      requires Valid()
      ensures KeepsStoreInvariant(attempt(clock))
    {
      forall req, m, n | StoreInvariant(m)
        ensures StoreInvariant(attempt(clock)(req, m, n).store)
      {
        StepKeepsStoreInvariant(cache.InMemory?, m, req, clock, noEtagBody, session.respond, n);
      }
    }

    /** Builds a client from the `cache` argument; an unusable argument fails. */
    static method Create(arg: Utils.CacheArg<CacheKey, CachedResponse>, session: Session, retryRequests: bool, noEtagBody: bool)
      returns (r: Result<EsiClient, Utils.ConfigError>)
      ensures arg.Other? ==> r == Failure(Utils.ValueError("Provided cache must implement BaseCache"))
      ensures !arg.Other? ==> r.Success? && fresh(r.value) && r.value.session == session && r.value.Valid()
      ensures r.Success? ==> r.value.retryRequests == retryRequests && r.value.noEtagBody == noEtagBody
      ensures arg.Instance? && r.Success? ==> r.value.cache == arg.backend
      ensures arg.FalseArg? && r.Success? ==>
        r.value.cache.InMemory? && fresh(r.value.cache.Obj()) && r.value.cache.Contents() == map[]
      ensures arg.NoneArg? && r.Success? ==> r.value.cache.NoCache?
    {
      var checked := Utils.CheckCache(arg);
      if checked.Failure? {
        return Failure(checked.error);
      }
      var c := new EsiClient(checked.value, session, retryRequests, noEtagBody);
      r := Success(c);
    }

    /** `__make_request`: serve, revalidate or invalidate, send, and merge a 304. */
    method MakeRequest(req: Request, key: CacheKey, clock: Clock) returns (res: CachedResponse)
      modifies cache.Obj(), session
      ensures var o := Execute(cache.InMemory?, old(cache.Contents()), key, Upper(req.verb), req, clock,
                               noEtagBody, session.respond, |old(session.sent)|);
        res == o.response && cache.Contents() == o.store && session.sent == old(session.sent) + SentList(o.sent)
    {
      var verb := Upper(req.verb);
      var cached: Option<CachedResponse> := None;
      if !IsUncached(verb) {
        cached := Cache.Lookup(cache, key);
      }
      var plan := PlanFor(cached, clock);
      if plan.Serve? {
        return plan.hit;
      }
      if plan.drop {
        Cache.Invalidate(cache, key);
      }
      var out := Outgoing(verb, req.url, req.query, req.data, WithValidator(req.header, plan.ifNoneMatch));
      var reply := session.Send(out);
      res := Received(reply, out.url);
      if Revalidated(cached, res, noEtagBody) {
        res := Merge304(cached.value, res);
        if cache.InMemory? && !plan.drop {
          // the entry returned is the object the dictionary holds
          cache.dict.entries := cache.dict.entries[key := res];
        }
      }
    }

    /** `__cache_response`: stores the response with its time left as TTL, or
        skips it; `ttl` is the timeout handed to the backend and `warned`
        says whether the stale-response warning was raised. */
    method CacheResponse(key: CacheKey, res: CachedResponse, verb: string, clock: Clock) returns (ttl: Option<int>, warned: bool)
      modifies cache.Obj()
      ensures Cacheable(res, verb, clock) ==>
        cache.Contents() == Cache.Stored(cache.InMemory?, old(cache.Contents()), key, res) &&
        ttl == Some(TimeLeft(clock, HeaderGet(res.headers, "expires")))
      ensures !Cacheable(res, verb, clock) ==> cache.Contents() == old(cache.Contents()) && ttl.None?
      ensures warned <==> StaleOnArrival(res, verb, clock)
    {
      ttl, warned := None, false;
      if "expires" in res.headers && !IsUncached(verb) {
        var timeout := TimeLeft(clock, HeaderGet(res.headers, "expires"));
        if timeout >= 0 {
          Cache.Set(cache, key, res, Some(timeout));
          ttl := Some(timeout);
        } else {
          warned := true;
        }
      }
    }

    /** `_request`: one call, with the error raised only when asked for. */
    method SendRequest(req: Request, clock: Clock, raiseOnError: bool) returns (r: Result<CachedResponse, Exceptions.ApiError>)
      requires Valid()
      modifies cache.Obj(), session
      ensures var o := attempt(clock)(req, old(cache.Contents()), |old(session.sent)|);
        cache.Contents() == o.store && session.sent == old(session.sent) + SentList(o.sent) &&
        r == Raised(req.url, o.response, raiseOnError)
    {
      ghost var m0, n0 := cache.Contents(), |session.sent|;
      assert attempt(clock)(req, m0, n0) == Step(cache.InMemory?, m0, req, clock, noEtagBody, session.respond, n0);
      var key := Utils.MakeCacheKey(req);
      var res := MakeRequest(req, key, clock);
      if res.status == 200 {
        var _, _ := CacheResponse(key, res, Upper(req.verb), clock);
      }
      if res.status >= 400 && raiseOnError {
        r := Failure(Exceptions.ApiError(req.url, res.status, map[]));
      } else {
        r := Success(res);
      }
    }

    /** `_retry_request` entered with `_retry == retry`: sleeps `Backoff(retry)`
        unless this is the first attempt, makes one call, and on a 5xx tries
        again while fewer than five attempts have been made; the error is
        raised only by the last attempt. `delays` lists the sleeps and `run`
        is the run of attempts made. */
    method RetryRequest(req: Request, clock: Clock, raiseOnError: bool, retry: nat)
      returns (r: Result<CachedResponse, Exceptions.ApiError>, delays: seq<nat>, ghost run: Run)
      requires Valid()
      modifies cache.Obj(), session
      ensures run == Retried(attempt(clock), req, old(cache.Contents()), |old(session.sent)|, retry)
      ensures cache.Contents() == run.store && session.sent == old(session.sent) + run.sent &&
        r == Raised(req.url, run.response, raiseOnError) && delays == Sleeps(retry, |run.statuses|)
      decreases MaxAttempts - retry
    {
      ghost var call := attempt(clock);
      ghost var m0, n0 := cache.Contents(), |session.sent|;
      delays := if retry == 0 then [] else [Backoff(retry)];
      var first := SendRequest(req, clock, false);
      var res := first.value;
      ghost var o := call(req, m0, n0);
      assert res == o.response;
      if IsServerError(res.status) && retry + 1 < MaxAttempts {
        var later: seq<nat>;
        ghost var rest: Run;
        r, later, rest := RetryRequest(req, clock, raiseOnError, retry + 1);
        RetryThen(call, req, m0, n0, retry, o, rest, old(session.sent), later);
        delays := delays + later;
        run := Run(rest.response, rest.store, SentList(o.sent) + rest.sent, [o.response.status] + rest.statuses);
      } else {
        run := Once(o);
        RetriedStops(call, req, m0, n0, retry, o);
        SleepsStep(retry, 0, []);
        assert delays + [] == delays;
        r := Raised(req.url, res, raiseOnError);
      }
    }

    /** `request`: the retry loop or a single call, as configured, without
        raising. */
    method Dispatch(req: Request, clock: Clock) returns (res: CachedResponse)
      requires Valid()
      modifies cache.Obj(), session
      ensures var d := Dispatched(retryRequests, attempt(clock), req, old(cache.Contents()), |old(session.sent)|);
        res == d.response && cache.Contents() == d.store && session.sent == old(session.sent) + d.sent
    {
      if retryRequests {
        var r, _, _ := RetryRequest(req, clock, false, 0);
        res := r.value;
      } else {
        var r := SendRequest(req, clock, false);
        res := r.value;
      }
    }

    /** `multi_request`: one `(request, response)` pair per request, in
        order, each request dispatched against the store the previous ones
        left. */
    method MultiRequest(reqs: seq<Request>, threads: int, clock: Clock)
      returns (results: seq<(Request, CachedResponse)>, workers: int)
      requires Valid()
      modifies cache.Obj(), session
      ensures workers == PoolSize(threads)
      ensures var b := Batch(DispatcherOf(retryRequests, attempt(clock)), reqs, old(cache.Contents()), |old(session.sent)|);
        |results| == |reqs| && (forall i :: 0 <= i < |reqs| ==> results[i] == (reqs[i], b.responses[i])) &&
        cache.Contents() == b.store && session.sent == old(session.sent) + b.sent
    {
      workers := PoolSize(threads);
      results := [];
      ghost var m0, n0 := cache.Contents(), |session.sent|;
      ghost var dispatch := DispatcherOf(retryRequests, attempt(clock));
      var i := 0;
      while i < |reqs|
        invariant 0 <= i <= |reqs| && |results| == i
        invariant var b := Batch(dispatch, reqs[..i], m0, n0);
          (forall j :: 0 <= j < i ==> results[j] == (reqs[j], b.responses[j])) &&
          cache.Contents() == b.store && session.sent == old(session.sent) + b.sent
      {
        ghost var b := Batch(dispatch, reqs[..i], m0, n0);
        ghost var d := dispatch(reqs[i], b.store, n0 + |b.sent|);
        var res := Dispatch(reqs[i], clock);
        BatchStep(dispatch, reqs, i, m0, n0, b, d);
        ConcatAssociative(old(session.sent), b.sent, d.sent);
        results := results + [(reqs[i], res)];
        i := i + 1;
      }
      assert reqs[..|reqs|] == reqs;
    }
  }
}
