# EsiPy core, modelled in Dafny

EsiPy is a Python client for EVE Online's ESI API. This project models its core and proves properties of the model:

- **Caches** (`cache.dfy`, module `Cache`): the in-memory `DictCache` and the no-op `DummyCache`, as classes whose store is a `map` field. Each external backend is modelled only for how it turns `expire` into a TTL.
- **Helpers** (`utils.dfy`, module `Utils`): the request cache key and the cache-argument check.
- **API errors** (`exceptions.dfy`, module `Exceptions`): the message of an API error, which reads back to its status code and detail.
- **Signals** (`events.dfy`, module `Events`): a receiver list that `send` walks until a receiver raises and `send_robust` walks to the end.
- **The conditional HTTP executor** (`client.dfy`, module `Client`):
  - serve a fresh entry, revalidate with `If-None-Match`, or invalidate;
  - a connection failure or timeout becomes a synthetic 500;
  - a 304 is merged into the cached entry;
  - a 200 is cached when it has `Expires`;
  - the 5xx retry loop with its n⁴ backoff;
  - the worker-pool bound of `multi_request`.
- **The meta application** (`app.dfy`, module `App`): specification documents cached as `(app, headers, expiry)` triples, a custom expire that overrides `Expires`, a HEAD revalidation, a three-attempt fetch, endpoint lookup and cache clearing.
- **OAuth2 security** (`security.dfy`, module `Security`):
  - the construction checks and the JWKS key map;
  - the token-endpoint requests of section 4.1.3 and section 6 of RFC 6749, with the PKCE verifier of RFC 7636;
  - the authorization URI of section 4.1.1 of RFC 6749 and section 4.3 of RFC 7636;
  - token update and expiry;
  - refresh, and revocation per section 2.1 of RFC 7009;
  - the `Authorization: Bearer` header added to secured requests.

`common.dfy` (module `Common`) holds the shared vocabulary: `Option`, `Result`, headers, the clock and the request.

Outside collaborators become parameters:
- **The clock**: a `Clock` holds the current time and a function `expiresAt` from an `Expires` value to a timestamp. Time left is `expiresAt(e) - now`, standing for `get_cache_time_left`.
- **The HTTP session**: `Client.Session` records what is sent. It answers the `n`-th request with `respond(n, request)`.
- **The document server**: `App.SpecServer` does the same for HEAD requests and document fetches.
- **The SSO server**: `Security.TokenServer` does the same for POSTs.
- **Encoders**: base64 encoding, URL quoting and the S256 code challenge are the function fields of `Security.Codecs`.

Response headers are a case-insensitive dictionary in the source. The model keys them in lower case.

## Model

| member | source | states |
|---|---|---|
| Common.HeaderGet | esipy/client.py:354 | a header lookup yields the stored value exactly when the name is present |
| Common.Upper | esipy/client.py:379 | the method name is upper-cased character by character, keeping its length |
| Cache.DictCache.constructor | esipy/cache.py:83-84 | a new dictionary cache is empty |
| Cache.DictCache.Get | esipy/cache.py:86-87 | returns the stored value, or the default when the key is absent |
| Cache.DictCache.Lookup | esipy/cache.py:86-87 | `get(key, None)`: `Some` of the stored value, or `None` when the key is absent |
| Cache.DictCache.Set | esipy/cache.py:89-90 | the key maps to the value and every other entry stays; `expire` is ignored |
| Cache.DictCache.Invalidate | esipy/cache.py:92-93 | removes the key, and a missing key is no error |
| Cache.DictCache.Clear | esipy/cache.py:95-96 | the cache becomes empty |
| Cache.DummyCache.constructor | esipy/cache.py:103-104 | a new dummy cache holds nothing |
| Cache.DummyCache.Get | esipy/cache.py:106-107 | always returns the default |
| Cache.DummyCache.Lookup | esipy/cache.py:106-107 | always misses |
| Cache.DummyCache.Set | esipy/cache.py:109-110 | changes nothing |
| Cache.DummyCache.Invalidate | esipy/cache.py:112-113 | changes nothing |
| Cache.Stored | esipy/cache.py:89-110 | a write reaches the in-memory store (the key then holds the value, other keys unchanged, domain grows by the key) and leaves the dummy store as it was |
| Cache.Get | esipy/cache.py:24-39 | `get` through the common interface returns the backend's stored value or the default |
| Cache.Lookup | esipy/cache.py:24-39 | `get(key, None)` through the common interface: hit exactly when the backend holds the key |
| Cache.Set | esipy/cache.py:24-39 | `set` through the common interface: the backend's contents become `Stored(...)` of the old contents |
| Cache.Invalidate | esipy/cache.py:24-39 | `invalidate` through the common interface removes the key from the backend's contents |
| Cache.InvalidateIdempotent | esipy/cache.py:92-93 | invalidating twice is invalidating once, and invalidating an absent key changes nothing |
| Cache.FileCacheExpire | esipy/cache.py:67-69 | the file cache stores without expiry exactly for `None` or 0, otherwise with the given expire |
| Cache.MemcachedExpire | esipy/cache.py:135-137 | memcached gets time 0 for `None`, otherwise the given expire |
| Cache.RedisExpire | esipy/cache.py:161-168 | redis uses a plain `set` exactly for `None` or 0, otherwise `setex` with the given seconds |
| Cache.ZeroExpireMeansNoExpire | esipy/cache.py:67-168 | on all three external backends an expire of 0 is the same as no expire |
| Cache.NonZeroExpireIsTtl | esipy/cache.py:67-168 | on all three external backends a non-zero expire is passed on as the TTL |
| Utils.PairsOf | esipy/utils.py:10-11 | the frozen set of a dictionary's items holds exactly its key/value pairs |
| Utils.PairSet | esipy/utils.py:12 | the frozen set of the query holds exactly the query's pairs |
| Utils.MakeCacheKey | esipy/utils.py:8-13 | the key holds the URL and, as sets, the header items, the path items and the query pairs |
| Utils.PairsOfInjective | esipy/utils.py:10-11 | two dictionaries with the same item set are equal |
| Utils.SameKeyIff | esipy/utils.py:8-13 | two requests share a cache key if and only if they have the same URL, headers and path, and the same set of query pairs |
| Utils.KeyIgnoresOrderMethodAndBody | esipy/utils.py:8-13 | reordering the query and changing the method or the body leave the cache key unchanged |
| Utils.CheckCache | esipy/utils.py:16-25 | a cache instance is kept, `False` gives a fresh empty dictionary cache, `None` a fresh dummy cache, and anything else a `ValueError` |
| Exceptions.Message | esipy/exceptions.py:12-20 | `HTTP Error <code>: <error>`, else `HTTP Error <code>: <message>`, else `HTTP Error <code>` |
| Exceptions.SignedRoundTrip | esipy/exceptions.py:12-20 | a status code written in decimal, with or without a `: <detail>` tail, reads back to the same code and detail |
| Exceptions.MessageRoundTrip | esipy/exceptions.py:12-20 | the message reads back to the status code and to the detail it reports (`error` before `message`) |
| Events.RemoveFirst | esipy/events.py:27-33 | `list.remove`: drops the first occurrence if there is one, else the list is unchanged |
| Events.RemoveFirstCount | esipy/events.py:27-33 | removing takes exactly one copy of the receiver out of the multiset of receivers |
| Events.RemoveUndoesAdd | esipy/events.py:18-33 | removing a receiver that was just added, and not there before, restores the list |
| Events.Raising | esipy/events.py:45-59 | the receivers that raise form a sub-list of the receivers, each of them raising |
| Events.RaisingAppend | esipy/events.py:45-59 | the raising receivers of a list extended by one are those of the list, plus the new one if it raises |
| Events.Signal.constructor | esipy/events.py:14-16 | a new signal has no receivers |
| Events.Signal.AddReceiver | esipy/events.py:18-25 | appends the receiver |
| Events.Signal.RemoveReceiver | esipy/events.py:27-33 | removes the first occurrence of the receiver, if present |
| Events.Signal.Send | esipy/events.py:35-43 | receivers are called in order up to and including the first that raises, whose exception propagates; with none raising, all are called |
| Events.Signal.SendRobust | esipy/events.py:45-59 | every receiver is called in order, and exactly the raising ones are logged, in order |
| Client.Session.constructor | esipy/client.py:62 | a new session has sent nothing |
| Client.Session.Send | esipy/client.py:393-396 | the request is recorded and answered by the `n`-th reply |
| Client.PlanFor | esipy/client.py:350-369 | an entry is served exactly when it has `Expires` with time left ≥ 0; otherwise its ETag becomes `If-None-Match`, and the entry is invalidated exactly when it has no ETag |
| Client.LookupAsWritten | esipy/client.py:351 | the lookup as written hits exactly when the key is stored, whatever the method |
| Client.Consulted | esipy/client.py:42 | corrected lookup: a method that is never cached never consults the cache; any other method looks up as written |
| Client.Merge304 | esipy/client.py:418-423 | a merged 304 keeps the cached status, body and URL, takes `Expires` and `Date` from the 304, and keeps every other cached header |
| Client.FreshEntryServedWithoutNetwork | esipy/client.py:351-360 | a fresh entry is returned with no request sent and the store unchanged |
| Client.StoredThenServed | esipy/client.py:221-222 | a 200 one call caches is returned by the next identical call, with no request, while it is fresh |
| Client.UncachedMethodBypassesCache | esipy/client.py:42 | POST, PUT, DELETE and HEAD are always sent, with the caller's headers and no validator, and leave the store unchanged |
| Client.RevalidationKeepsBody | esipy/client.py:363-423 | a stale entry with an ETag is revalidated with `If-None-Match`; on a 304 the cached body is returned with the new dates and the store holds it |
| Client.NoEtagBodyReturns304 | esipy/client.py:418-424 | with `no_etag_body` a 304 is returned as received |
| Client.StaleWithoutValidatorDropped | esipy/client.py:367-369 | a stale entry without an ETag is invalidated and the request carries no validator; afterwards the key holds nothing or the new response |
| Client.TransportFailureIsServerError | esipy/client.py:398-406 | a connection error or timeout becomes a 500 with no headers and an `{"error": ...}` body, and nothing is stored for it |
| Client.StepKeepsStoreInvariant | esipy/client.py:309-330 | every stored entry remains a 200 that carries `Expires` |
| Client.PostAnsweredFromCacheAsWritten | esipy/client.py:351-360 | as written, a POST to a URL with a fresh cached GET is answered from the cache and no request is sent |
| Client.Backoffs | esipy/client.py:122-124 | one delay per retry: `k` retries give `k` delays |
| Client.BackoffsAreFourthPowers | esipy/client.py:122-124 | the delay before retry `n` is `n⁴` centiseconds |
| Client.BackoffsFromAreFourthPowers | esipy/client.py:122-124 | the delays before retries `from` to `from + k - 1` are the fourth powers of those retry numbers |
| Client.SleepsFromRetry | esipy/client.py:120-124 | entered with `_retry ≥ 1`, every attempt sleeps `_retry⁴` cs before its call |
| Client.SleepsAreBackoffs | esipy/client.py:120-141 | a request that took `k` attempts slept nothing before the first call and `1⁴ … (k-1)⁴` cs before the others, in order |
| Client.Retried | esipy/client.py:110-154 | the chain of attempts of `_retry_request`: each attempt runs against the store and the sent count the previous one left, and there is at least one attempt |
| Client.RetriedAttempts | esipy/client.py:110-154 | one to five attempts; every status but the last is a 5xx; the last is the status of the response returned; fewer than five only when that status is not a 5xx; at most one request sent per attempt |
| Client.NoRetryWithoutServerError | esipy/client.py:129-141 | a first answer that is not a 5xx is the only attempt |
| Client.RetriedKeepsStoreInvariant | esipy/client.py:110-154 | retrying keeps every stored entry a 200 with `Expires` when each attempt does |
| Client.Batch | esipy/client.py:156-187 | the sequential batch gives one response per request |
| Client.ContinueSplit | esipy/client.py:181-185 | running two lists of requests one after the other is running their concatenation |
| Client.BatchPrefix | esipy/client.py:181-185 | the first `k` responses of a batch are the responses of its first `k` requests alone |
| Client.DispatcherKeepsStoreInvariant | esipy/client.py:65-68 | `request`, with or without retries, keeps every stored entry a 200 with `Expires` |
| Client.ContinueKeepsStoreInvariant | esipy/client.py:156-187 | a batch keeps every stored entry a 200 with `Expires` when each dispatch does |
| Client.EsiClient.AttemptKeepsStoreInvariant | esipy/client.py:189-335 | every attempt of this client keeps every stored entry a 200 with `Expires` |
| Client.TotalBackoff | esipy/client.py:122-130 | the four retries sleep 0.01, 0.16, 0.81 and 2.56 s, 3.54 s in all |
| Client.PoolSize | esipy/client.py:170 | the worker count is clamped into 1..100 and kept when already inside |
| Client.EsiClient.constructor | esipy/client.py:44-108 | keeps the backend, session, retry mode and `no_etag_body` |
| Client.EsiClient.Create | esipy/client.py:44-108 | the backend is what the cache check returns (a fresh empty dictionary cache for `False`), the retry mode and `no_etag_body` are the arguments, and a bad cache argument fails with `ValueError` |
| Client.EsiClient.MakeRequest | esipy/client.py:337-424 | the response, the new store and the requests sent are those of the corrected executor `Execute` |
| Client.EsiClient.CacheResponse | esipy/client.py:309-335 | stores the response with its time left as TTL exactly when it has `Expires`, its method may be cached, and the time left is ≥ 0; warns exactly when the time left is negative |
| Client.EsiClient.SendRequest | esipy/client.py:189-262 | one call: the store, the requests sent and the response are those of one attempt (`Step`, with caching of a 200); fails with an API error for the request URL exactly when asked to raise and the status is ≥ 400 |
| Client.EsiClient.RetryRequest | esipy/client.py:110-154 | the response, the store and the requests sent are those of `Retried`, the chain of attempts each made against the store the previous one left; the sleeps are `Sleeps(retry, attempts)`; raises once, after the last attempt, exactly when asked and the final status is ≥ 400 |
| Client.EsiClient.Dispatch | esipy/client.py:65-68 | `request`: the response, the store and the requests sent are those of `Dispatched`, the retry chain or one attempt as configured |
| Client.EsiClient.MultiRequest | esipy/client.py:156-187 | one `(request, response)` pair per request, in order; the responses, the store and the requests sent are those of `Batch`, each request dispatched against the store the previous ones left; worker count is `PoolSize(threads)` |
| App.NormaliseExpire | esipy/app.py:38-40 | a negative `cache_time` becomes 86400; `None` and non-negative values are kept |
| App.Unpack | esipy/app.py:63-68 | a stored triple is unpacked; any other value is carried as the app, with no headers and expiry 0, and marked for invalidation |
| App.PlanApp | esipy/app.py:70-94 | without a cached app and headers, a HEAD with no validator. Otherwise, when `Expires` decides (no custom expire), use the cache iff time left ≥ 0; else iff the custom expire is 0 or the stored expiry is not past. A refetch carries the ETag, and invalidates iff there is none |
| App.StoredExpiry | esipy/app.py:96-99 | the stored expiry is now plus a positive custom expire, otherwise 0 |
| App.Expiration | esipy/app.py:103-108 | the backend TTL is a positive custom expire, otherwise the time left of the HEAD's `Expires` |
| App.SpecServer.constructor | esipy/app.py:102 | a new server has received nothing |
| App.SpecServer.Head | esipy/app.py:102 | records the HEAD and answers it with the `n`-th reply |
| App.SpecServer.Create | esipy/app.py:122 | records the fetch and answers it with the `n`-th result |
| App.SpecServer.FetchApp | esipy/app.py:119-132 | the fetch loop's result and attempt count are `Fetched(...)`; every fetch is of the document URL |
| App.Fetched | esipy/app.py:119-132 | stops at the first successful fetch, whose app it returns; attempts number 1..3; no app means all three were made |
| App.FetchedFailuresBefore | esipy/app.py:119-132 | every fetch before the last one made failed, and with no app every fetch failed |
| App.ZeroExpireUsesCache | esipy/app.py:82-84 | with custom expire 0 a cached app is returned, with no request and the store unchanged |
| App.StoredExpiryUsesCache | esipy/app.py:82-84 | with a custom expire, a cached app whose stored expiry is not past is returned without a request |
| App.HeaderExpiryUsesCache | esipy/app.py:74-79 | with no custom expire, a cached app whose `Expires` has time left is returned without a request |
| App.NotModifiedRestoresCachedApp | esipy/app.py:86-115 | a cached app to be checked is revalidated by a HEAD with its ETag; on a 304 it is returned and stored again with the new headers and expiry |
| App.AllFetchesFailIs500 | esipy/app.py:119-139 | if all three fetches fail, the load fails with a 500 for the document URL |
| App.FetchesAreBounded | esipy/app.py:119-139 | at most three fetches, only after a HEAD; a failure comes only after three |
| App.NoCachingNoWrite | esipy/app.py:141-142 | with caching off a fetched app is not stored |
| App.MalformedNeverSurvives | esipy/app.py:63-66 | after a load the key holds a triple or nothing; all other keys are unchanged |
| App.EndpointTarget | esipy/app.py:156-167 | an unknown name is "not a valid operation"; one whose URL lacks `swagger.json` is "not a swagger endpoint"; otherwise the document is `https:<url>` under key `<prefix>:app:<url>` |
| App.InvalidateEach | esipy/app.py:191-193 | every key of the set is invalidated and nothing else changes |
| App.ClearCoversEndpoints | esipy/app.py:164-193 | the cache key of every endpoint document is among the keys clearing removes |
| App.EsiApp.constructor | esipy/app.py:34-48 | keeps the meta URL, normalised expire, prefix, meta key, caching flag, backend and datasource |
| App.EsiApp.Create | esipy/app.py:22-53 | a bad cache argument fails with `ValueError`; otherwise it succeeds iff `Load` of the meta document succeeds, the app is `Load`'s result or the error is its API error, and the store, the HEAD and the fetches are `Load`'s, with the fetches recorded before kept in front; the meta URL, prefix and datasource are kept, expire is normalised, the backend is the instance, a fresh dictionary cache or a dummy cache, and caching is on unless the cache is `None` |
| App.EsiApp.GetOrCreateApp | esipy/app.py:55-144 | result, store, HEAD and fetches are those of the specification function `Load` |
| App.EsiApp.HeadAndFetch | esipy/app.py:101-144 | from the HEAD on, the result and store are those of `AfterHead` |
| App.EsiApp.CurrentApp | esipy/app.py:169-179 | result, store, HEAD and fetches are those of `CurrentLoad`: a present app as is, a cleared one loaded again from the meta document and kept |
| App.EsiApp.Endpoint | esipy/app.py:146-167 | starting from `CurrentLoad` (the held app or the meta document loaded again): its failure is an API error; a name that is not a swagger endpoint fails with the matching attribute error; otherwise (`EndpointLoaded`) the result, store, HEADs and fetches are those of `Load` of `https:<url>` under `<prefix>:app:<url>` following the first load, and the fetches recorded before the call are kept in front of those of both loads |
| App.EsiApp.LoadEndpoint | esipy/app.py:156-167 | for the app `c` loaded: a missing operation or one whose URL is not a swagger document fails with the matching attribute error and changes nothing; otherwise `EndpointLoaded`: the outcome, store, HEADs and fetches of `Load` of that document, after the given earlier HEADs and fetches, which are kept |
| App.EsiApp.ClearCachedEndpoints | esipy/app.py:181-195 | starting from `CurrentLoad`: its failure is returned; otherwise the store is the one it left minus `ClearedKeys` of that app (every endpoint key under the prefix and the meta key), the fetches recorded before the call are kept, and the app is forgotten |
| Security.ConfigError | esipy/security.py:60-66 | construction fails iff the SSO endpoints URL is `None` or empty, or there is neither a secret nor a code verifier, with the source's messages |
| Security.KeySetOf | esipy/security.py:141-144 | the loop builds `KeyMap` of the key set |
| Security.KeyMapLastWins | esipy/security.py:141-144 | the key map holds exactly the kids of the key set, each mapped to the last key carrying it |
| Security.LastWinsStep | esipy/security.py:141-144 | adding one key to the map keeps that property for the longer key set |
| Security.DecodeEncode | esipy/security.py:221-234 | every authorization query reads back from its parameter list |
| Security.EncodeDecode | esipy/security.py:221-234 | a parameter list that reads back is exactly the encoding of what it reads as |
| Security.TokenServer.constructor | esipy/security.py:75 | a new SSO session has posted nothing |
| Security.TokenServer.Post | esipy/security.py:317 | records the POST and answers it with the `n`-th reply |
| Security.RevokeData | esipy/security.py:360-374 | no body iff both tokens are unset or empty; else the refresh token with hint `refresh_token` if set, otherwise the access token with hint `access_token` |
| Security.ApplyBearer | esipy/security.py:445-454 | the loop over the security entries yields `Bearer`: `Authorization: Bearer <token>` set iff some entry names the scheme and there is an access token, the request otherwise unchanged |
| Security.EsiSecurity.constructor | esipy/security.py:68-115 | keeps the configuration and identifier; no tokens and no JWKS yet |
| Security.EsiSecurity.Create | esipy/security.py:29-146 | fails with `ConfigError`'s error; otherwise a valid object without tokens that keeps every configuration argument; a key set gives `KeyMap` of its keys and no single key, a single key is kept and no key map |
| Security.EsiSecurity.BasicAuthHeader | esipy/security.py:148-166 | no header without a secret; otherwise `Basic` and the base64 of `client_id:secret` |
| Security.EsiSecurity.PrepareTokenRequest | esipy/security.py:168-194 | the Basic header and the given or token URL; without a secret the body gains `code_verifier` and `client_id` and keeps every other parameter |
| Security.EsiSecurity.AuthRequest | esipy/security.py:214-234 | `token` for the implicit flow else `code`; the quoted redirect URI; scopes joined with `+` iff there are some; the S256 challenge iff there is no secret and the flow is not implicit |
| Security.EsiSecurity.AuthUri | esipy/security.py:214-235 | a `None` or empty state fails; otherwise the authorize endpoint with the encoded query of `AuthRequest` |
| Security.EsiSecurity.AccessTokenParams | esipy/security.py:237-249 | grant type `authorization_code` with the code, to the token endpoint; `code_verifier` present iff there is no secret |
| Security.EsiSecurity.RefreshTokenParams | esipy/security.py:251-273 | fails without a refresh token, or with a truthy scope that is not a list. Otherwise grant type `refresh_token` with the token, and `scope` (joined with `+`) iff a non-empty list was given |
| Security.EsiSecurity.IsTokenExpired | esipy/security.py:294-309 | expired when there is no expiry, else iff `now + offset` has reached it |
| Security.EsiSecurity.UpdateToken | esipy/security.py:275-292 | sets the access token and an expiry of `now + expires_in`; replaces the identifier only when one is passed, and the refresh token only when the response has one |
| Security.EsiSecurity.Refresh | esipy/security.py:311-326 | without valid parameters, that error, nothing sent and nothing changed. Otherwise posts them; non-200 is an API error for the token URL with nothing changed; a 200 gives `Updated`: new access token and expiry, the refresh token replaced only when the reply has one, identifier and keys kept |
| Security.EsiSecurity.Auth | esipy/security.py:328-348 | posts the code exchange; non-200 is an API error for the token URL with nothing changed; a 200 gives `Updated` |
| Security.EsiSecurity.PostForToken | esipy/security.py:317-326 | the POST shared by refresh and auth: non-200 is an API error for the request URL with nothing changed; a 200 returns the body and gives `Updated` |
| Security.EsiSecurity.Revoke | esipy/security.py:350-376 | with no token, an attribute error, nothing sent and nothing changed; otherwise posts `RevokeData` to the revocation endpoint and clears all three token fields, keeping the identifier and the keys |
| Security.EsiSecurity.Call | esipy/security.py:434-456 | a request without security passes unchanged, nothing sent. With an unexpired token the result is `Bearer` of the current token, nothing sent. With an expired one, the refresh runs first: its parameter error or non-200 error is returned with nothing changed, and after a 200 the result is `Bearer` of the new token |

## Left out

- The transport is left out: the HTTP session, connection pooling, TLS and the `https` scheme preparation. They are replaced by the recording `Session`, `SpecServer` and `TokenServer` classes.
- pyswagger is not part of this model: parsing responses, building requests, `req_and_resp` reset and `request._patch(opt)`. A request is the `Common.Request` value, already resolved.
- `multi_request` runs its calls one after another. The thread pool is not modelled, only its size.
- Sleeping is modelled as the list of delays in centiseconds. The calls to `time.time()` are one `Clock` per call.
- Floating point (`time.time()`) is modelled with integers.
- The `API_CALL_STATS` emission per call is left out. So are the `AFTER_TOKEN_REFRESH` emission after a refresh in `__call__` and the log and `warnings` output: `Warning` headers, stale responses, missing securities, failed attempts.
- `Events.Signal.AddReceiver`: the `TypeError` for a receiver that is not callable is not modelled, because every value of the receiver type is callable in the model.
- Session default headers (`Accept`, `User-Agent`) and the user-agent warning are left out.
- `EsiClient.head` is not modelled; every method goes through `MakeRequest`.
- The `latin-1` encoding of the synthetic 500 body is left out; the body is a string.
- Storage in the file, memcached and redis backends, `_hash`, and redis pickling are not modelled, only how each treats `expire`. The `TypeError` checks of their constructors are not modelled either.
- `get_cache_time_left` is not part of this model; the `Clock` function stands for it.
- JWT verification (`verify`), fetching the SSO and JWKS documents, and `raise_for_status` on them are not modelled. The documents are parameters.
- Base64, `quote` and `generate_code_challenge` are not modelled; they are opaque function fields.
- `Security.EsiSecurity.UpdateToken`: a response whose `refresh_token` is present but JSON `null` is not modelled. The model treats it as absent, while the source would store `None`.
- `Security.EsiSecurity.AuthUri`: `scopes` is a list of strings. A truthy non-list `scopes`, which the source would join character by character, is not modelled.
- `App.Unpack`: a cached value that is not a triple is modelled as `Malformed`. A three-element value that is not a tuple, such as a 3-character string, which the source would unpack, is not modelled.
- The keyword arguments that `APIException` is raised with (`response=`, `request_param=`, `response_header=`) are not modelled. They do not match its constructor's `json_response` parameter. The model raises `ApiError(url, status, map[])` and does not decode response bodies.
- `App.EsiApp.GetOrCreateApp`: a connection error from `requests.head` is not modelled, nor is a fetch error other than `HTTPError`. The HEAD always answers, and a failed fetch is an HTTP error.
- `App.EsiApp.GetOrCreateApp`: the truthiness test on a fetched app (`if self.caching and app`) is not modelled; a fetched app is always truthy.
- `Client.EsiClient.MakeRequest`: `If-None-Match` is added to the caller's headers for the request sent, and that change to the caller's dictionary does not persist. The cache key is computed before it is added.
- `Client.Received`: the synthetic 500 carries the request's URL. The source gives it the prepared request's URL, which also holds the encoded query string. A real response keeps the URL its reply carries.
- Response headers are keyed in lower case by assumption: the replies `respond` gives are not checked for it, while `Cacheable`, `PlanFor` and `Merge304` look up `expires`, `etag` and `date` in lower case.
- `App.EsiApp.ClearCachedEndpoints`: endpoints are gathered into a set of keys before invalidating, so the order of invalidation is not modelled. The effect on the store is the same.

## Findings

| source | as written | input that shows it | evidently intended | confidence | as-written member | corrected member |
|---|---|---|---|---|---|---|
| esipy/client.py:351-360 | `__make_request` consults the cache for every method. `make_cache_key` (esipy/utils.py:8-13) ignores the method and the body. | A GET to `https://esi.evetech.net/latest/characters/1/mail/` is cached with `Expires` 60 s ahead. A POST to the same URL with the same headers is then answered with the cached GET response, and the POST is never sent. | Methods in `__uncached_methods__` (POST, PUT, DELETE, HEAD) are never answered from the cache and always reach the server. | not executed | Client.PostAnsweredFromCacheAsWritten | Client.UncachedMethodBypassesCache |
