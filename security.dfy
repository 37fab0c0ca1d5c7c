/** The OAuth2 side of the client: construction checks, the JWKS key map,
    the token endpoint requests (section 4.1.3 and section 6 of RFC 6749,
    with the PKCE verifier of RFC 7636), the authorization URI (section 4.1.1
    of RFC 6749 and section 4.3 of RFC 7636), the token state and its
    expiry, revocation (section 2.1 of RFC 7009), and the Bearer header a
    secured request receives. */
module Security {
  import opened Common
  import Exceptions

  /** The SSO endpoints document. */
  datatype SsoEndpoints = SsoEndpoints(issuer: string, authorize: string, token: string, revoke: string, jwksUri: string)

  /** One JSON Web Key: its key id and the rest of its fields. */
  datatype Jwk = Jwk(kid: string, material: map<string, string>)

  /** The JWKS document: a set of keys under `keys`, or a single key. */
  datatype JwksDoc = KeySet(keys: seq<Jwk>) | SingleKey(material: map<string, string>)

  /** Library functions: base64 encoding, `quote(s, safe='')`, and the S256
      code challenge of a verifier. */
  datatype Codecs = Codecs(base64: string -> string, quote: string -> string, codeChallenge: string -> string)

  /** The arguments of a POST to the token or revocation endpoint. */
  datatype TokenRequest = TokenRequest(headers: map<string, string>, data: map<string, string>, url: string)

  /** The fields of a token response body the code reads. */
  datatype TokenResponse = TokenResponse(accessToken: string, expiresIn: int, refreshToken: Option<string>)

  datatype TokenReply = TokenReply(status: int, body: TokenResponse)

  datatype SecurityError = AttributeError(message: string) | Api(api: Exceptions.ApiError)

  /** `token_identifier` of `update_token`: not passed, or passed with a value. */
  datatype IdentifierArg = Keep | Replace(id: Option<string>)

  /** `scope_list`: a list, or some other value and whether it is truthy
      (`None` is `OtherValue(false)`). */
  datatype ScopeArg = ScopeList(scopes: seq<string>) | OtherValue(truthy: bool)

  /** A Python string that is set and not empty. */
  predicate Truthy(s: Option<string>)
  {
    s.Some? && s.value != ""
  }

  function Join(parts: seq<string>, sep: string): string
  {
    if |parts| == 0 then ""
    else if |parts| == 1 then parts[0]
    else parts[0] + sep + Join(parts[1..], sep)
  }

  // ---- construction ----

  /** The error construction stops with, if any: an SSO endpoints URL that is
      `None` or empty, or neither a secret key nor a code verifier. */
  function ConfigError(ssoEndpointsUrl: Option<string>, secretKey: Option<string>, codeVerifier: Option<string>): (e: Option<SecurityError>)
    ensures e.None? <==> Truthy(ssoEndpointsUrl) && (secretKey.Some? || codeVerifier.Some?)
    ensures !Truthy(ssoEndpointsUrl) ==> e == Some(AttributeError("sso_endpoints_url cannot be None or empty"))
    ensures Truthy(ssoEndpointsUrl) && secretKey.None? && codeVerifier.None? ==>
      e == Some(AttributeError("Either secret_key or code_verifier must be filled"))
  {
    if ssoEndpointsUrl.None? || ssoEndpointsUrl.value == "" then
      Some(AttributeError("sso_endpoints_url cannot be None or empty"))
    else if secretKey.None? && codeVerifier.None? then
      Some(AttributeError("Either secret_key or code_verifier must be filled"))
    else None
  }

  /** The key map of a key set, key by key: a later key with the same id
      replaces an earlier one. */
  function KeyMap(keys: seq<Jwk>): (m: map<string, Jwk>)
  {
    if |keys| == 0 then map[] else KeyMap(keys[..|keys| - 1])[keys[|keys| - 1].kid := keys[|keys| - 1]]
  }

  /** `m` holds exactly the key ids of `keys`, each mapped to the last key
      carrying it. */
  ghost predicate LastWins(keys: seq<Jwk>, m: map<string, Jwk>)
  {
    (forall k :: k in m <==> exists i :: 0 <= i < |keys| && keys[i].kid == k) &&
    forall k :: k in m ==>
      (m[k].kid == k && exists i :: 0 <= i < |keys| && keys[i] == m[k] && forall j :: i < j < |keys| ==> keys[j].kid != k)
  }

  /** Adding one key to the map keeps `LastWins` for the longer set. */
  lemma LastWinsStep(front: seq<Jwk>, key: Jwk, m: map<string, Jwk>)
    requires LastWins(front, m)
    ensures LastWins(front + [key], m[key.kid := key])
  {
    var keys := front + [key];
    var m' := m[key.kid := key];
    forall k | k in m'
      ensures m'[k].kid == k &&
        exists i :: 0 <= i < |keys| && keys[i] == m'[k] && forall j :: i < j < |keys| ==> keys[j].kid != k
    {
      if k == key.kid {
        assert keys[|front|] == m'[k];
      } else {
        var i :| 0 <= i < |front| && front[i] == m[k] && forall j :: i < j < |front| ==> front[j].kid != k;
        assert keys[i] == m'[k];
      }
    }
    forall k | exists i :: 0 <= i < |keys| && keys[i].kid == k
      ensures k in m'
    {
      var i :| 0 <= i < |keys| && keys[i].kid == k;
      if i < |front| {
        assert front[i].kid == k;
      }
    }
  }

  /** Every key id of the set is in the map, and maps to the last key
      carrying it. */
  lemma {:induction false} KeyMapLastWins(keys: seq<Jwk>)
    ensures LastWins(keys, KeyMap(keys))
  {
    if |keys| > 0 {
      var front := keys[..|keys| - 1];
      KeyMapLastWins(front);
      LastWinsStep(front, keys[|keys| - 1], KeyMap(front));
      assert front + [keys[|keys| - 1]] == keys;
    }
  }

  /** The loop that builds the key map of a key set. */
  method KeySetOf(keys: seq<Jwk>) returns (m: map<string, Jwk>)
    ensures m == KeyMap(keys)
  {
    m := map[];
    var n := 0;
    while n < |keys|
      invariant 0 <= n <= |keys|
      invariant m == KeyMap(keys[..n])
    {
      assert keys[..n + 1][..n] == keys[..n];
      m := m[keys[n].kid := keys[n]];
      n := n + 1;
    }
    assert keys[..n] == keys;
  }

  // ---- the authorization URI ----

  /** The parameter names of the authorization URI. */
  datatype AuthKey = ResponseType | RedirectUri | ClientId | Scope | State | CodeChallengeMethod | CodeChallenge

  function KeyName(k: AuthKey): string
  {
    match k
    case ResponseType => "response_type"
    case RedirectUri => "redirect_uri"
    case ClientId => "client_id"
    case Scope => "scope"
    case State => "state"
    case CodeChallengeMethod => "code_challenge_method"
    case CodeChallenge => "code_challenge"
  }

  /** `k1=v1&k2=v2...` */
  function Query(pairs: seq<(AuthKey, string)>): string
  {
    if |pairs| == 0 then ""
    else if |pairs| == 1 then KeyName(pairs[0].0) + "=" + pairs[0].1
    else KeyName(pairs[0].0) + "=" + pairs[0].1 + "&" + Query(pairs[1..])
  }

  /** What the authorization URI carries: the grant type, the (quoted)
      redirect URI, the client id, the joined scopes if any, the state, and
      the S256 code challenge if any. */
  datatype AuthQuery = AuthQuery(responseType: string, redirectUri: string, clientId: string, scope: Option<string>,
                                 state: string, challenge: Option<string>)

  /** The parameters in the order the URI lists them. */
  function Encode(a: AuthQuery): seq<(AuthKey, string)>
  {
    [(ResponseType, a.responseType), (RedirectUri, a.redirectUri), (ClientId, a.clientId)] +
    (if a.scope.Some? then [(Scope, a.scope.value)] else []) +
    [(State, a.state)] +
    (if a.challenge.Some? then [(CodeChallengeMethod, "S256"), (CodeChallenge, a.challenge.value)] else [])
  }

  /** Reads a parameter list back: the three fixed parameters, an optional
      scope, the state, then either nothing or the S256 challenge pair. */
  function Decode(q: seq<(AuthKey, string)>): Option<AuthQuery>
  {
    if |q| < 4 || q[0].0 != ResponseType || q[1].0 != RedirectUri || q[2].0 != ClientId then None
    else
      var i := if q[3].0 == Scope then 4 else 3;
      var scope := if q[3].0 == Scope then Some(q[3].1) else None;
      if i >= |q| || q[i].0 != State then None
      else if |q| == i + 1 then Some(AuthQuery(q[0].1, q[1].1, q[2].1, scope, q[i].1, None))
      else if |q| == i + 3 && q[i + 1] == (CodeChallengeMethod, "S256") && q[i + 2].0 == CodeChallenge then
        Some(AuthQuery(q[0].1, q[1].1, q[2].1, scope, q[i].1, Some(q[i + 2].1)))
      else None
  }

  /** Every authorization query is read back from its parameters. */
  lemma DecodeEncode(a: AuthQuery)
    ensures Decode(Encode(a)) == Some(a)
  {
    var q := Encode(a);
    var head := [(ResponseType, a.responseType), (RedirectUri, a.redirectUri), (ClientId, a.clientId)];
    var tail: seq<(AuthKey, string)> :=
      if a.challenge.Some? then [(CodeChallengeMethod, "S256"), (CodeChallenge, a.challenge.value)] else [];
    if a.scope.Some? {
      assert q == head + [(Scope, a.scope.value), (State, a.state)] + tail;
    } else {
      assert q == head + [(State, a.state)] + tail;
    }
  }

  /** A parameter list that reads back is exactly the encoding of what it
      reads as: nothing else can be listed. */
  lemma EncodeDecode(q: seq<(AuthKey, string)>)
    requires Decode(q).Some?
    ensures Encode(Decode(q).value) == q
  {
    var a := Decode(q).value;
    var i := if q[3].0 == Scope then 4 else 3;
    var head := [(ResponseType, a.responseType), (RedirectUri, a.redirectUri), (ClientId, a.clientId)];
    var tail: seq<(AuthKey, string)> :=
      if a.challenge.Some? then [(CodeChallengeMethod, "S256"), (CodeChallenge, a.challenge.value)] else [];
    var mid: seq<(AuthKey, string)> := if a.scope.Some? then [(Scope, a.scope.value), (State, a.state)] else [(State, a.state)];
    assert q[..3] == head;
    if q[3].0 == Scope {
      assert q[3..i + 1] == [q[3], q[4]];
    } else {
      assert q[3..i + 1] == [q[3]];
    }
    assert q[3..i + 1] == mid;
    assert q[i + 1..] == tail;
    assert q == q[..3] + q[3..i + 1] + q[i + 1..];
  }

  /** A client that holds no secret proves its identity with PKCE, except in
      the implicit flow. */
  predicate Challenged(secretKey: Option<string>, implicit: bool)
  {
    secretKey.None? && !implicit
  }

  // ---- the token server ----

  /** The SSO server. It records the POSTs it receives; `reply(n, r)`
      answers the `n`-th. */
  class TokenServer {
    var posts: seq<TokenRequest>
    const reply: (nat, TokenRequest) -> TokenReply

    constructor (reply: (nat, TokenRequest) -> TokenReply)
      ensures posts == [] && this.reply == reply
    {
      posts := [];
      this.reply := reply;
    }

    method Post(r: TokenRequest) returns (res: TokenReply)
      modifies this
      ensures posts == old(posts) + [r]
      ensures res == reply(|old(posts)|, r)
    {
      res := reply(|posts|, r);
      posts := posts + [r];
    }
  }

  /** The revocation body: the refresh token when it is set, else the access
      token; nothing when neither is set. */
  function RevokeData(accessToken: Option<string>, refreshToken: Option<string>): (d: Option<map<string, string>>)
    ensures d.None? <==> !Truthy(accessToken) && !Truthy(refreshToken)
    ensures Truthy(refreshToken) ==>
      d == Some(map["token_type_hint" := "refresh_token", "token" := refreshToken.value])
    ensures !Truthy(refreshToken) && Truthy(accessToken) ==>
      d == Some(map["token_type_hint" := "access_token", "token" := accessToken.value])
  {
    if !Truthy(refreshToken) && !Truthy(accessToken) then None
    else if Truthy(refreshToken) then Some(map["token_type_hint" := "refresh_token", "token" := refreshToken.value])
    else Some(map["token_type_hint" := "access_token", "token" := accessToken.value])
  }

  /** `request` with `Authorization: Bearer <token>` when some security entry
      names `name` and there is a token; otherwise unchanged. */
  function Bearer(req: Request, name: string, token: Option<string>): Request
  {
    if (exists i :: 0 <= i < |req.security| && name in req.security[i]) && token.Some? then
      req.(header := req.header["Authorization" := "Bearer " + token.value])
    else req
  }

  /** The loop of `__call__` over the request's security entries. */
  method ApplyBearer(req: Request, name: string, token: Option<string>) returns (r: Request)
    ensures r == Bearer(req, name, token)
    ensures (exists i :: 0 <= i < |req.security| && name in req.security[i]) && token.Some? ==>
      r == req.(header := req.header["Authorization" := "Bearer " + token.value])
    ensures !(exists i :: 0 <= i < |req.security| && name in req.security[i]) || token.None? ==> r == req
  {
    r := req;
    var i := 0;
    while i < |req.security|
      invariant 0 <= i <= |req.security|
      invariant (exists j :: 0 <= j < i && name in req.security[j]) && token.Some? ==>
        r == req.(header := req.header["Authorization" := "Bearer " + token.value])
      invariant !(exists j :: 0 <= j < i && name in req.security[j]) || token.None? ==> r == req
    {
      if name in req.security[i] && token.Some? {
        r := r.(header := r.header["Authorization" := "Bearer " + token.value]);
      }
      i := i + 1;
    }
  }

  class EsiSecurity {
    const redirectUri: string
    const clientId: string
    const secretKey: Option<string>
    const codeVerifier: Option<string>
    const securityName: string
    const endpoints: SsoEndpoints
    const codecs: Codecs
    const server: TokenServer
    var jwksKeySet: Option<map<string, Jwk>>
    var jwksKey: Option<map<string, string>>
    var tokenIdentifier: Option<string>
    var accessToken: Option<string>
    var refreshToken: Option<string>
    var tokenExpiry: Option<int>

    /** Construction guarantees a way to authenticate to the token endpoint. */
    predicate Valid()
    {
      secretKey.Some? || codeVerifier.Some?
    }

    constructor (redirectUri: string, clientId: string, secretKey: Option<string>, codeVerifier: Option<string>,
                 securityName: string, endpoints: SsoEndpoints, codecs: Codecs, server: TokenServer,
                 tokenIdentifier: Option<string>)
      ensures this.redirectUri == redirectUri && this.clientId == clientId
      ensures this.secretKey == secretKey && this.codeVerifier == codeVerifier
      ensures this.securityName == securityName && this.endpoints == endpoints
      ensures this.codecs == codecs && this.server == server && this.tokenIdentifier == tokenIdentifier
      ensures jwksKeySet.None? && jwksKey.None?
      ensures accessToken.None? && refreshToken.None? && tokenExpiry.None?
    {
      this.redirectUri := redirectUri;
      this.clientId := clientId;
      this.secretKey := secretKey;
      this.codeVerifier := codeVerifier;
      this.securityName := securityName;
      this.endpoints := endpoints;
      this.codecs := codecs;
      this.server := server;
      this.tokenIdentifier := tokenIdentifier;
      jwksKeySet, jwksKey := None, None;
      accessToken, refreshToken, tokenExpiry := None, None, None;
    }

    /** `__init__` and `__get_jwks_key`: checks the arguments, then keeps the
        endpoints and the JWKS document (a key map, or the single key). The
        two documents are given, not fetched. */
    static method Create(redirectUri: string, clientId: string, secretKey: Option<string>, codeVerifier: Option<string>,
                         ssoEndpointsUrl: Option<string>, securityName: string, endpoints: SsoEndpoints, jwks: JwksDoc,
                         codecs: Codecs, server: TokenServer, tokenIdentifier: Option<string>)
      returns (r: Result<EsiSecurity, SecurityError>)
      ensures ConfigError(ssoEndpointsUrl, secretKey, codeVerifier).Some? ==>
        r == Failure(ConfigError(ssoEndpointsUrl, secretKey, codeVerifier).value)
      ensures ConfigError(ssoEndpointsUrl, secretKey, codeVerifier).None? ==>
        r.Success? && fresh(r.value) && r.value.Valid() &&
        r.value.redirectUri == redirectUri && r.value.clientId == clientId &&
        r.value.secretKey == secretKey && r.value.codeVerifier == codeVerifier &&
        r.value.securityName == securityName && r.value.endpoints == endpoints &&
        r.value.codecs == codecs && r.value.server == server && r.value.tokenIdentifier == tokenIdentifier &&
        r.value.accessToken.None? && r.value.refreshToken.None? && r.value.tokenExpiry.None? &&
        (jwks.KeySet? ==> r.value.jwksKeySet == Some(KeyMap(jwks.keys)) && r.value.jwksKey.None?) &&
        (jwks.SingleKey? ==> r.value.jwksKey == Some(jwks.material) && r.value.jwksKeySet.None?)
    {
      var err := ConfigError(ssoEndpointsUrl, secretKey, codeVerifier);
      if err.Some? {
        return Failure(err.value);
      }
      var s := new EsiSecurity(redirectUri, clientId, secretKey, codeVerifier, securityName, endpoints, codecs,
                               server, tokenIdentifier);
      if jwks.KeySet? {
        var m := KeySetOf(jwks.keys);
        s.jwksKeySet := Some(m);
      } else {
        s.jwksKey := Some(jwks.material);
      }
      r := Success(s);
    }

    /** `__get_basic_auth_header` */
    function BasicAuthHeader(): (h: map<string, string>)
      ensures secretKey.None? ==> h == map[]
      ensures secretKey.Some? ==>
        h == map["Authorization" := "Basic " + codecs.base64(clientId + ":" + secretKey.value)]
    {
      if secretKey.None? then map[]
      else map["Authorization" := "Basic " + codecs.base64(clientId + ":" + secretKey.value)]
    }

    /** `__prepare_token_request`: a client without a secret sends its code
        verifier and client id in the body instead of a Basic header. */
    function PrepareTokenRequest(params: map<string, string>, url: Option<string>): (r: TokenRequest)
      requires Valid()
      ensures r.headers == BasicAuthHeader()
      ensures r.url == if url.Some? then url.value else endpoints.token
      ensures secretKey.Some? ==> r.data == params
      ensures secretKey.None? ==>
        r.data.Keys == params.Keys + {"code_verifier", "client_id"} &&
        r.data["code_verifier"] == codeVerifier.value && r.data["client_id"] == clientId &&
        forall k :: k in params && k != "code_verifier" && k != "client_id" ==> r.data[k] == params[k]
    {
      var data := if secretKey.None? then params["code_verifier" := codeVerifier.value]["client_id" := clientId] else params;
      TokenRequest(BasicAuthHeader(), data, if url.Some? then url.value else endpoints.token)
    }

    /** The parameters `get_auth_uri` sends: `token` for the implicit flow,
        else `code`; the quoted redirect URI; the scopes joined with `+` only
        when there are some; and the code challenge only for a client that
        has no secret and does not use the implicit flow. */
    function AuthRequest(state: string, scopes: seq<string>, implicit: bool): (a: AuthQuery)
      requires Valid()
      ensures a.responseType == (if implicit then "token" else "code")
      ensures a.redirectUri == codecs.quote(redirectUri) && a.clientId == clientId && a.state == state
      ensures a.scope.Some? <==> |scopes| > 0
      ensures a.scope.Some? ==> a.scope.value == Join(scopes, "+")
      ensures a.challenge.Some? <==> Challenged(secretKey, implicit)
      ensures a.challenge.Some? ==> a.challenge.value == codecs.codeChallenge(codeVerifier.value)
    {
      AuthQuery(if implicit then "token" else "code", codecs.quote(redirectUri), clientId,
                if |scopes| > 0 then Some(Join(scopes, "+")) else None, state,
                if secretKey.None? && !implicit then Some(codecs.codeChallenge(codeVerifier.value)) else None)
    }

    /** `get_auth_uri` */
    function AuthUri(state: Option<string>, scopes: seq<string>, implicit: bool): (r: Result<string, SecurityError>)
      requires Valid()
      ensures !Truthy(state) ==> r == Failure(AttributeError("\"state\" must be non empty, non None string"))
      ensures Truthy(state) ==> r == Success(endpoints.authorize + "?" + Query(Encode(AuthRequest(state.value, scopes, implicit))))
    {
      if state.None? || state.value == "" then
        Failure(AttributeError("\"state\" must be non empty, non None string"))
      else
        Success(endpoints.authorize + "?" + Query(Encode(AuthRequest(state.value, scopes, implicit))))
    }

    /** `get_access_token_params` */
    function AccessTokenParams(code: string): (r: TokenRequest)
      requires Valid()
      ensures r.url == endpoints.token && r.headers == BasicAuthHeader()
      ensures "grant_type" in r.data && r.data["grant_type"] == "authorization_code"
      ensures "code" in r.data && r.data["code"] == code
      ensures ("code_verifier" in r.data) <==> secretKey.None?
    {
      PrepareTokenRequest(map["grant_type" := "authorization_code", "code" := code], None)
    }

    /** `get_refresh_token_params` */
    function RefreshTokenParams(scope: ScopeArg): (r: Result<TokenRequest, SecurityError>)
      requires Valid()
      reads this
      ensures refreshToken.None? ==> r == Failure(AttributeError("No refresh token is defined."))
      ensures refreshToken.Some? && scope.OtherValue? && scope.truthy ==>
        r == Failure(AttributeError("scope_list must be a list of scope."))
      ensures r.Success? ==>
        refreshToken.Some? && r.value.url == endpoints.token && r.value.headers == BasicAuthHeader() &&
        "grant_type" in r.value.data && r.value.data["grant_type"] == "refresh_token" &&
        "refresh_token" in r.value.data && r.value.data["refresh_token"] == refreshToken.value &&
        (("scope" in r.value.data) <==> scope.ScopeList? && |scope.scopes| > 0) &&
        (scope.ScopeList? && |scope.scopes| > 0 ==> r.value.data["scope"] == Join(scope.scopes, "+"))
      ensures refreshToken.Some? && !(scope.OtherValue? && scope.truthy) ==> r.Success?
    {
      if refreshToken.None? then Failure(AttributeError("No refresh token is defined."))
      else
        var params := map["grant_type" := "refresh_token", "refresh_token" := refreshToken.value];
        match scope
        case ScopeList(s) =>
          if |s| > 0 then Success(PrepareTokenRequest(params["scope" := Join(s, "+")], None))
          else Success(PrepareTokenRequest(params, None))
        case OtherValue(truthy) =>
          if truthy then Failure(AttributeError("scope_list must be a list of scope."))
          else Success(PrepareTokenRequest(params, None))
    }

    /** `is_token_expired(offset)` at time `now`: with no expiry the token
        counts as expired. */
    function IsTokenExpired(offset: int, now: int): (b: bool)
      reads this
      ensures tokenExpiry.None? ==> b
      ensures tokenExpiry.Some? ==> (b <==> now + offset >= tokenExpiry.value)
    {
      tokenExpiry.None? || now >= tokenExpiry.value - offset
    }

    /** `update_token` at time `now` */
    method UpdateToken(response: TokenResponse, identifier: IdentifierArg, now: int)
      modifies this
      ensures tokenIdentifier == if identifier.Keep? then old(tokenIdentifier) else identifier.id
      ensures accessToken == Some(response.accessToken)
      ensures tokenExpiry == Some(now + response.expiresIn)
      ensures refreshToken == if response.refreshToken.Some? then response.refreshToken else old(refreshToken)
      ensures jwksKeySet == old(jwksKeySet) && jwksKey == old(jwksKey)
    {
      if identifier.Replace? {
        tokenIdentifier := identifier.id;
      }
      accessToken := Some(response.accessToken);
      tokenExpiry := Some(now + response.expiresIn);
      if response.refreshToken.Some? {
        refreshToken := response.refreshToken;
      }
    }

    /** The tokens after a 200 reply at time `now`; the identifier and the
        keys are kept. */
    twostate predicate Updated(body: TokenResponse, now: int)
      reads this
    {
      accessToken == Some(body.accessToken) && tokenExpiry == Some(now + body.expiresIn) &&
      refreshToken == (if body.refreshToken.Some? then body.refreshToken else old(refreshToken)) &&
      tokenIdentifier == old(tokenIdentifier) && jwksKeySet == old(jwksKeySet) && jwksKey == old(jwksKey)
    }

    /** `refresh`: posts the refresh request and takes the new tokens; a
        reply other than 200 is an API error for the token URL. */
    method Refresh(scope: ScopeArg, now: int) returns (r: Result<TokenResponse, SecurityError>)
      requires Valid()
      modifies this, server
      ensures old(RefreshTokenParams(scope)).Failure? ==>
        r == Failure(old(RefreshTokenParams(scope)).error) && server.posts == old(server.posts) && unchanged(this)
      ensures old(RefreshTokenParams(scope)).Success? ==>
        var req := old(RefreshTokenParams(scope)).value;
        var reply := server.reply(|old(server.posts)|, req);
        server.posts == old(server.posts) + [req] &&
        (reply.status != 200 ==> r == Failure(Api(Exceptions.ApiError(req.url, reply.status, map[]))) &&
                                 unchanged(this)) &&
        (reply.status == 200 ==> r == Success(reply.body) && Updated(reply.body, now))
    {
      var params := RefreshTokenParams(scope);
      if params.Failure? {
        return Failure(params.error);
      }
      r := PostForToken(params.value, now);
    }

    /** `auth`: exchanges an authorization code for tokens. */
    method Auth(code: string, now: int) returns (r: Result<TokenResponse, SecurityError>)
      requires Valid()
      modifies this, server
      ensures var req := AccessTokenParams(code);
        var reply := server.reply(|old(server.posts)|, req);
        server.posts == old(server.posts) + [req] &&
        (reply.status != 200 ==> r == Failure(Api(Exceptions.ApiError(req.url, reply.status, map[]))) &&
                                 unchanged(this)) &&
        (reply.status == 200 ==> r == Success(reply.body) && Updated(reply.body, now))
    {
      r := PostForToken(AccessTokenParams(code), now);
    }

    /** The POST shared by `refresh` and `auth`. */
    method PostForToken(req: TokenRequest, now: int) returns (r: Result<TokenResponse, SecurityError>)
      modifies this, server
      ensures var reply := server.reply(|old(server.posts)|, req);
        server.posts == old(server.posts) + [req] &&
        (reply.status != 200 ==> r == Failure(Api(Exceptions.ApiError(req.url, reply.status, map[]))) &&
                                 unchanged(this)) &&
        (reply.status == 200 ==> r == Success(reply.body) && Updated(reply.body, now))
    {
      var res := server.Post(req);
      if res.status != 200 {
        return Failure(Api(Exceptions.ApiError(req.url, res.status, map[])));
      }
      UpdateToken(res.body, Keep, now);
      r := Success(res.body);
    }

    /** `revoke`: posts the revocation request and forgets every token. */
    method Revoke() returns (r: Result<(), SecurityError>)
      requires Valid()
      modifies this, server
      ensures old(RevokeData(accessToken, refreshToken)).None? ==>
        r == Failure(AttributeError("No access/refresh token are defined.")) && server.posts == old(server.posts) &&
        unchanged(this)
      ensures old(RevokeData(accessToken, refreshToken)).Some? ==>
        r.Success? && tokenIdentifier == old(tokenIdentifier) &&
        jwksKeySet == old(jwksKeySet) && jwksKey == old(jwksKey) &&
        server.posts == old(server.posts) +
          [PrepareTokenRequest(old(RevokeData(accessToken, refreshToken)).value, Some(endpoints.revoke))] &&
        accessToken.None? && refreshToken.None? && tokenExpiry.None?
    {
      var data := RevokeData(accessToken, refreshToken);
      if data.None? {
        return Failure(AttributeError("No access/refresh token are defined."));
      }
      var _ := server.Post(PrepareTokenRequest(data.value, Some(endpoints.revoke)));
      accessToken, refreshToken, tokenExpiry := None, None, None;
      r := Success(());
    }

    /** `__call__` at time `now`: a request without security passes
        unchanged; otherwise an expired token is refreshed first, and the
        Bearer header is added when an entry names this scheme. */
    method Call(req: Request, now: int) returns (r: Result<Request, SecurityError>)
      requires Valid()
      modifies this, server
      ensures |req.security| == 0 ==> r == Success(req) && server.posts == old(server.posts) && unchanged(this)
      ensures |req.security| > 0 && !old(IsTokenExpired(0, now)) ==>
        r == Success(Bearer(req, securityName, accessToken)) && server.posts == old(server.posts) && unchanged(this)
      ensures |req.security| > 0 && old(IsTokenExpired(0, now)) && old(RefreshTokenParams(OtherValue(false))).Failure? ==>
        r == Failure(old(RefreshTokenParams(OtherValue(false))).error) && server.posts == old(server.posts) &&
        unchanged(this)
      ensures |req.security| > 0 && old(IsTokenExpired(0, now)) && old(RefreshTokenParams(OtherValue(false))).Success? ==>
        var q := old(RefreshTokenParams(OtherValue(false))).value;
        var reply := server.reply(|old(server.posts)|, q);
        server.posts == old(server.posts) + [q] &&
        (reply.status != 200 ==> r == Failure(Api(Exceptions.ApiError(q.url, reply.status, map[]))) &&
                                 unchanged(this)) &&
        (reply.status == 200 ==> r == Success(Bearer(req, securityName, Some(reply.body.accessToken))) &&
                                 Updated(reply.body, now))
    {
      if |req.security| == 0 {
        return Success(req);
      }
      if IsTokenExpired(0, now) {
        var refreshed := Refresh(OtherValue(false), now);
        if refreshed.Failure? {
          return Failure(refreshed.error);
        }
      }
      var decorated := ApplyBearer(req, securityName, accessToken);
      r := Success(decorated);
    }
  }
}
