/**
 * The Azure AD authorization-code session layer (RFC 6749 section 4.1, with
 * `state` as the CSRF defence of section 10.12 and the refresh grant of
 * section 6). Each Express handler is a pure transition from the request and
 * the response under construction to a Step. The clock is `now`
 * (milliseconds) and random bytes are a supplied Draw.
 */
module AzureAd {
  import opened Wrappers
  import opened Errors
  import Hex
  import opened Cipher
  import Json
  import opened JsObject
  import opened Adal
  import opened Http
  import opened Url
  import opened SessionCrypto

  const AUTHORITY: string := "https://login.microsoftonline.com"
  const SESSION_KEY_PREFIX: string := "azuread"
  const COMMON: string := "common"

  const TENANT_COOKIE: string := "tenant"
  const RESOURCE_COOKIE: string := "resourceId"
  const NONCE_COOKIE: string := "nonce"
  const REDIRECT_COOKIE: string := "redirect"
  const TENANT_HEADER: string := "x-tenant"

  /** The nonce cookie lives for 60e3 milliseconds. */
  const NONCE_LIFETIME: int := 60000

  const GRAPH_RESOURCE: string := "00000002-0000-0000-c000-000000000000"

  const MISSING_CODE := Error(PlainError, "Missing AzureAD OAuth code in query")
  const STATE_MISMATCH := Error(PlainError, "AzureAD OAuth state does not match")

  /** How a guard answers when it has no token: browser redirect or 401 JSON. */
  datatype ResponseType = RedirectResponse | JsonResponse

  /** AzureAdOAuthOptions; `getAppPassword` lives in the token endpoint. */
  datatype Options = Options(appId: string, tenantId: string, authority: Option<string>)

  /** The foreign code the handlers call. */
  datatype Services = Services(
    cipher: BlockCipher,
    json: Json.Serializer<TokenResponse>,
    endpoint: TokenEndpoint,
    stringifyQuery: Object -> string)

  ghost predicate ServicesLawful(svc: Services) {
    Cipher.Lawful(svc.cipher) && Json.Lawful(svc.json)
  }

  type NonceBytes = b: Hex.Bytes | |b| == 32 witness seq(32, _ => 0)

  /** The random bytes one guard may draw: a nonce and key material for a refresh write. */
  datatype Draw = Draw(nonce: NonceBytes, km: KeyMaterial)

  /** `s.startsWith(p)`. */
  predicate StartsWith(s: string, p: string) {
    |p| <= |s| && s[..|p|] == p
  }

  // ---------------------------------------------------------------- tenant

  /** A header or cookie value pins a tenant when it is non-empty and not "common". */
  predicate Pins(v: Option<string>) {
    Truthy(v) && v.value != COMMON
  }

  /** `getTenantId(req, options)`: header, then cookie, then the configured tenant. */
  function TenantId(req: Request, options: Options): (r: string)
    ensures Pins(Lookup(req.headers, TENANT_HEADER)) ==> r == req.headers[TENANT_HEADER]
    ensures !Pins(Lookup(req.headers, TENANT_HEADER)) && Pins(Lookup(req.cookies, TENANT_COOKIE))
      ==> r == req.cookies[TENANT_COOKIE]
    ensures !Pins(Lookup(req.headers, TENANT_HEADER)) && !Pins(Lookup(req.cookies, TENANT_COOKIE))
      ==> r == options.tenantId
  {
    var header := Lookup(req.headers, TENANT_HEADER);
    var cookie := Lookup(req.cookies, TENANT_COOKIE);
    if Pins(header) then header.value
    else if Pins(cookie) then cookie.value
    else options.tenantId
  }

  /** Resolution only ever yields a pinned value or the configured tenant. */
  lemma TenantOrigin(req: Request, options: Options)
    ensures var t := TenantId(req, options);
      t == options.tenantId || (t != "" && t != COMMON
        && (Lookup(req.headers, TENANT_HEADER) == Some(t) || Lookup(req.cookies, TENANT_COOKIE) == Some(t)))
  {
  }

  /**
   * Without a header, a request whose tenant cookie holds a pinning tenant
   * resolves to it: the cookie the handlers set keeps later requests on the
   * same tenant.
   */
  lemma CookiePinsTenant(req: Request, options: Options, t: string)
    requires TENANT_HEADER !in req.headers
    requires Lookup(req.cookies, TENANT_COOKIE) == Some(t) && Pins(Some(t))
    ensures TenantId(req, options) == t
  {
  }

  // ---------------------------------------------------------------- cache keys

  /** `getSessionKey(resourceId, tenantId)`. */
  function SessionKey(resourceId: string, tenantId: string): (r: string)
    ensures StartsWith(r, SESSION_KEY_PREFIX + ":")
    ensures r[|SESSION_KEY_PREFIX| + 1..] == tenantId + ":" + resourceId
  {
    SESSION_KEY_PREFIX + ":" + tenantId + ":" + resourceId
  }

  /** In `t + ":" + r` with a colon-free `t`, the first colon sits at index |t|. */
  lemma FirstColon(t: string, r: string)
    requires ':' !in t
    ensures (t + ":" + r)[|t|] == ':'
    ensures forall i :: 0 <= i < |t| ==> (t + ":" + r)[i] != ':'
  {
    forall i | 0 <= i < |t| ensures (t + ":" + r)[i] != ':' {
      assert (t + ":" + r)[i] == t[i];
    }
  }

  /** A tenant id without a colon and a resource id determine the key and back. */
  lemma SessionKeyInjective(r1: string, t1: string, r2: string, t2: string)
    requires ':' !in t1 && ':' !in t2
    requires SessionKey(r1, t1) == SessionKey(r2, t2)
    ensures r1 == r2 && t1 == t2
  {
    var s1, s2 := t1 + ":" + r1, t2 + ":" + r2;
    assert s1 == s2 by {
      assert s1 == SessionKey(r1, t1)[|SESSION_KEY_PREFIX| + 1..];
    }
    FirstColon(t1, r1);
    FirstColon(t2, r2);
    assert |t1| == |t2|;
    assert t1 == s1[..|t1|] && t2 == s2[..|t2|];
    assert r1 == s1[|t1| + 1..] && r2 == s2[|t2| + 1..];
  }

  /**
   * `isTokenExpired(token)`: `new Date(token.expiresOn) <= new Date()`, with
   * both instants in milliseconds and the clock reading `now`.
   */
  function IsTokenExpired(token: TokenResponse, now: int): (r: bool)
    ensures r <==> token.expiresOn <= now
  {
    token.expiresOn <= now
  }

  /** Once expired, a token stays expired at every later instant. */
  lemma ExpiryMonotone(token: TokenResponse, now: int, later: int)
    requires now <= later
    ensures IsTokenExpired(token, now) ==> IsTokenExpired(token, later)
    ensures !IsTokenExpired(token, later) ==> !IsTokenExpired(token, now)
  {
  }

  // ---------------------------------------------------------------- authority and URL

  /** `getAuthorityForTenant(options)`. */
  function AuthorityForTenant(options: Options): (r: string)
    ensures Truthy(options.authority) ==> r == options.authority.value + "/" + options.tenantId
    ensures !Truthy(options.authority) ==> r == AUTHORITY + "/" + options.tenantId
  {
    Or(options.authority, AUTHORITY) + "/" + options.tenantId
  }

  /** The fields of the AccessTokenRequest the guard builds, in literal order. */
  datatype AuthorizeRequest = AuthorizeRequest(
    clientId: string,
    tenant: string,
    state: string,
    redirectUri: string,
    resource: string,
    loginHint: Option<string>)

  function Fields(request: AuthorizeRequest): seq<(string, Option<string>)> {
    [("client_id", Some(request.clientId)),
     ("tenant", Some(request.tenant)),
     ("state", Some(request.state)),
     ("redirect_uri", Some(request.redirectUri)),
     ("resource", Some(request.resource)),
     ("login_hint", request.loginHint)]
  }

  /** The value a field list gives `k`: its last defined occurrence. */
  function Given(fields: seq<(string, Option<string>)>, k: string): Option<string> {
    if fields == [] then None
    else
      var later := Given(fields[1..], k);
      if later.Some? then later
      else if fields[0].0 == k then fields[0].1
      else None
  }

  /**
   * Dropping the undefined fields and `Object.assign(o, fields)`: defined
   * fields overwrite, undefined ones leave `o` as it was.
   */
  function Assign(o: Object, fields: seq<(string, Option<string>)>): (r: Object)
    ensures forall k :: Get(r, k) == (if Given(fields, k).Some? then Given(fields, k) else Get(o, k))
    decreases |fields|
  {
    if fields == [] then o
    else
      var o' := if fields[0].1.Some? then Put(o, fields[0].0, fields[0].1.value) else o;
      Assign(o', fields[1..])
  }

  /** With field names distinct, a field list gives each named field its own value. */
  lemma {:induction false} GivenAt(fields: seq<(string, Option<string>)>, i: nat)
    requires i < |fields|
    requires forall j :: 0 <= j < |fields| && j != i ==> fields[j].0 != fields[i].0
    ensures Given(fields, fields[i].0) == fields[i].1
  {
    if i > 0 {
      GivenAt(fields[1..], i - 1);
    } else {
      GivenAbsent(fields[1..], fields[0].0);
    }
  }

  /** A name no field carries is not given. */
  lemma {:induction false} GivenAbsent(fields: seq<(string, Option<string>)>, k: string)
    requires forall j :: 0 <= j < |fields| ==> fields[j].0 != k
    ensures Given(fields, k) == None
  {
    if fields != [] {
      GivenAbsent(fields[1..], k);
    }
  }

  const DEFAULT_PARAMS: Object := [Entry("response_type", "code"), Entry("response_mode", "query")]

  /** The query object of `getAuthorizationUrl`. */
  function AuthorizationParams(request: AuthorizeRequest): Object {
    Assign(DEFAULT_PARAMS, Fields(request))
  }

  /** `getAuthorizationUrl(request, options)`. */
  function AuthorizationUrl(request: AuthorizeRequest, options: Options, svc: Services): (r: string)
    ensures StartsWith(r, AuthorityForTenant(options) + "/oauth2/authorize?")
    ensures r[|AuthorityForTenant(options) + "/oauth2/authorize?"|..] == svc.stringifyQuery(AuthorizationParams(request))
  {
    AuthorityForTenant(options) + "/oauth2/authorize?" + svc.stringifyQuery(AuthorizationParams(request))
  }

  /**
   * The query always asks for a code returned in the query string, carries
   * every given field with `state` equal to the nonce, and has no `login_hint`
   * when none is known.
   */
  lemma AuthorizationParamsContent(request: AuthorizeRequest)
    ensures var q := AuthorizationParams(request);
      && Get(q, "response_type") == Some("code")
      && Get(q, "response_mode") == Some("query")
      && Get(q, "client_id") == Some(request.clientId)
      && Get(q, "tenant") == Some(request.tenant)
      && Get(q, "state") == Some(request.state)
      && Get(q, "redirect_uri") == Some(request.redirectUri)
      && Get(q, "resource") == Some(request.resource)
      && Get(q, "login_hint") == request.loginHint
  {
    var f := Fields(request);
    GivenAbsent(f, "response_type");
    GivenAbsent(f, "response_mode");
    GivenAt(f, 0);
    GivenAt(f, 1);
    GivenAt(f, 2);
    GivenAt(f, 3);
    GivenAt(f, 4);
    GivenAt(f, 5);
  }

  // ---------------------------------------------------------------- token exchanges

  /** `acquireToken(code, redirect, tenantId, resourceId, options)`; the tenant argument is unused. */
  function AcquireToken(endpoint: TokenEndpoint, options: Options, code: string, redirectUri: string, resource: Option<string>): (r: Result<TokenResponse, Error>)
    ensures endpoint.appPassword.Err? ==> r == Err(endpoint.appPassword.error)
    ensures endpoint.appPassword.Ok? ==>
      r == endpoint.byCode(AuthorityForTenant(options), code, redirectUri, resource, options.appId, endpoint.appPassword.value)
  {
    var password :- endpoint.appPassword;
    endpoint.byCode(AuthorityForTenant(options), code, redirectUri, resource, options.appId, password)
  }

  /** `acquireTokenWithRefreshToken(token, options)`. */
  function AcquireTokenWithRefreshToken(endpoint: TokenEndpoint, options: Options, token: TokenResponse): (r: Result<TokenResponse, Error>)
    ensures endpoint.appPassword.Err? ==> r == Err(endpoint.appPassword.error)
    ensures endpoint.appPassword.Ok? ==>
      r == endpoint.byRefresh(AuthorityForTenant(options), token.refreshToken, options.appId, endpoint.appPassword.value, token.resourceId)
  {
    var password :- endpoint.appPassword;
    endpoint.byRefresh(AuthorityForTenant(options), token.refreshToken, options.appId, password, token.resourceId)
  }

  /** The cached token for a resource under the request's tenant. */
  function Cached(svc: Services, req: Request, options: Options, resourceId: string): (r: Read<Option<TokenResponse>>)
    ensures r.req == req.(session := Init(req.session))
    ensures r.value.Some? ==> Get(Entries(req.session), SessionKey(resourceId, TenantId(req, options))).Some?
    ensures r.value.Some? ==> CookieName(SessionKey(resourceId, TenantId(req, options))) in req.cookies
  {
    Load(svc.cipher, svc.json, req, SessionKey(resourceId, TenantId(req, options)))
  }

  // ---------------------------------------------------------------- refresh

  /**
   * `refreshAzureAdToken(resourceId, options)`: when the cached token has
   * expired, exchange its refresh token and overwrite the same entry.
   */
  function Refresh(resourceId: string, options: Options, svc: Services, ex: Exchange, now: int, km: KeyMaterial): (r: Step)
    ensures r.outcome.Next? || r.outcome.NextErr?
    ensures r.ex.res.locals == ex.res.locals
    ensures r.ex.req == ex.req.(session := r.ex.req.session, cookies := r.ex.req.cookies)
  {
    var key := SessionKey(resourceId, TenantId(ex.req, options));
    var read := Load(svc.cipher, svc.json, ex.req, key);
    var ex1 := ex.(req := read.req);
    if read.value.Some? && IsTokenExpired(read.value.value, now) then
      match AcquireTokenWithRefreshToken(svc.endpoint, options, read.value.value)
      case Err(e) => Step(ex1, NextErr(e))
      case Ok(refreshed) => Step(Store(svc.cipher, svc.json, ex1, key, refreshed, km), Next)
    else Step(ex1, Next)
  }

  // ---------------------------------------------------------------- guard

  /** The guard's hit branch: pin the tenant cookie if needed and attach the token. */
  function Attach(ex: Exchange, resourceId: string, tenant: string, token: TokenResponse): (r: Exchange)
    ensures r.req == ex.req
    ensures r.res.locals == Locals(ex.res.locals.azureAd[resourceId := token], token.userId)
  {
    var ex1 :=
      if tenant != COMMON && Some(tenant) != Lookup(ex.req.cookies, TENANT_COOKIE)
      then AddCookie(ex, SetCookie(TENANT_COOKIE, tenant, PlainCookie))
      else ex;
    ex1.(res := ex1.res.(locals := Locals(ex1.res.locals.azureAd[resourceId := token], token.userId)))
  }

  /** `getAzureAdToken(res, resourceId)`: the token a guard attached, if any. */
  function GetToken(res: Response, resourceId: string): (r: Option<TokenResponse>)
    ensures r.Some? <==> resourceId in res.locals.azureAd
    ensures r.Some? ==> r.value == res.locals.azureAd[resourceId]
  {
    if resourceId in res.locals.azureAd then Some(res.locals.azureAd[resourceId]) else None
  }

  /** What a guard attaches is what later handlers read. */
  lemma AttachThenGet(ex: Exchange, resourceId: string, tenant: string, token: TokenResponse, other: string)
    ensures GetToken(Attach(ex, resourceId, tenant, token).res, resourceId) == Some(token)
    ensures other != resourceId ==> GetToken(Attach(ex, resourceId, tenant, token).res, other) == GetToken(ex.res, other)
  {
  }

  /** The nonce of a challenge: the existing cookie if non-empty, else the fresh draw. */
  function Nonce(req: Request, draw: Draw): (r: string)
    ensures Truthy(Lookup(req.cookies, NONCE_COOKIE)) ==> r == req.cookies[NONCE_COOKIE]
    ensures !Truthy(Lookup(req.cookies, NONCE_COOKIE)) ==> r == Hex.Encode(draw.nonce) && |r| == 64
    ensures r != ""
  {
    Or(Lookup(req.cookies, NONCE_COOKIE), Hex.Encode(draw.nonce))
  }

  /** The authorization request of a challenge. */
  function LoginRequest(ex: Exchange, options: Options, tenant: string, resourceId: string, nonce: string): (r: AuthorizeRequest)
    ensures r.clientId == options.appId && r.tenant == tenant && r.resource == resourceId
    ensures r.state == nonce
    ensures r.redirectUri == GetUrl(ex.req, ex.req.baseUrl + "/accept")
    ensures r.loginHint == ex.res.locals.userId
  {
    AuthorizeRequest(options.appId, tenant, nonce, GetUrl(ex.req, ex.req.baseUrl + "/accept"), resourceId, ex.res.locals.userId)
  }

  /** The cookies a challenge sets, in order. */
  function ChallengeCookies(req: Request, tenant: string, resourceId: string, nonce: string, now: int): (r: seq<CookieAction>)
    ensures |r| == if tenant == COMMON then 3 else 4
    ensures r[0] == SetCookie(NONCE_COOKIE, nonce, CookieOptions(false, Some(now + NONCE_LIFETIME)))
    ensures r[1] == SetCookie(RESOURCE_COOKIE, resourceId, PlainCookie)
    ensures r[2] == SetCookie(REDIRECT_COOKIE, GetUrl(req, req.originalUrl), PlainCookie)
    ensures tenant != COMMON ==> r[3] == SetCookie(TENANT_COOKIE, tenant, PlainCookie)
  {
    [SetCookie(NONCE_COOKIE, nonce, CookieOptions(false, Some(now + NONCE_LIFETIME))),
     SetCookie(RESOURCE_COOKIE, resourceId, PlainCookie),
     SetCookie(REDIRECT_COOKIE, GetUrl(req, req.originalUrl), PlainCookie)]
    + (if tenant != COMMON then [SetCookie(TENANT_COOKIE, tenant, PlainCookie)] else [])
  }

  /** The guard's miss branch: issue the CSRF challenge and send the browser to log in. */
  function Challenge(ex: Exchange, resourceId: string, tenant: string, options: Options, mode: ResponseType, svc: Services, now: int, draw: Draw): (r: Step)
    ensures r.ex.req == ex.req && r.ex.res.locals == ex.res.locals
    ensures r.outcome.Redirect? <==> mode == RedirectResponse
    ensures r.outcome.Respond? <==> mode == JsonResponse
  {
    var nonce := Nonce(ex.req, draw);
    var login := AuthorizationUrl(LoginRequest(ex, options, tenant, resourceId, nonce), options, svc);
    var ex1 := ex.(res := ex.res.(cookies := ex.res.cookies + ChallengeCookies(ex.req, tenant, resourceId, nonce, now)));
    match mode
    case RedirectResponse => Step(ex1, Redirect(login))
    case JsonResponse => Step(ex1, Respond(401, LoginLink(GetUrl(ex.req, "/login"))))
  }

  /** `authenticateAzureAd(resourceId, options, type)`: refresh, then look up the token. */
  function Authenticate(resourceId: string, options: Options, mode: ResponseType, svc: Services, ex: Exchange, now: int, draw: Draw): (r: Step)
    ensures r.outcome.Next? ==> GetToken(r.ex.res, resourceId).Some?
    ensures r.outcome.Next? ==> r.ex.res.locals.userId == GetToken(r.ex.res, resourceId).value.userId
    ensures ex.res.locals.azureAd.Keys <= r.ex.res.locals.azureAd.Keys
    ensures r.ex.req == ex.req.(session := r.ex.req.session, cookies := r.ex.req.cookies)
    ensures r.outcome.Redirect? ==> mode == RedirectResponse
    ensures r.outcome.Respond? ==> mode == JsonResponse && r.outcome.status == 401
  {
    var refreshed := Refresh(resourceId, options, svc, ex, now, draw.km);
    if refreshed.outcome.NextErr? then refreshed
    else
      var ex1 := refreshed.ex;
      var tenant := TenantId(ex1.req, options);
      var read := Load(svc.cipher, svc.json, ex1.req, SessionKey(resourceId, tenant));
      var ex2 := ex1.(req := read.req);
      match read.value
      case Some(token) => Step(Attach(ex2, resourceId, tenant, token), Next)
      case None => Challenge(ex2, resourceId, tenant, options, mode, svc, now, draw)
  }

  /** A chain of guards, one per resource, each drawing its own random bytes. */
  function Guards(resourceIds: seq<string>, options: Options, mode: ResponseType, svc: Services, ex: Exchange, now: int, draws: seq<Draw>): (r: Step)
    requires |draws| == |resourceIds|
    ensures resourceIds == [] ==> r == Step(ex, Next)
    ensures r.outcome.Next? ==> forall id :: id in resourceIds ==> id in r.ex.res.locals.azureAd
    ensures ex.res.locals.azureAd.Keys <= r.ex.res.locals.azureAd.Keys
    ensures r.ex.req == ex.req.(session := r.ex.req.session, cookies := r.ex.req.cookies)
    ensures r.outcome.Redirect? ==> mode == RedirectResponse
    ensures r.outcome.Respond? ==> mode == JsonResponse && r.outcome.status == 401
    decreases |resourceIds|
  {
    if resourceIds == [] then Step(ex, Next)
    else
      var first := Authenticate(resourceIds[0], options, mode, svc, ex, now, draws[0]);
      if first.outcome.Next? then
        var rest := Guards(resourceIds[1..], options, mode, svc, first.ex, now, draws[1..]);
        assert resourceIds[0] in first.ex.res.locals.azureAd.Keys;
        assert forall id :: id in resourceIds ==> id == resourceIds[0] || id in resourceIds[1..];
        rest
      else first
  }

  // ---------------------------------------------------------------- callback and login

  /** `acceptAzureAdToken(options)`: the redirect URI of the authorization-code grant. */
  function Accept(options: Options, svc: Services, ex: Exchange, km: KeyMaterial): (r: Step)
    ensures Truthy(Lookup(ex.req.query, "error")) ==> r == Step(ex, Respond(500, QueryEcho(ex.req.query)))
    ensures !Truthy(Lookup(ex.req.query, "error")) && !Truthy(Lookup(ex.req.query, "code"))
      ==> r == Step(ex, NextErr(MISSING_CODE))
    ensures !Truthy(Lookup(ex.req.query, "error")) && Truthy(Lookup(ex.req.query, "code"))
      && Lookup(ex.req.query, "state") != Lookup(ex.req.cookies, NONCE_COOKIE)
      ==> r == Step(ex, NextErr(STATE_MISMATCH))
    ensures !r.outcome.Next? ==> r.ex == ex
  {
    var query := ex.req.query;
    var code := Lookup(query, "code");
    var resource := Lookup(ex.req.cookies, RESOURCE_COOKIE);
    var redirectUri := GetUrl(ex.req, ex.req.baseUrl + "/accept");
    if Truthy(Lookup(query, "error")) then Step(ex, Respond(500, QueryEcho(query)))
    else if !Truthy(code) then Step(ex, NextErr(MISSING_CODE))
    else if Lookup(query, "state") != Lookup(ex.req.cookies, NONCE_COOKIE) then Step(ex, NextErr(STATE_MISMATCH))
    else
      match AcquireToken(svc.endpoint, options, code.value, redirectUri, resource)
      case Err(e) => Step(ex, NextErr(e))
      case Ok(token) =>
        var ex1 := Store(svc.cipher, svc.json, ex, SessionKey(Interpolate(resource), token.tenantId), token, km);
        var ex2 := AddCookie(ex1, SetCookie(TENANT_COOKIE, token.tenantId, PlainCookie));
        var ex3 := AddCookie(AddCookie(ex2, ClearCookie(NONCE_COOKIE)), ClearCookie(RESOURCE_COOKIE));
        Step(ex3, Next)
  }

  /** `tokensAccepted`: back to where the login started, or to "/". */
  function TokensAccepted(ex: Exchange): (r: Step)
    ensures r.ex == AddCookie(ex, ClearCookie(REDIRECT_COOKIE))
    ensures Truthy(Lookup(ex.req.cookies, REDIRECT_COOKIE)) ==> r.outcome == Redirect(ex.req.cookies[REDIRECT_COOKIE])
    ensures !Truthy(Lookup(ex.req.cookies, REDIRECT_COOKIE)) ==> r.outcome == Redirect("/")
  {
    Step(AddCookie(ex, ClearCookie(REDIRECT_COOKIE)), Redirect(Or(Lookup(ex.req.cookies, REDIRECT_COOKIE), "/")))
  }

  /** `GET /accept`: the callback followed by `tokensAccepted`. */
  function AcceptRoute(options: Options, svc: Services, ex: Exchange, km: KeyMaterial): (r: Step)
    ensures !r.outcome.Next?
    ensures !Accept(options, svc, ex, km).outcome.Next? ==> r == Accept(options, svc, ex, km)
    ensures Accept(options, svc, ex, km).outcome.Next? ==>
      r.outcome.Redirect? && r.ex == AddCookie(Accept(options, svc, ex, km).ex, ClearCookie(REDIRECT_COOKIE))
  {
    var accepted := Accept(options, svc, ex, km);
    if accepted.outcome.Next? then TokensAccepted(accepted.ex) else accepted
  }

  /** `login`: reached only once every guard passed. */
  function Login(ex: Exchange): (r: Step)
    ensures r.ex == ex
    ensures Truthy(Lookup(ex.req.query, "redirect")) ==> r.outcome == Redirect(ex.req.query["redirect"])
    ensures !Truthy(Lookup(ex.req.query, "redirect")) ==> r.outcome == Respond(200, Text("Logged in"))
  {
    var target := Lookup(ex.req.query, "redirect");
    if Truthy(target) then Step(ex, Redirect(target.value)) else Step(ex, Respond(200, Text("Logged in")))
  }

  /** `GET /login`: the guards in redirect mode, then `login`. */
  function LoginRoute(resourceIds: seq<string>, options: Options, svc: Services, ex: Exchange, now: int, draws: seq<Draw>): (r: Step)
    requires |draws| == |resourceIds|
    ensures !r.outcome.Next?
    ensures r.outcome.Respond? ==> r.outcome == Respond(200, Text("Logged in"))
    ensures !Guards(resourceIds, options, RedirectResponse, svc, ex, now, draws).outcome.Next?
      ==> r == Guards(resourceIds, options, RedirectResponse, svc, ex, now, draws)
  {
    var guarded := Guards(resourceIds, options, RedirectResponse, svc, ex, now, draws);
    if guarded.outcome.Next? then Login(guarded.ex) else guarded
  }

  // ---------------------------------------------------------------- logout

  /** The listed ids that start with the namespace prefix, in order. */
  function Namespaced(ids: seq<string>): (r: seq<string>)
    ensures forall k :: k in r <==> k in ids && StartsWith(k, SESSION_KEY_PREFIX)
    ensures |ids| == 1 ==> r == (if StartsWith(ids[0], SESSION_KEY_PREFIX) then ids else [])
  {
    if ids == [] then []
    else (if StartsWith(ids[0], SESSION_KEY_PREFIX) then [ids[0]] else []) + Namespaced(ids[1..])
  }

  /** Filtering distributes over concatenation: the kept ids stay in list order. */
  lemma {:induction false} NamespacedAppend(a: seq<string>, b: seq<string>)
    ensures Namespaced(a + b) == Namespaced(a) + Namespaced(b)
    decreases |a|
  {
    if a == [] {
      assert a + b == b;
    } else {
      assert (a + b)[0] == a[0] && (a + b)[1..] == a[1..] + b;
      NamespacedAppend(a[1..], b);
    }
  }

  /** The key-cookie clears of removing each id in turn. */
  function ClearKeyCookies(ids: seq<string>): (r: seq<CookieAction>)
  {
    if ids == [] then [] else [ClearCookie(CookieName(ids[0]))] + ClearKeyCookies(ids[1..])
  }

  /** `ids.forEach(id => removeSessionData(req, res, id))`. */
  function RemoveEach(ex: Exchange, ids: seq<string>): (r: Exchange)
    ensures r.req == ex.req.(session := r.req.session)
    ensures r.res == ex.res.(cookies := ex.res.cookies + ClearKeyCookies(ids))
    decreases |ids|
  {
    if ids == [] then ex
    else
      var first := Remove(ex, ids[0]);
      var r := RemoveEach(first, ids[1..]);
      assert ClearKeyCookies(ids) == [ClearCookie(CookieName(ids[0]))] + ClearKeyCookies(ids[1..]);
      assert first.res.cookies == ex.res.cookies + [ClearCookie(CookieName(ids[0]))];
      assert r.res.cookies == first.res.cookies + ClearKeyCookies(ids[1..]);
      r
  }

  /** Removing each listed id deletes exactly those entries and keeps the record well formed. */
  lemma {:induction false} RemoveEachEntries(ex: Exchange, ids: seq<string>)
    ensures forall k :: Get(Entries(RemoveEach(ex, ids).req.session), k)
                     == (if k in ids then None else Get(Entries(ex.req.session), k))
    ensures WellFormed(ex.req.session) ==> WellFormed(RemoveEach(ex, ids).req.session)
    ensures ex.req.session.encrypted.Some? ==> RemoveEach(ex, ids).req.session.encrypted.Some?
    ensures ids == [] ==> RemoveEach(ex, ids) == ex
    decreases |ids|
  {
    if ids != [] {
      RemoveEachEntries(Remove(ex, ids[0]), ids[1..]);
    }
  }

  /** `logoutAzureAd`. */
  function Logout(ex: Exchange): (r: Step)
    ensures r.outcome == Respond(200, Text("You are now logged out"))
    ensures r.ex.res.locals == ex.res.locals
  {
    var listed := ListEncrypted(ex.req);
    var removed := RemoveEach(ex.(req := listed.req), Namespaced(listed.value));
    Step(AddCookie(removed, ClearCookie(TENANT_COOKIE)), Respond(200, Text("You are now logged out")))
  }
}
