/**
 * Properties of the Azure AD session layer that relate several handlers or
 * several requests: what a guard does on a hit and on a miss, refresh
 * followed by lookup, the callback's storage, logout, chains of guards and
 * the whole challenge, callback, retry round.
 */
module AzureAdFlow {
  import opened Wrappers
  import Hex
  import opened Cipher
  import Json
  import opened JsObject
  import opened Adal
  import opened Http
  import opened Url
  import opened SessionCrypto
  import opened AzureAd

  /** A cached token is present for the resource and has not expired. */
  predicate Fresh(svc: Services, req: Request, options: Options, resourceId: string, now: int) {
    var t := Cached(svc, req, options, resourceId).value;
    t.Some? && !IsTokenExpired(t.value, now)
  }

  // ---------------------------------------------------------------- helpers

  /** The fixed cookie names of the flow are never key cookies. */
  lemma NotKeyCookie(id: string)
    ensures CookieName(id) != TENANT_COOKIE
    ensures CookieName(id) != NONCE_COOKIE
    ensures CookieName(id) != RESOURCE_COOKIE
    ensures CookieName(id) != REDIRECT_COOKIE
  {
    var n := CookieName(id);
    assert n[|n| - 4..] == ".key";
  }

  /** Requests that agree on headers, cookies and entries read the same cached tokens. */
  lemma CachedCongruent(svc: Services, a: Request, b: Request, options: Options, resourceId: string)
    requires a.headers == b.headers && a.cookies == b.cookies
    requires Entries(a.session) == Entries(b.session)
    ensures TenantId(a, options) == TenantId(b, options)
    ensures Cached(svc, a, options, resourceId).value == Cached(svc, b, options, resourceId).value
  {
    LoadCongruent(svc.cipher, svc.json, a, b, SessionKey(resourceId, TenantId(a, options)));
  }

  /** Writing the session store never changes which tenant a request resolves to. */
  lemma StoreKeepsTenant(svc: Services, ex: Exchange, id: string, token: TokenResponse, km: KeyMaterial, options: Options)
    ensures TenantId(Store(svc.cipher, svc.json, ex, id, token, km).req, options) == TenantId(ex.req, options)
  {
    NotKeyCookie(id);
    var req := Store(svc.cipher, svc.json, ex, id, token, km).req;
    assert Lookup(req.cookies, TENANT_COOKIE) == Lookup(ex.req.cookies, TENANT_COOKIE);
  }

  // ---------------------------------------------------------------- refresh

  /** Without an expired cached token, refresh only initialises the store and calls next(). */
  lemma RefreshSkipped(resourceId: string, options: Options, svc: Services, ex: Exchange, now: int, km: KeyMaterial)
    requires !(Cached(svc, ex.req, options, resourceId).value.Some?
               && IsTokenExpired(Cached(svc, ex.req, options, resourceId).value.value, now))
    ensures Refresh(resourceId, options, svc, ex, now, km)
         == Step(ex.(req := ex.req.(session := Init(ex.req.session))), Next)
  {
  }

  /** A failed refresh exchange is passed to next(err) and writes nothing. */
  lemma RefreshFails(resourceId: string, options: Options, mode: ResponseType, svc: Services, ex: Exchange, now: int, draw: Draw, token: TokenResponse)
    requires Cached(svc, ex.req, options, resourceId).value == Some(token)
    requires IsTokenExpired(token, now)
    requires AcquireTokenWithRefreshToken(svc.endpoint, options, token).Err?
    ensures var r := Authenticate(resourceId, options, mode, svc, ex, now, draw);
      && r.outcome == NextErr(AcquireTokenWithRefreshToken(svc.endpoint, options, token).error)
      && r.ex == ex.(req := ex.req.(session := Init(ex.req.session)))
  {
  }

  /**
   * An expired token is refreshed and written back under the same key, and
   * no other entry changes; the refresh step calls next().
   */
  lemma RefreshWritesBack(resourceId: string, options: Options, svc: Services, ex: Exchange, now: int, km: KeyMaterial,
                          token: TokenResponse, refreshed: TokenResponse)
    requires ServicesLawful(svc)
    requires Cached(svc, ex.req, options, resourceId).value == Some(token)
    requires IsTokenExpired(token, now)
    requires AcquireTokenWithRefreshToken(svc.endpoint, options, token) == Ok(refreshed)
    ensures var r := Refresh(resourceId, options, svc, ex, now, km);
      var key := SessionKey(resourceId, TenantId(ex.req, options));
      && r.outcome == Next
      && Load(svc.cipher, svc.json, r.ex.req, key).value == Some(refreshed)
      && (forall k :: k != key ==> Get(Entries(r.ex.req.session), k) == Get(Entries(ex.req.session), k))
  {
    var key := SessionKey(resourceId, TenantId(ex.req, options));
    var ex1 := ex.(req := Load(svc.cipher, svc.json, ex.req, key).req);
    var stored := Store(svc.cipher, svc.json, ex1, key, refreshed, km);
    assert Refresh(resourceId, options, svc, ex, now, km) == Step(stored, Next);
    StoreThenLoad(svc.cipher, svc.json, ex1, key, refreshed, km);
  }

  /**
   * An expired token is refreshed, written back under the same key with no
   * other entry changed, and the same request's lookup then finds and
   * attaches the refreshed token.
   */
  lemma RefreshThenHit(resourceId: string, options: Options, mode: ResponseType, svc: Services, ex: Exchange, now: int, draw: Draw, token: TokenResponse, refreshed: TokenResponse)
    requires ServicesLawful(svc)
    requires Cached(svc, ex.req, options, resourceId).value == Some(token)
    requires IsTokenExpired(token, now)
    requires AcquireTokenWithRefreshToken(svc.endpoint, options, token) == Ok(refreshed)
    ensures var r := Authenticate(resourceId, options, mode, svc, ex, now, draw);
      && r.outcome == Next
      && r.ex.res.locals.azureAd == ex.res.locals.azureAd[resourceId := refreshed]
      && r.ex.res.locals.userId == refreshed.userId
    ensures var r := Authenticate(resourceId, options, mode, svc, ex, now, draw);
      var key := SessionKey(resourceId, TenantId(ex.req, options));
      && Load(svc.cipher, svc.json, r.ex.req, key).value == Some(refreshed)
      && (forall k :: k != key ==> Get(Entries(r.ex.req.session), k) == Get(Entries(ex.req.session), k))
  {
    var tenant := TenantId(ex.req, options);
    var key := SessionKey(resourceId, tenant);
    var ex1 := ex.(req := Load(svc.cipher, svc.json, ex.req, key).req);
    var stored := Store(svc.cipher, svc.json, ex1, key, refreshed, draw.km);
    assert Refresh(resourceId, options, svc, ex, now, draw.km) == Step(stored, Next);
    StoreKeepsTenant(svc, ex1, key, refreshed, draw.km, options);
    StoreThenLoad(svc.cipher, svc.json, ex1, key, refreshed, draw.km);
  }

  // ---------------------------------------------------------------- guard

  /**
   * Guard hit: next() without error, exactly the cached token attached, the
   * user id taken from it, and no cookie but the tenant pin, which is set only
   * for a specific tenant the cookie does not already hold.
   */
  lemma GuardHit(resourceId: string, options: Options, mode: ResponseType, svc: Services, ex: Exchange, now: int, draw: Draw, token: TokenResponse)
    requires Cached(svc, ex.req, options, resourceId).value == Some(token)
    requires !IsTokenExpired(token, now)
    ensures var r := Authenticate(resourceId, options, mode, svc, ex, now, draw);
      var tenant := TenantId(ex.req, options);
      && r.outcome == Next
      && r.ex.req == ex.req.(session := Init(ex.req.session))
      && r.ex.res.locals == Locals(ex.res.locals.azureAd[resourceId := token], token.userId)
      && r.ex.res.cookies == ex.res.cookies
           + (if tenant != COMMON && Lookup(ex.req.cookies, TENANT_COOKIE) != Some(tenant)
              then [SetCookie(TENANT_COOKIE, tenant, PlainCookie)] else [])
  {
    RefreshSkipped(resourceId, options, svc, ex, now, draw.km);
    var req1 := ex.req.(session := Init(ex.req.session));
    CachedCongruent(svc, req1, ex.req, options, resourceId);
  }

  /**
   * Guard miss: next() is not called; the challenge cookies are set with the
   * reused or fresh nonce, and the answer is the authorization redirect or a
   * 401 carrying the login URL. Nothing is written to the session.
   */
  lemma GuardMiss(resourceId: string, options: Options, mode: ResponseType, svc: Services, ex: Exchange, now: int, draw: Draw)
    requires Cached(svc, ex.req, options, resourceId).value.None?
    ensures var r := Authenticate(resourceId, options, mode, svc, ex, now, draw);
      var tenant := TenantId(ex.req, options);
      var nonce := Nonce(ex.req, draw);
      && r.ex.req == ex.req.(session := Init(ex.req.session))
      && r.ex.res.locals == ex.res.locals
      && r.ex.res.cookies == ex.res.cookies + ChallengeCookies(ex.req, tenant, resourceId, nonce, now)
      && r.outcome == (match mode
           case RedirectResponse => Redirect(AuthorizationUrl(LoginRequest(ex, options, tenant, resourceId, nonce), options, svc))
           case JsonResponse => Respond(401, LoginLink(GetUrl(ex.req, "/login"))))
  {
    RefreshSkipped(resourceId, options, svc, ex, now, draw.km);
    var req1 := ex.req.(session := Init(ex.req.session));
    CachedCongruent(svc, req1, ex.req, options, resourceId);
    assert GetUrl(req1, req1.baseUrl + "/accept") == GetUrl(ex.req, ex.req.baseUrl + "/accept");
    assert GetUrl(req1, req1.originalUrl) == GetUrl(ex.req, ex.req.originalUrl);
  }

  /**
   * On a miss in redirect mode the guard sends the browser to the tenant
   * authority's authorize endpoint with a query that asks for a code returned
   * in the query string, for this app, tenant and resource, with the nonce as
   * state, the `/accept` URL as redirect URI and the signed-in user, if any,
   * as login hint.
   */
  lemma MissRedirectQuery(resourceId: string, options: Options, svc: Services, ex: Exchange, now: int, draw: Draw)
    requires Cached(svc, ex.req, options, resourceId).value.None?
    ensures var tenant := TenantId(ex.req, options);
      var nonce := Nonce(ex.req, draw);
      var q := AuthorizationParams(LoginRequest(ex, options, tenant, resourceId, nonce));
      && Authenticate(resourceId, options, RedirectResponse, svc, ex, now, draw).outcome
           == Redirect(AuthorityForTenant(options) + "/oauth2/authorize?" + svc.stringifyQuery(q))
      && Get(q, "response_type") == Some("code")
      && Get(q, "response_mode") == Some("query")
      && Get(q, "client_id") == Some(options.appId)
      && Get(q, "tenant") == Some(tenant)
      && Get(q, "resource") == Some(resourceId)
      && Get(q, "state") == Some(nonce)
      && Get(q, "redirect_uri") == Some(GetUrl(ex.req, ex.req.baseUrl + "/accept"))
      && Get(q, "login_hint") == ex.res.locals.userId
  {
    var tenant := TenantId(ex.req, options);
    GuardMiss(resourceId, options, RedirectResponse, svc, ex, now, draw);
    AuthorizationParamsContent(LoginRequest(ex, options, tenant, resourceId, Nonce(ex.req, draw)));
  }

  /**
   * A second challenge while the browser still holds the nonce cookie reuses
   * that nonce, whatever it draws, so the state of the first authorize
   * redirect still matches at the callback.
   */
  lemma NonceReused(req: Request, tenant: string, resourceId: string, draw: Draw, now: int, req2: Request, draw2: Draw)
    requires req2.cookies == Jar(req.cookies, ChallengeCookies(req, tenant, resourceId, Nonce(req, draw), now))
    ensures Nonce(req2, draw2) == Nonce(req, draw)
  {
    ChallengeJar(req.cookies, req, tenant, resourceId, Nonce(req, draw), now);
  }

  /**
   * After a challenge the browser holds the nonce (expiring 60 seconds from
   * now), the pending resource and the original URL, and the tenant cookie
   * exactly when the tenant is a specific one.
   */
  lemma ChallengeJar(jar: map<string, string>, req: Request, tenant: string, resourceId: string, nonce: string, now: int)
    ensures var j := Jar(jar, ChallengeCookies(req, tenant, resourceId, nonce, now));
      && Lookup(j, NONCE_COOKIE) == Some(nonce)
      && Lookup(j, RESOURCE_COOKIE) == Some(resourceId)
      && Lookup(j, REDIRECT_COOKIE) == Some(GetUrl(req, req.originalUrl))
      && (tenant != COMMON ==> Lookup(j, TENANT_COOKIE) == Some(tenant))
      && (tenant == COMMON ==> Lookup(j, TENANT_COOKIE) == Lookup(jar, TENANT_COOKIE))
      && (forall name :: name !in {NONCE_COOKIE, RESOURCE_COOKIE, REDIRECT_COOKIE, TENANT_COOKIE}
            ==> Lookup(j, name) == Lookup(jar, name))
    ensures ChallengeCookies(req, tenant, resourceId, nonce, now)[0]
         == SetCookie(NONCE_COOKIE, nonce, CookieOptions(false, Some(now + NONCE_LIFETIME)))
  {
    var cs := ChallengeCookies(req, tenant, resourceId, nonce, now);
    var a, b, c := cs[0], cs[1], cs[2];
    assert cs[..1] == [a] && cs[..2] == cs[..1] + [b] && cs[..3] == cs[..2] + [c];
    assert Jar(jar, cs[..1]) == jar[NONCE_COOKIE := nonce] by {
      assert cs[..1][..0] == [];
    }
    assert Jar(jar, cs[..3]) == jar[NONCE_COOKIE := nonce][RESOURCE_COOKIE := resourceId][REDIRECT_COOKIE := GetUrl(req, req.originalUrl)];
    if tenant == COMMON {
      assert cs == cs[..3];
    } else {
      assert cs[..|cs| - 1] == cs[..3];
    }
  }

  // ---------------------------------------------------------------- callback

  /** A callback whose checks pass and whose exchange succeeds stores, pins and clears, in that order. */
  lemma AcceptUnfolds(options: Options, svc: Services, ex: Exchange, km: KeyMaterial, token: TokenResponse)
    requires !Truthy(Lookup(ex.req.query, "error")) && Truthy(Lookup(ex.req.query, "code"))
    requires Lookup(ex.req.query, "state") == Lookup(ex.req.cookies, NONCE_COOKIE)
    requires AcquireToken(svc.endpoint, options, ex.req.query["code"], GetUrl(ex.req, ex.req.baseUrl + "/accept"),
                          Lookup(ex.req.cookies, RESOURCE_COOKIE)) == Ok(token)
    ensures var key := SessionKey(Interpolate(Lookup(ex.req.cookies, RESOURCE_COOKIE)), token.tenantId);
      var ex1 := Store(svc.cipher, svc.json, ex, key, token, km);
      var ex2 := AddCookie(ex1, SetCookie(TENANT_COOKIE, token.tenantId, PlainCookie));
      Accept(options, svc, ex, km) == Step(AddCookie(AddCookie(ex2, ClearCookie(NONCE_COOKIE)), ClearCookie(RESOURCE_COOKIE)), Next)
  {
  }

  /**
   * A callback that passes every check stores the token under the key of the
   * resource cookie and the token's own tenant (not the request's tenant);
   * no other entry changes.
   */
  lemma AcceptStores(options: Options, svc: Services, ex: Exchange, km: KeyMaterial, token: TokenResponse)
    requires ServicesLawful(svc)
    requires !Truthy(Lookup(ex.req.query, "error")) && Truthy(Lookup(ex.req.query, "code"))
    requires Lookup(ex.req.query, "state") == Lookup(ex.req.cookies, NONCE_COOKIE)
    requires AcquireToken(svc.endpoint, options, ex.req.query["code"], GetUrl(ex.req, ex.req.baseUrl + "/accept"),
                          Lookup(ex.req.cookies, RESOURCE_COOKIE)) == Ok(token)
    ensures var r := Accept(options, svc, ex, km);
      var key := SessionKey(Interpolate(Lookup(ex.req.cookies, RESOURCE_COOKIE)), token.tenantId);
      && r.outcome == Next
      && r.ex.req == Store(svc.cipher, svc.json, ex, key, token, km).req
      && Load(svc.cipher, svc.json, r.ex.req, key).value == Some(token)
      && Lookup(r.ex.req.cookies, CookieName(key)) == Some(Hex.Encode(km.key))
      && (forall k :: k != key ==> Get(Entries(r.ex.req.session), k) == Get(Entries(ex.req.session), k))
  {
    var key := SessionKey(Interpolate(Lookup(ex.req.cookies, RESOURCE_COOKIE)), token.tenantId);
    AcceptUnfolds(options, svc, ex, km, token);
    StoreThenLoad(svc.cipher, svc.json, ex, key, token, km);
  }

  /** The same callback pins the token's tenant and clears the nonce and resource cookies, after the key cookie. */
  lemma AcceptCookies(options: Options, svc: Services, ex: Exchange, km: KeyMaterial, token: TokenResponse)
    requires !Truthy(Lookup(ex.req.query, "error")) && Truthy(Lookup(ex.req.query, "code"))
    requires Lookup(ex.req.query, "state") == Lookup(ex.req.cookies, NONCE_COOKIE)
    requires AcquireToken(svc.endpoint, options, ex.req.query["code"], GetUrl(ex.req, ex.req.baseUrl + "/accept"),
                          Lookup(ex.req.cookies, RESOURCE_COOKIE)) == Ok(token)
    ensures var r := Accept(options, svc, ex, km);
      var key := SessionKey(Interpolate(Lookup(ex.req.cookies, RESOURCE_COOKIE)), token.tenantId);
      && r.ex.res.locals == ex.res.locals
      && r.ex.res.cookies == ex.res.cookies
           + [SetCookie(CookieName(key), Hex.Encode(km.key), CookieOptions(true, None)),
              SetCookie(TENANT_COOKIE, token.tenantId, PlainCookie),
              ClearCookie(NONCE_COOKIE),
              ClearCookie(RESOURCE_COOKIE)]
  {
    var key := SessionKey(Interpolate(Lookup(ex.req.cookies, RESOURCE_COOKIE)), token.tenantId);
    AcceptUnfolds(options, svc, ex, km, token);
    var a0, a1, a2, a3 := SetCookie(CookieName(key), Hex.Encode(km.key), CookieOptions(true, None)),
      SetCookie(TENANT_COOKIE, token.tenantId, PlainCookie), ClearCookie(NONCE_COOKIE), ClearCookie(RESOURCE_COOKIE);
    assert ex.res.cookies + [a0] + [a1] + [a2] + [a3] == ex.res.cookies + [a0, a1, a2, a3];
  }

  /** The CSRF rejection: a state that differs from the nonce cookie changes nothing. */
  lemma StateMismatchRejected(options: Options, svc: Services, ex: Exchange, km: KeyMaterial)
    requires !Truthy(Lookup(ex.req.query, "error")) && Truthy(Lookup(ex.req.query, "code"))
    requires Lookup(ex.req.query, "state") != Lookup(ex.req.cookies, NONCE_COOKIE)
    ensures AcceptRoute(options, svc, ex, km) == Step(ex, NextErr(AzureAd.STATE_MISMATCH))
  {
  }

  // ---------------------------------------------------------------- chains

  /** Requests that agree on headers, cookies and entries read the same cached token for every resource. */
  lemma CachedCongruentAll(svc: Services, a: Request, b: Request, options: Options)
    requires a.headers == b.headers && a.cookies == b.cookies
    requires Entries(a.session) == Entries(b.session)
    ensures forall r :: Cached(svc, a, options, r).value == Cached(svc, b, options, r).value
  {
    forall r ensures Cached(svc, a, options, r).value == Cached(svc, b, options, r).value {
      CachedCongruent(svc, a, b, options, r);
    }
  }

  /** The parts of a guard hit a chain of guards depends on. */
  lemma HitSummary(resourceId: string, options: Options, mode: ResponseType, svc: Services, ex: Exchange, now: int, draw: Draw, token: TokenResponse)
    requires Cached(svc, ex.req, options, resourceId).value == Some(token)
    requires !IsTokenExpired(token, now)
    ensures var r := Authenticate(resourceId, options, mode, svc, ex, now, draw);
      && r.outcome == Next
      && r.ex.req.cookies == ex.req.cookies && r.ex.req.headers == ex.req.headers
      && Entries(r.ex.req.session) == Entries(ex.req.session)
      && r.ex.res.locals.azureAd == ex.res.locals.azureAd[resourceId := token]
  {
    GuardHit(resourceId, options, mode, svc, ex, now, draw, token);
  }

  /** A guard that calls next() hands the exchange on to the rest of the chain. */
  lemma GuardsStep(ids: seq<string>, options: Options, mode: ResponseType, svc: Services, ex: Exchange, now: int, draws: seq<Draw>)
    requires |draws| == |ids| && ids != []
    requires Authenticate(ids[0], options, mode, svc, ex, now, draws[0]).outcome.Next?
    ensures Guards(ids, options, mode, svc, ex, now, draws)
         == Guards(ids[1..], options, mode, svc, Authenticate(ids[0], options, mode, svc, ex, now, draws[0]).ex, now, draws[1..])
  {
  }

  /** When every resource has a fresh cached token, the chain passes and attaches them all. */
  lemma {:induction false} GuardsAllCached(ids: seq<string>, options: Options, mode: ResponseType, svc: Services, ex: Exchange, now: int, draws: seq<Draw>)
    requires |draws| == |ids|
    requires forall r :: r in ids ==> Fresh(svc, ex.req, options, r, now)
    ensures var g := Guards(ids, options, mode, svc, ex, now, draws);
      && g.outcome == Next
      && Entries(g.ex.req.session) == Entries(ex.req.session)
      && g.ex.req.cookies == ex.req.cookies && g.ex.req.headers == ex.req.headers
      && (forall r :: r in ids ==>
            (r in g.ex.res.locals.azureAd && Some(g.ex.res.locals.azureAd[r]) == Cached(svc, ex.req, options, r).value))
      && (forall k :: k in ex.res.locals.azureAd && k !in ids ==>
            (k in g.ex.res.locals.azureAd && g.ex.res.locals.azureAd[k] == ex.res.locals.azureAd[k]))
    decreases |ids|
  {
    if ids != [] {
      var id, rest := ids[0], ids[1..];
      assert id in ids;
      var token := Cached(svc, ex.req, options, id).value.value;
      HitSummary(id, options, mode, svc, ex, now, draws[0], token);
      var first := Authenticate(id, options, mode, svc, ex, now, draws[0]);
      GuardsStep(ids, options, mode, svc, ex, now, draws);
      CachedCongruentAll(svc, first.ex.req, ex.req, options);
      forall r | r in rest
        ensures Fresh(svc, first.ex.req, options, r, now)
      {
        assert r in ids;
      }
      GuardsAllCached(rest, options, mode, svc, first.ex, now, draws[1..]);
      var g := Guards(ids, options, mode, svc, ex, now, draws);
      var locals := first.ex.res.locals.azureAd;
      assert g == Guards(rest, options, mode, svc, first.ex, now, draws[1..]);
      forall r | r in ids
        ensures r in g.ex.res.locals.azureAd && Some(g.ex.res.locals.azureAd[r]) == Cached(svc, ex.req, options, r).value
      {
        if r !in rest {
          assert r == id && r in locals;
        }
      }
      forall k | k in ex.res.locals.azureAd && k !in ids
        ensures k in g.ex.res.locals.azureAd && g.ex.res.locals.azureAd[k] == ex.res.locals.azureAd[k]
      {
        assert k != id && k !in rest && k in locals;
      }
    }
  }

  /** A chain split in two runs the second part only when the first part passes. */
  lemma {:induction false} GuardsAppend(a: seq<string>, b: seq<string>, options: Options, mode: ResponseType, svc: Services,
                                       ex: Exchange, now: int, da: seq<Draw>, db: seq<Draw>)
    requires |da| == |a| && |db| == |b|
    ensures var g := Guards(a, options, mode, svc, ex, now, da);
      Guards(a + b, options, mode, svc, ex, now, da + db)
        == if g.outcome.Next? then Guards(b, options, mode, svc, g.ex, now, db) else g
    decreases |a|
  {
    if a == [] {
      assert a + b == b && da + db == db;
    } else {
      assert (a + b)[0] == a[0] && (a + b)[1..] == a[1..] + b;
      assert (da + db)[0] == da[0] && (da + db)[1..] == da[1..] + db;
      var first := Authenticate(a[0], options, mode, svc, ex, now, da[0]);
      if first.outcome.Next? {
        GuardsAppend(a[1..], b, options, mode, svc, first.ex, now, da[1..], db);
      }
    }
  }

  // ---------------------------------------------------------------- login

  /**
   * `GET /login` with a fresh cached token for every resource: every token is
   * attached and `login` answers, redirecting to a non-empty `redirect` query
   * or reporting "Logged in".
   */
  lemma LoginAllCached(ids: seq<string>, options: Options, svc: Services, ex: Exchange, now: int, draws: seq<Draw>)
    requires |draws| == |ids|
    requires forall r :: r in ids ==> Fresh(svc, ex.req, options, r, now)
    ensures var l := LoginRoute(ids, options, svc, ex, now, draws);
      && l.outcome == (if Truthy(Lookup(ex.req.query, "redirect")) then Redirect(ex.req.query["redirect"])
                       else Respond(200, Text("Logged in")))
      && (forall r :: r in ids ==>
            r in l.ex.res.locals.azureAd && Some(l.ex.res.locals.azureAd[r]) == Cached(svc, ex.req, options, r).value)
  {
    GuardsAllCached(ids, options, RedirectResponse, svc, ex, now, draws);
  }

  /**
   * A chain whose first part passes runs the second part's first guard on
   * the exchange the first part left, and stops there when it does not pass.
   */
  lemma GuardsStopAt(a: seq<string>, b: seq<string>, options: Options, mode: ResponseType, svc: Services,
                     ex: Exchange, now: int, da: seq<Draw>, db: seq<Draw>)
    requires |da| == |a| && |db| == |b| && b != []
    requires Guards(a, options, mode, svc, ex, now, da).outcome.Next?
    ensures var g := Guards(a, options, mode, svc, ex, now, da);
      var hit := Authenticate(b[0], options, mode, svc, g.ex, now, db[0]);
      !hit.outcome.Next? ==> Guards(a + b, options, mode, svc, ex, now, da + db) == hit
  {
    GuardsAppend(a, b, options, mode, svc, ex, now, da, db);
    var g := Guards(a, options, mode, svc, ex, now, da);
    GuardsHead(b, options, mode, svc, g.ex, now, db);
  }

  /** A chain whose first guard does not pass answers with that guard's step. */
  lemma GuardsHead(ids: seq<string>, options: Options, mode: ResponseType, svc: Services, ex: Exchange, now: int, draws: seq<Draw>)
    requires |draws| == |ids| && ids != []
    ensures var first := Authenticate(ids[0], options, mode, svc, ex, now, draws[0]);
      !first.outcome.Next? ==> Guards(ids, options, mode, svc, ex, now, draws) == first
  {
  }

  /** A guard without a cached token never passes. */
  lemma MissStops(resourceId: string, options: Options, mode: ResponseType, svc: Services, ex: Exchange, now: int, draw: Draw)
    requires Cached(svc, ex.req, options, resourceId).value.None?
    ensures !Authenticate(resourceId, options, mode, svc, ex, now, draw).outcome.Next?
  {
    GuardMiss(resourceId, options, mode, svc, ex, now, draw);
  }

  /**
   * A chain whose resources before `k` have fresh tokens and whose resource
   * `k` has none answers with resource `k`'s guard, run on the exchange the
   * earlier guards left.
   */
  lemma GuardsFirstMiss(ids: seq<string>, k: nat, options: Options, mode: ResponseType, svc: Services,
                        ex: Exchange, now: int, draws: seq<Draw>)
    requires |draws| == |ids| && k < |ids|
    requires forall r :: r in ids[..k] ==> Fresh(svc, ex.req, options, r, now)
    requires Cached(svc, ex.req, options, ids[k]).value.None?
    ensures var g := Guards(ids[..k], options, mode, svc, ex, now, draws[..k]);
      && g.outcome.Next?
      && g.ex.req.cookies == ex.req.cookies
      && TenantId(g.ex.req, options) == TenantId(ex.req, options)
      && Cached(svc, g.ex.req, options, ids[k]).value.None?
      && Guards(ids, options, mode, svc, ex, now, draws) == Authenticate(ids[k], options, mode, svc, g.ex, now, draws[k])
  {
    var a, b, da, db := ids[..k], ids[k..], draws[..k], draws[k..];
    assert ids == a + b && draws == da + db;
    assert b[0] == ids[k] && db[0] == draws[k];
    GuardsAllCached(a, options, mode, svc, ex, now, da);
    var g := Guards(a, options, mode, svc, ex, now, da);
    CachedCongruent(svc, g.ex.req, ex.req, options, ids[k]);
    MissStops(ids[k], options, mode, svc, g.ex, now, draws[k]);
    GuardsStopAt(a, b, options, mode, svc, ex, now, da, db);
  }

  /**
   * `GET /login` where the resources before `k` have fresh tokens and resource
   * `k` has none: the answer is the redirect-mode challenge for resource `k`,
   * issued after the earlier guards attached their tokens.
   */
  lemma LoginRouteFirstMiss(ids: seq<string>, k: nat, options: Options, svc: Services, ex: Exchange, now: int, draws: seq<Draw>)
    requires |draws| == |ids| && k < |ids|
    requires forall r :: r in ids[..k] ==> Fresh(svc, ex.req, options, r, now)
    requires Cached(svc, ex.req, options, ids[k]).value.None?
    ensures var g := Guards(ids[..k], options, RedirectResponse, svc, ex, now, draws[..k]);
      var l := LoginRoute(ids, options, svc, ex, now, draws);
      && l == Authenticate(ids[k], options, RedirectResponse, svc, g.ex, now, draws[k])
      && l.outcome == Redirect(AuthorizationUrl(
           LoginRequest(g.ex, options, TenantId(ex.req, options), ids[k], Nonce(ex.req, draws[k])), options, svc))
  {
    GuardsFirstMiss(ids, k, options, RedirectResponse, svc, ex, now, draws);
    var g := Guards(ids[..k], options, RedirectResponse, svc, ex, now, draws[..k]);
    GuardMiss(ids[k], options, RedirectResponse, svc, g.ex, now, draws[k]);
  }

  // ---------------------------------------------------------------- authority

  /**
   * The authorize redirect and both token exchanges address one authority:
   * the configured one, or the public Microsoft host when none is configured,
   * always under the configured tenant, whatever tenant the request resolved.
   */
  lemma AuthorityShared(options: Options, svc: Services, request: AuthorizeRequest,
                        code: string, redirectUri: string, resource: Option<string>, token: TokenResponse)
    requires svc.endpoint.appPassword.Ok?
    ensures var authority := AuthorityForTenant(options);
      var password := svc.endpoint.appPassword.value;
      && StartsWith(AuthorizationUrl(request, options, svc), authority + "/oauth2/authorize?")
      && AcquireToken(svc.endpoint, options, code, redirectUri, resource)
           == svc.endpoint.byCode(authority, code, redirectUri, resource, options.appId, password)
      && AcquireTokenWithRefreshToken(svc.endpoint, options, token)
           == svc.endpoint.byRefresh(authority, token.refreshToken, options.appId, password, token.resourceId)
    ensures !Truthy(options.authority) ==> AuthorityForTenant(options) == "https://login.microsoftonline.com/" + options.tenantId
    ensures Truthy(options.authority) ==> AuthorityForTenant(options) == options.authority.value + "/" + options.tenantId
  {
  }

  // ---------------------------------------------------------------- logout

  /** The jar effect of clearing the key cookies of some ids. */
  lemma {:induction false} ClearKeyCookiesJar(jar: map<string, string>, ids: seq<string>)
    ensures forall id :: id in ids ==> CookieName(id) !in Jar(jar, ClearKeyCookies(ids))
    ensures forall name ::
              (forall id :: id in ids ==> CookieName(id) != name) ==>
                Lookup(Jar(jar, ClearKeyCookies(ids)), name) == Lookup(jar, name)
  {
    if ids != [] {
      var first := [ClearCookie(CookieName(ids[0]))];
      assert ClearKeyCookies(ids) == first + ClearKeyCookies(ids[1..]);
      JarAppend(jar, first, ClearKeyCookies(ids[1..]));
      assert first[..0] == [];
      assert Jar(jar, first) == jar - {CookieName(ids[0])};
      ClearKeyCookiesJar(jar - {CookieName(ids[0])}, ids[1..]);
      if ids[0] !in ids[1..] {
        forall id | id in ids[1..] ensures CookieName(id) != CookieName(ids[0]) {
          if CookieName(id) == CookieName(ids[0]) {
            CookieNameInjective(id, ids[0]);
          }
        }
        assert Lookup(Jar(jar - {CookieName(ids[0])}, ClearKeyCookies(ids[1..])), CookieName(ids[0])) == None;
      }
    }
  }

  /**
   * Logout removes every entry whose id starts with "azuread", keeps every
   * other entry, and leaves the browser without the tenant cookie or the key
   * cookie of any removed entry.
   */
  lemma LogoutClears(ex: Exchange, jar: map<string, string>)
    ensures var r := Logout(ex).ex;
      && (forall k :: StartsWith(k, SESSION_KEY_PREFIX) ==> Get(Entries(r.req.session), k).None?)
      && (forall k :: !StartsWith(k, SESSION_KEY_PREFIX) ==> Get(Entries(r.req.session), k) == Get(Entries(ex.req.session), k))
      && r.req == ex.req.(session := r.req.session)
      && r.req.session.encrypted.Some?
      && r.res.locals == ex.res.locals
      && TENANT_COOKIE !in Jar(jar, r.res.cookies)
      && (forall k :: StartsWith(k, SESSION_KEY_PREFIX) && Get(Entries(ex.req.session), k).Some?
            ==> CookieName(k) !in Jar(jar, r.res.cookies))
  {
    var listed := ListEncrypted(ex.req);
    var ids := Namespaced(listed.value);
    var removed := RemoveEach(ex.(req := listed.req), ids);
    RemoveEachEntries(ex.(req := listed.req), ids);
    var r := Logout(ex).ex;
    assert r.res.cookies == ex.res.cookies + ClearKeyCookies(ids) + [ClearCookie(TENANT_COOKIE)];
    JarAppend(jar, ex.res.cookies, ClearKeyCookies(ids));
    ClearKeyCookiesJar(Jar(jar, ex.res.cookies), ids);
    JarAppend(jar, ex.res.cookies + ClearKeyCookies(ids), [ClearCookie(TENANT_COOKIE)]);
    assert [ClearCookie(TENANT_COOKIE)][..0] == [];
  }

  /** No listed id in the namespace: nothing to remove. */
  lemma {:induction false} NamespacedNone(ids: seq<string>)
    requires forall k :: k in ids ==> !StartsWith(k, SESSION_KEY_PREFIX)
    ensures Namespaced(ids) == []
  {
    if ids != [] {
      NamespacedNone(ids[1..]);
    }
  }

  /** Logging out a second time changes neither the session nor the browser's cookies. */
  lemma LogoutIdempotent(ex: Exchange, jar: map<string, string>)
    ensures Logout(Logout(ex).ex).ex.req == Logout(ex).ex.req
    ensures Jar(jar, Logout(Logout(ex).ex).ex.res.cookies) == Jar(jar, Logout(ex).ex.res.cookies)
  {
    var once := Logout(ex).ex;
    LogoutClears(ex, jar);
    var listed := ListEncrypted(once.req);
    assert listed.req == once.req;
    var ids := Namespaced(listed.value);
    forall k | k in listed.value ensures !StartsWith(k, SESSION_KEY_PREFIX) {
      assert Get(Entries(once.req.session), k).Some?;
    }
    NamespacedNone(listed.value);
    RemoveEachEntries(once, ids);
    var twice := Logout(once).ex;
    assert twice.res.cookies == once.res.cookies + [ClearCookie(TENANT_COOKIE)];
    JarAppend(jar, once.res.cookies, [ClearCookie(TENANT_COOKIE)]);
    assert [ClearCookie(TENANT_COOKIE)][..0] == [];
  }

  // ---------------------------------------------------------------- the whole round

  /** Clearing the three login cookies removes them and leaves every other cookie alone. */
  lemma ClearLoginJar(jar: map<string, string>, other: string)
    requires other != NONCE_COOKIE && other != RESOURCE_COOKIE && other != REDIRECT_COOKIE
    ensures var j := Jar(jar, [ClearCookie(NONCE_COOKIE), ClearCookie(RESOURCE_COOKIE), ClearCookie(REDIRECT_COOKIE)]);
      && NONCE_COOKIE !in j && RESOURCE_COOKIE !in j && REDIRECT_COOKIE !in j
      && Lookup(j, other) == Lookup(jar, other)
  {
    var x2, x3, x4 := ClearCookie(NONCE_COOKIE), ClearCookie(RESOURCE_COOKIE), ClearCookie(REDIRECT_COOKIE);
    JarSnoc(jar, [], x2);
    assert [] + [x2] == [x2];
    JarSnoc(jar, [x2], x3);
    assert [x2] + [x3] == [x2, x3];
    JarSnoc(jar, [x2, x3], x4);
    assert [x2, x3] + [x4] == [x2, x3, x4];
  }

  /** The browser's cookies after a successful callback and `tokensAccepted`. */
  lemma AcceptJar(jar: map<string, string>, name: string, keyText: string, tenant: string)
    requires name != TENANT_COOKIE && name != NONCE_COOKIE && name != RESOURCE_COOKIE && name != REDIRECT_COOKIE
    ensures var j := Jar(jar, [SetCookie(name, keyText, CookieOptions(true, None)),
                              SetCookie(TENANT_COOKIE, tenant, PlainCookie),
                              ClearCookie(NONCE_COOKIE),
                              ClearCookie(RESOURCE_COOKIE),
                              ClearCookie(REDIRECT_COOKIE)]);
      && Lookup(j, name) == Some(keyText)
      && Lookup(j, TENANT_COOKIE) == Some(tenant)
      && NONCE_COOKIE !in j && RESOURCE_COOKIE !in j && REDIRECT_COOKIE !in j
  {
    var x0, x1 := SetCookie(name, keyText, CookieOptions(true, None)), SetCookie(TENANT_COOKIE, tenant, PlainCookie);
    var clears := [ClearCookie(NONCE_COOKIE), ClearCookie(RESOURCE_COOKIE), ClearCookie(REDIRECT_COOKIE)];
    assert [x0, x1] + clears == [x0, x1, ClearCookie(NONCE_COOKIE), ClearCookie(RESOURCE_COOKIE), ClearCookie(REDIRECT_COOKIE)];
    JarAppend(jar, [x0, x1], clears);
    JarSnoc(jar, [], x0);
    assert [] + [x0] == [x0];
    JarSnoc(jar, [x0], x1);
    assert [x0] + [x1] == [x0, x1];
    var j2 := Jar(jar, [x0, x1]);
    assert Lookup(j2, name) == Some(keyText) && Lookup(j2, TENANT_COOKIE) == Some(tenant);
    ClearLoginJar(j2, name);
    ClearLoginJar(j2, TENANT_COOKIE);
  }

  /** The first leg: a guard miss in json mode leaves the nonce, resource and return URL in the browser. */
  lemma ChallengeRound(resourceId: string, options: Options, svc: Services, now: int,
                       ex0: Exchange, draw0: Draw, s0: Step, jar: map<string, string>)
    requires ex0.res.cookies == []
    requires Cached(svc, ex0.req, options, resourceId).value.None?
    requires s0 == Authenticate(resourceId, options, JsonResponse, svc, ex0, now, draw0)
    requires jar == Jar(ex0.req.cookies, s0.ex.res.cookies)
    ensures s0.outcome == Respond(401, LoginLink(GetUrl(ex0.req, "/login")))
    ensures s0.ex.req.session == Init(ex0.req.session)
    ensures Lookup(jar, NONCE_COOKIE) == Some(Nonce(ex0.req, draw0))
    ensures Lookup(jar, RESOURCE_COOKIE) == Some(resourceId)
    ensures Lookup(jar, REDIRECT_COOKIE) == Some(GetUrl(ex0.req, ex0.req.originalUrl))
  {
    var nonce := Nonce(ex0.req, draw0);
    GuardMiss(resourceId, options, JsonResponse, svc, ex0, now, draw0);
    ChallengeJar(ex0.req.cookies, ex0.req, TenantId(ex0.req, options), resourceId, nonce, now);
    assert s0.ex.res.cookies == ChallengeCookies(ex0.req, TenantId(ex0.req, options), resourceId, nonce, now);
  }

  /** A successful callback and `tokensAccepted`, from the callback request's point of view. */
  lemma AcceptRouteSucceeds(resourceId: string, redirect: string, options: Options, svc: Services,
                            req1: Request, res1: Response, km: KeyMaterial, token: TokenResponse)
    requires ServicesLawful(svc)
    requires res1.cookies == []
    requires !Truthy(Lookup(req1.query, "error")) && Truthy(Lookup(req1.query, "code"))
    requires Lookup(req1.query, "state") == Lookup(req1.cookies, NONCE_COOKIE)
    requires Lookup(req1.cookies, RESOURCE_COOKIE) == Some(resourceId)
    requires Lookup(req1.cookies, REDIRECT_COOKIE) == Some(redirect) && redirect != ""
    requires AcquireToken(svc.endpoint, options, req1.query["code"], GetUrl(req1, req1.baseUrl + "/accept"), Some(resourceId)) == Ok(token)
    ensures var s1 := AcceptRoute(options, svc, Exchange(req1, res1), km);
      var key := SessionKey(resourceId, token.tenantId);
      && s1.outcome == Redirect(redirect)
      && s1.ex.res.cookies == [SetCookie(CookieName(key), Hex.Encode(km.key), CookieOptions(true, None)),
                               SetCookie(TENANT_COOKIE, token.tenantId, PlainCookie),
                               ClearCookie(NONCE_COOKIE),
                               ClearCookie(RESOURCE_COOKIE),
                               ClearCookie(REDIRECT_COOKIE)]
      && Load(svc.cipher, svc.json, s1.ex.req, key).value == Some(token)
      && Lookup(s1.ex.req.cookies, CookieName(key)) == Some(Hex.Encode(km.key))
  {
    var ex1 := Exchange(req1, res1);
    var key := SessionKey(resourceId, token.tenantId);
    AcceptStores(options, svc, ex1, km, token);
    AcceptCookies(options, svc, ex1, km, token);
    var accepted := Accept(options, svc, ex1, km);
    var a0, a1, a2, a3 := SetCookie(CookieName(key), Hex.Encode(km.key), CookieOptions(true, None)),
      SetCookie(TENANT_COOKIE, token.tenantId, PlainCookie), ClearCookie(NONCE_COOKIE), ClearCookie(RESOURCE_COOKIE);
    assert accepted.ex.res.cookies == [] + [a0, a1, a2, a3] == [a0, a1, a2, a3];
    assert [a0, a1, a2, a3] + [ClearCookie(REDIRECT_COOKIE)] == [a0, a1, a2, a3, ClearCookie(REDIRECT_COOKIE)];
  }

  /** The second leg: the callback stores the token, pins its tenant and sends the browser back. */
  lemma CallbackRound(resourceId: string, redirect: string, options: Options, svc: Services,
                      req1: Request, res1: Response, km: KeyMaterial, token: TokenResponse, s1: Step,
                      req2: Request)
    requires ServicesLawful(svc)
    requires res1.cookies == []
    requires !Truthy(Lookup(req1.query, "error")) && Truthy(Lookup(req1.query, "code"))
    requires Lookup(req1.query, "state") == Lookup(req1.cookies, NONCE_COOKIE)
    requires Lookup(req1.cookies, RESOURCE_COOKIE) == Some(resourceId)
    requires Lookup(req1.cookies, REDIRECT_COOKIE) == Some(redirect) && redirect != ""
    requires AcquireToken(svc.endpoint, options, req1.query["code"], GetUrl(req1, req1.baseUrl + "/accept"), Some(resourceId)) == Ok(token)
    requires s1 == AcceptRoute(options, svc, Exchange(req1, res1), km)
    requires req2.cookies == Jar(req1.cookies, s1.ex.res.cookies)
    requires req2.session == s1.ex.req.session
    ensures s1.outcome == Redirect(redirect)
    ensures Lookup(req2.cookies, TENANT_COOKIE) == Some(token.tenantId)
    ensures Load(svc.cipher, svc.json, req2, SessionKey(resourceId, token.tenantId)).value == Some(token)
  {
    var key := SessionKey(resourceId, token.tenantId);
    AcceptRouteSucceeds(resourceId, redirect, options, svc, req1, res1, km, token);
    NotKeyCookie(key);
    AcceptJar(req1.cookies, CookieName(key), Hex.Encode(km.key), token.tenantId);
    LoadCongruent(svc.cipher, svc.json, req2, s1.ex.req, key);
  }

  /**
   * The challenge, callback and retry round: a first request with no cached
   * token gets a 401 with the login URL; a callback that carries the cookies
   * the challenge left and echoes the nonce as `state` stores the token and
   * redirects to the originally requested URL; the retried request, with the
   * cookies that callback left, passes with that token attached.
   */
  lemma EndToEnd(resourceId: string, options: Options, svc: Services, now: int, later: int,
                 ex0: Exchange, draw0: Draw, s0: Step,
                 req1: Request, res1: Response, km: KeyMaterial, token: TokenResponse, s1: Step,
                 req2: Request, res2: Response, draw2: Draw)
    requires ServicesLawful(svc)
    requires ex0.res.cookies == [] && res1.cookies == []
    requires Cached(svc, ex0.req, options, resourceId).value.None?
    requires s0 == Authenticate(resourceId, options, JsonResponse, svc, ex0, now, draw0)
    requires req1.cookies == Jar(ex0.req.cookies, s0.ex.res.cookies)
    requires !Truthy(Lookup(req1.query, "error")) && Truthy(Lookup(req1.query, "code"))
    requires Lookup(req1.query, "state") == Some(Nonce(ex0.req, draw0))
    requires AcquireToken(svc.endpoint, options, req1.query["code"], GetUrl(req1, req1.baseUrl + "/accept"), Some(resourceId)) == Ok(token)
    requires Pins(Some(token.tenantId))
    requires s1 == AcceptRoute(options, svc, Exchange(req1, res1), km)
    requires TENANT_HEADER !in req2.headers
    requires req2.cookies == Jar(req1.cookies, s1.ex.res.cookies)
    requires req2.session == s1.ex.req.session
    requires !IsTokenExpired(token, later)
    ensures s0.outcome == Respond(401, LoginLink(GetUrl(ex0.req, "/login")))
    ensures s1.outcome == Redirect(GetUrl(ex0.req, ex0.req.originalUrl))
    ensures var s2 := Authenticate(resourceId, options, JsonResponse, svc, Exchange(req2, res2), later, draw2);
      && s2.outcome == Next
      && s2.ex.res.locals.azureAd == res2.locals.azureAd[resourceId := token]
  {
    var redirect := GetUrl(ex0.req, ex0.req.originalUrl);
    ChallengeRound(resourceId, options, svc, now, ex0, draw0, s0, req1.cookies);
    CallbackRound(resourceId, redirect, options, svc, req1, res1, km, token, s1, req2);
    CookiePinsTenant(req2, options, token.tenantId);
    GuardHit(resourceId, options, JsonResponse, svc, Exchange(req2, res2), later, draw2, token);
  }
}
