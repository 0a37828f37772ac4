/**
 * The authorisation checks that run after the Azure AD guard: `userRole`
 * admits users holding one of the allowed roles, `currentUser` admits the
 * user a route parameter names. Both read the Microsoft Graph token the
 * guard attached.
 */
module UserGuard {
  import opened Wrappers
  import opened Errors
  import opened Adal
  import opened Http
  import AzureAd
  import AzureAdFlow
  import UserDb
  import Throw

  /** Reading `token.userId` when no token was attached: a TypeError. */
  const NO_TOKEN := Error(PlainError, "Cannot read property 'userId' of undefined")

  /** `res.status(403).end()`. */
  const FORBIDDEN := Respond(403, NoBody)

  /** `getAzureAdToken(res, GRAPH_RESOURCE)`: the Graph token a guard attached, if any. */
  function GraphToken(ex: Exchange): (r: Option<TokenResponse>)
    ensures r.Some? <==> AzureAd.GRAPH_RESOURCE in ex.res.locals.azureAd
    ensures r.Some? ==> r.value == ex.res.locals.azureAd[AzureAd.GRAPH_RESOURCE]
  {
    AzureAd.GetToken(ex.res, AzureAd.GRAPH_RESOURCE)
  }

  /** `userRoles.some((x) => allowedRolesSet.has(x))`. */
  function Overlaps(roles: seq<string>, allowed: set<string>): (r: bool)
    ensures r <==> exists i :: 0 <= i < |roles| && roles[i] in allowed
  {
    if roles == [] then false
    else if roles[0] in allowed then true
    else
      var rest := Overlaps(roles[1..], allowed);
      assert forall i :: 1 <= i < |roles| ==> roles[i] == roles[1..][i - 1];
      rest
  }

  /** A known user holding at least one allowed role. */
  ghost predicate Admitted(allowed: seq<string>, db: UserDb.Db, userId: Option<string>) {
    && userId.Some? && userId.value != "" && userId.value in db.users
    && exists role :: role in allowed && role in UserDb.Roles(db, userId.value).value
  }

  /** The asynchronous body of `userRole`; a rejection reaches `next(err)` through `tryPromise`. */
  function Decide(allowed: set<string>, db: UserDb.Db, userId: Option<string>): (r: Http.Outcome)
    ensures r.NextErr? <==> userId.None? || userId.value == "" || userId.value !in db.users
    ensures userId.Some? && userId.value != "" && userId.value !in db.users ==> r == NextErr(UserDb.USER_NOT_FOUND)
    ensures r.Next? || r.NextErr? || r == FORBIDDEN
  {
    match Throw.ThrowIfEmpty(Throw.OfString(userId), "id")
    case Fail(e) => NextErr(e)
    case Pass =>
      match UserDb.Get(db, userId.value)
      case Err(e) => NextErr(e)
      case Ok(_) => if Overlaps(UserDb.Roles(db, userId.value).value, allowed) then Next else FORBIDDEN
  }

  /** `userRole(...allowedRoles)` over the user store `db`. */
  function UserRole(allowed: seq<string>, db: UserDb.Db, ex: Exchange): (r: Step)
    ensures r.ex == ex
    ensures r.outcome.Next? || r.outcome.NextErr? || r.outcome == FORBIDDEN
    ensures GraphToken(ex).None? ==> r.outcome == NextErr(NO_TOKEN)
  {
    match GraphToken(ex)
    case None => Step(ex, NextErr(NO_TOKEN))
    case Some(token) => Step(ex, Decide((set x | x in allowed), db, token.userId))
  }

  /** `userRole` passes exactly the known users holding an allowed role. */
  lemma UserRoleAdmits(allowed: seq<string>, db: UserDb.Db, ex: Exchange)
    ensures UserRole(allowed, db, ex).outcome == Next
      <==> GraphToken(ex).Some? && Admitted(allowed, db, GraphToken(ex).value.userId)
  {
    if GraphToken(ex).Some? {
      var id := GraphToken(ex).value.userId;
      if id.Some? && id.value != "" && id.value in db.users {
        var roles := UserDb.Roles(db, id.value).value;
        var s := (set x | x in allowed);
        if Overlaps(roles, s) {
          var i :| 0 <= i < |roles| && roles[i] in s;
          assert roles[i] in allowed && roles[i] in roles;
        }
        if Admitted(allowed, db, id) {
          var role :| role in allowed && role in roles;
          var i :| 0 <= i < |roles| && roles[i] == role;
          assert roles[i] in s;
        }
      }
    }
  }

  /** A known user lacking every allowed role is refused with 403, not passed on as an error. */
  lemma UserRoleForbids(allowed: seq<string>, db: UserDb.Db, ex: Exchange)
    requires GraphToken(ex).Some?
    requires var id := GraphToken(ex).value.userId; id.Some? && id.value != "" && id.value in db.users
    requires !Admitted(allowed, db, GraphToken(ex).value.userId)
    ensures UserRole(allowed, db, ex).outcome == FORBIDDEN
  {
    UserRoleAdmits(allowed, db, ex);
  }

  /** With no allowed roles nobody passes. */
  lemma NoRolesNoEntry(db: UserDb.Db, ex: Exchange)
    ensures UserRole([], db, ex).outcome != Next
  {
    UserRoleAdmits([], db, ex);
  }

  /**
   * Behind a Graph guard that found a fresh token, `userRole` decides on that
   * token's user.
   */
  lemma UserRoleAfterGraphHit(allowed: seq<string>, db: UserDb.Db, options: AzureAd.Options, mode: AzureAd.ResponseType,
                              svc: AzureAd.Services, ex: Exchange, now: int, draw: AzureAd.Draw, token: TokenResponse)
    requires AzureAd.Cached(svc, ex.req, options, AzureAd.GRAPH_RESOURCE).value == Some(token)
    requires !AzureAd.IsTokenExpired(token, now)
    ensures var hit := AzureAd.Authenticate(AzureAd.GRAPH_RESOURCE, options, mode, svc, ex, now, draw);
      && hit.outcome == Next
      && (UserRole(allowed, db, hit.ex).outcome == Next <==> Admitted(allowed, db, token.userId))
  {
    var hit := AzureAd.Authenticate(AzureAd.GRAPH_RESOURCE, options, mode, svc, ex, now, draw);
    AzureAdFlow.GuardHit(AzureAd.GRAPH_RESOURCE, options, mode, svc, ex, now, draw, token);
    UserRoleAdmits(allowed, db, hit.ex);
  }

  /** `currentUser(paramName)`: strict equality of the route parameter and the token's user. */
  function CurrentUser(paramName: string, ex: Exchange): (r: Step)
    ensures r.ex == ex
    ensures GraphToken(ex).None? ==> r.outcome == NextErr(NO_TOKEN)
    ensures GraphToken(ex).Some? ==> (r.outcome == Next <==> Lookup(ex.req.params, paramName) == GraphToken(ex).value.userId)
    ensures GraphToken(ex).Some? && r.outcome != Next ==> r.outcome == FORBIDDEN
  {
    match GraphToken(ex)
    case None => Step(ex, NextErr(NO_TOKEN))
    case Some(token) =>
      if Lookup(ex.req.params, paramName) == token.userId then Step(ex, Next) else Step(ex, FORBIDDEN)
  }

  /**
   * Behind a Graph guard that found a fresh token, `currentUser` passes
   * exactly when the route parameter is that token's user, and otherwise
   * answers 403.
   */
  lemma CurrentUserAfterGraphHit(paramName: string, options: AzureAd.Options, mode: AzureAd.ResponseType,
                                 svc: AzureAd.Services, ex: Exchange, now: int, draw: AzureAd.Draw, token: TokenResponse)
    requires AzureAd.Cached(svc, ex.req, options, AzureAd.GRAPH_RESOURCE).value == Some(token)
    requires !AzureAd.IsTokenExpired(token, now)
    ensures var hit := AzureAd.Authenticate(AzureAd.GRAPH_RESOURCE, options, mode, svc, ex, now, draw);
      && hit.outcome == Next
      && (CurrentUser(paramName, hit.ex).outcome == Next <==> Lookup(ex.req.params, paramName) == token.userId)
      && (CurrentUser(paramName, hit.ex).outcome != Next ==> CurrentUser(paramName, hit.ex).outcome == FORBIDDEN)
  {
    AzureAdFlow.GuardHit(AzureAd.GRAPH_RESOURCE, options, mode, svc, ex, now, draw, token);
  }

  /** A token without a user id passes a route that lacks the parameter: `undefined === undefined`. */
  lemma CurrentUserBothAbsent(paramName: string, ex: Exchange)
    requires GraphToken(ex).Some? && GraphToken(ex).value.userId.None?
    requires paramName !in ex.req.params
    ensures CurrentUser(paramName, ex).outcome == Next
  {
  }
}
