# Azure AD session authentication and user store, in Dafny

This project models the authentication and authorisation core of the
azure-vpn-cert-manager backend:

- **The Azure AD OAuth middleware.** This covers:
  - resolving a tenant from the `x-tenant` header, the `tenant` cookie or the configuration;
  - a guard per resource, which first refreshes an expired cached token and then either attaches the cached token or issues the CSRF challenge (a nonce cookie plus a redirect to the authorize endpoint, or a 401 that carries the login URL);
  - the `/accept` callback (error, missing code, state/nonce mismatch, the code-for-token exchange, storage, cookies);
  - `tokensAccepted`, `login` and `logout`.
- **The encrypted session store.** Each entry of `session.encrypted` holds `hex(iv || AES-256-CBC(JSON(data)))`. The key of each entry lives only in an httpOnly cookie named `<id>.key`.
- **URL construction behind a reverse proxy** (`getUrl`).
- **The user store** (`UserDb`: get, create, remove, roles, addRole, removeRole) over an abstract map from user id to roles record. It also covers the input validator `throwIfEmpty`.
- **The `userRole` and `currentUser` authorisation middleware**, the Express error handler and the `env` configuration reader.

Every handler is a pure function from an `Exchange` (request and response
so far) to a `Step`: the new exchange plus the outcome. The outcome is one
of:

- `next()`;
- `next(err)`;
- a redirect;
- a response with a status and body.

Cookies a response sets are a list of actions. `Http.Jar` plays them onto a browser's cookie jar, so that properties spanning several requests can be stated.

Foreign code is passed in as function-valued parameters. This covers AES-256-CBC, JSON, the adal-node token endpoint, `querystring.stringify` and `getAppPassword`. The only assumptions made about them are the laws the lemmas require:

- `Cipher.Lawful`: decryption inverts encryption;
- `Json.Lawful`: parse inverts stringify.

The clock (`now`), the random bytes (`KeyMaterial`, `Draw`) and the runtime stack text are parameters too.

Modules:

| module | file |
|---|---|
| `Wrappers`, `Errors` | `Option`/`Result`/`Outcome`; the four error classes |
| `Hex`, `JsObject`, `Http`, `Url` | Buffer hex codec, insertion-ordered JS objects, request/response/cookies, `getUrl` |
| `Cipher`, `Json`, `Adal` | the foreign interfaces and their laws |
| `SessionCrypto` | `crypto.ts` |
| `AzureAd`, `AzureAdFlow` | `azure-ad.ts`, and the properties that span several handlers or requests |
| `Throw`, `Env`, `ErrorHandler`, `UserDb`, `UserGuard` | `throw.ts`, `env.ts`, `error-handler.ts`, `models/user.ts`, `middleware/user.ts` |

## Model

| member | source | states |
|---|---|---|
| Url.Proto | backend/src/middleware/authorization/url.ts:4 | a non-empty `x-forwarded-proto` header wins over the protocol the server saw |
| Url.Host | backend/src/middleware/authorization/url.ts:5 | a non-empty `x-forwarded-host` header wins over `Host`; an absent `Host` reads as "undefined" |
| Url.Prefix | backend/src/middleware/authorization/url.ts:6 | a non-empty `x-forwarded-prefix` header, else nothing |
| Url.GetUrl | backend/src/middleware/authorization/url.ts:3-8 | the URL is the chosen protocol, "://", the chosen host and the chosen prefix, followed by the path |
| Url.Forwarded | backend/src/middleware/authorization/url.ts:3-8 | behind a proxy that sets all three forwarded headers, the URL is built from those headers alone |
| Url.Unproxied | backend/src/middleware/authorization/url.ts:3-8 | with no forwarded headers the URL is `protocol://host` followed by the path |
| Url.Concat | backend/src/middleware/authorization/url.ts:7 | building a URL distributes over path concatenation |
| Url.PathDetermines | backend/src/middleware/authorization/url.ts:7 | two URLs of one request are equal exactly when their paths are |
| Hex.Encode | backend/src/middleware/authorization/crypto.ts:15-16 | hex text has two lower-case hex digits per byte |
| Hex.DecodeEncode | backend/src/middleware/authorization/crypto.ts:28-29 | decoding the hex text of a buffer gives the buffer back |
| Hex.EncodeInjective | backend/src/middleware/authorization/crypto.ts:15 | distinct keys give distinct key-cookie texts |
| JsObject.Get | backend/src/middleware/authorization/crypto.ts:25 | a property reads as undefined exactly when its name is not a key, and otherwise its stored value |
| JsObject.Put | backend/src/middleware/authorization/crypto.ts:16 | assignment sets the property and leaves every other property alone |
| JsObject.Delete | backend/src/middleware/authorization/crypto.ts:41 | `delete` unsets the property and leaves every other property alone |
| JsObject.PutKeys | backend/src/middleware/authorization/crypto.ts:45-48 | `Object.keys` keeps its order on overwrite and gains the new name at the end on insert |
| JsObject.DeleteKeys | backend/src/middleware/authorization/crypto.ts:41 | after `delete`, the keys are the old keys minus the deleted one; deleting an absent name changes nothing |
| Cipher.Encrypt | backend/src/middleware/authorization/crypto.ts:54-61 | the blob is the IV followed by the cipher output |
| Cipher.Decrypt | backend/src/middleware/authorization/crypto.ts:63-71 | a key that is not 32 bytes, or a blob shorter than the IV, fails; otherwise the first 16 bytes are the IV |
| Cipher.RoundTrip | backend/src/middleware/authorization/crypto.ts:54-71 | decrypt inverts encrypt under the same key |
| SessionCrypto.CookieName | backend/src/middleware/authorization/crypto.ts:50-52 | the key cookie name is the id followed by ".key" |
| SessionCrypto.CookieNameInjective | backend/src/middleware/authorization/crypto.ts:50-52 | distinct ids have distinct key cookies |
| SessionCrypto.Init | backend/src/middleware/authorization/crypto.ts:79-86 | `getSessionData` creates an empty `encrypted` record only when none exists, and keeps the entries |
| SessionCrypto.Store | backend/src/middleware/authorization/crypto.ts:9-19 | encryptSessionData sets the entry for the id and changes no other entry. It mirrors the hex key into the request cookies and keeps property names distinct |
| SessionCrypto.Load | backend/src/middleware/authorization/crypto.ts:21-36 | with an empty or missing entry or key cookie there is no value. Otherwise a failed decryption gives no value and a successful one gives what JSON parsing of the plaintext gives. The read creates the record |
| SessionCrypto.LoadCongruent | backend/src/middleware/authorization/crypto.ts:21-25 | a read depends only on the entry for the id and its key cookie |
| SessionCrypto.Remove | backend/src/middleware/authorization/crypto.ts:38-43 | removeSessionData deletes exactly the entry for the id and clears exactly its key cookie |
| SessionCrypto.ListEncrypted | backend/src/middleware/authorization/crypto.ts:45-48 | the listed ids are exactly the ids with an entry |
| SessionCrypto.StoreThenLoad | backend/src/middleware/authorization/crypto.ts:9-36 | with a lawful cipher and JSON, decrypt after encrypt in the same request returns the data |
| SessionCrypto.StoreIsolated | backend/src/middleware/authorization/crypto.ts:16-17 | storing under one id does not change what another id reads |
| SessionCrypto.RemoveThenLoad | backend/src/middleware/authorization/crypto.ts:38-48 | a removed id reads as absent and is not listed |
| SessionCrypto.RemoveIsolated | backend/src/middleware/authorization/crypto.ts:41 | removing one id does not change what another id reads |
| SessionCrypto.RemoveIdempotent | backend/src/middleware/authorization/crypto.ts:38-43 | removing twice leaves the same session and the same browser jar as removing once |
| AzureAd.TenantId | backend/src/middleware/authorization/azure-ad.ts:271-282 | a non-empty, non-"common" header wins, then such a cookie, then the configured tenant |
| AzureAd.TenantOrigin | backend/src/middleware/authorization/azure-ad.ts:271-282 | the tenant is the configured one, or a non-empty non-"common" value the header or cookie holds |
| AzureAd.CookiePinsTenant | backend/src/middleware/authorization/azure-ad.ts:273-278 | without the header, a pinning tenant cookie decides the tenant |
| AzureAd.SessionKey | backend/src/middleware/authorization/azure-ad.ts:209-211 | the key is "azuread:" followed by tenant, ":" and resource |
| AzureAd.SessionKeyInjective | backend/src/middleware/authorization/azure-ad.ts:209-211 | for colon-free tenants, the key determines both the tenant and the resource |
| AzureAd.AuthorityForTenant | backend/src/middleware/authorization/azure-ad.ts:266-269 | a non-empty configured authority wins over the public one, then "/" and the configured tenant |
| AzureAd.IsTokenExpired | backend/src/middleware/authorization/azure-ad.ts:213-215 | a token is expired exactly when its expiry instant is not after now |
| AzureAd.ExpiryMonotone | backend/src/middleware/authorization/azure-ad.ts:213-215 | a token expired at one instant stays expired at every later instant |
| AzureAd.AcquireToken | backend/src/middleware/authorization/azure-ad.ts:242-264 | a failed app-password lookup is the error; otherwise the code exchange against the tenant authority, with the app id and password |
| AzureAd.AcquireTokenWithRefreshToken | backend/src/middleware/authorization/azure-ad.ts:217-240 | a failed app-password lookup is the error; otherwise the refresh exchange against the tenant authority for the token's own resource |
| AzureAd.Assign | backend/src/middleware/authorization/azure-ad.ts:198-204 | after the deletion of undefined fields and `Object.assign`, each property is the defined field value if there is one, and the default otherwise |
| AzureAd.AuthorizationUrl | backend/src/middleware/authorization/azure-ad.ts:197-207 | the URL is the tenant authority followed by "/oauth2/authorize?" and then the stringified query of the request's parameters after defaults and undefined-field removal |
| AzureAd.AuthorizationParamsContent | backend/src/middleware/authorization/azure-ad.ts:122-129 | the query asks for a code returned in the query string and carries client, tenant, redirect URI and resource. `state` is the nonce, and `login_hint` appears only when a user id is known |
| AzureAd.Cached | backend/src/middleware/authorization/azure-ad.ts:106-108 | a cached token exists only when the session holds an entry under the request's key for the resource and the browser sent its key cookie; the read creates the record |
| AzureAd.Nonce | backend/src/middleware/authorization/azure-ad.ts:120 | a non-empty nonce cookie is reused, otherwise the 64-digit hex of 32 fresh bytes; never empty |
| AzureAd.LoginRequest | backend/src/middleware/authorization/azure-ad.ts:122-129 | the authorize request carries the app id, the tenant, the resource, the nonce as state, the `/accept` URL and the signed-in user as hint |
| AzureAd.ChallengeCookies | backend/src/middleware/authorization/azure-ad.ts:130-136 | the nonce cookie expiring 60 s later, then the resource and redirect cookies, then the tenant cookie unless the tenant is "common" |
| AzureAd.Refresh | backend/src/middleware/authorization/azure-ad.ts:177-195 | refresh only ever calls next() or next(err) and attaches nothing |
| AzureAd.Attach | backend/src/middleware/authorization/azure-ad.ts:110-117 | the hit branch attaches exactly this token under its resource and sets `userId` from it |
| AzureAd.GetToken | backend/src/middleware/authorization/azure-ad.ts:72-76 | getAzureAdToken returns the token attached for the resource, or undefined |
| AzureAd.AttachThenGet | backend/src/middleware/authorization/azure-ad.ts:114-116 | what a guard attaches is what getAzureAdToken reads later, and other resources are unaffected |
| AzureAd.Challenge | backend/src/middleware/authorization/azure-ad.ts:119-141 | the miss branch redirects exactly in redirect mode and responds exactly in json mode, touching neither the request nor the locals |
| AzureAd.Authenticate | backend/src/middleware/authorization/azure-ad.ts:100-145 | a guard that calls next() has attached a token for its resource and set `userId` from it. It never detaches a token and changes only the session and cookies of the request. Only redirect mode redirects, and json mode answers only with 401 |
| AzureAd.Guards | backend/src/middleware/authorization/azure-ad.ts:60-68 | an empty chain passes; a passing chain has attached a token for every resource; tokens are never detached; a redirect only in redirect mode and a 401 only in json mode |
| AzureAd.Accept | backend/src/middleware/authorization/azure-ad.ts:147-175 | an `error` query echoes the query with 500; a missing code or a state other than the nonce cookie goes to next(err) with its message; nothing but success changes the exchange |
| AzureAd.TokensAccepted | backend/src/middleware/authorization/azure-ad.ts:78-82 | redirects to the non-empty redirect cookie or to "/", and clears that cookie |
| AzureAd.Login | backend/src/middleware/authorization/azure-ad.ts:84-90 | redirects to a non-empty `redirect` query, else 200 "Logged in" |
| AzureAd.AcceptRoute | backend/src/middleware/authorization/azure-ad.ts:65 | `/accept` always answers. A failed callback is answered as is; a successful one redirects after also clearing the redirect cookie |
| AzureAd.LoginRoute | backend/src/middleware/authorization/azure-ad.ts:67 | `/login` always answers: the first guard that does not pass answers, otherwise login's redirect or 200 "Logged in" |
| AzureAd.Namespaced | backend/src/middleware/authorization/azure-ad.ts:93-94 | the filtered ids are exactly the listed ids that start with "azuread"; a single id is kept exactly when it has the prefix |
| AzureAd.NamespacedAppend | backend/src/middleware/authorization/azure-ad.ts:93-94 | filtering distributes over concatenation, so the kept ids stay in list order |
| AzureAd.RemoveEach | backend/src/middleware/authorization/azure-ad.ts:95 | removing each id appends exactly the key-cookie clears, in order |
| AzureAd.RemoveEachEntries | backend/src/middleware/authorization/azure-ad.ts:93-95 | exactly the listed entries are deleted, the others kept, and the record stays well formed |
| AzureAd.Logout | backend/src/middleware/authorization/azure-ad.ts:92-98 | logout always answers 200 "You are now logged out" |
| AzureAdFlow.StoreKeepsTenant | backend/src/middleware/authorization/azure-ad.ts:180-186 | the refresh write never changes the tenant the guard resolves next |
| AzureAdFlow.RefreshSkipped | backend/src/middleware/authorization/azure-ad.ts:183-190 | without an expired cached token, refresh only creates the record and calls next() |
| AzureAdFlow.RefreshFails | backend/src/middleware/authorization/azure-ad.ts:103-104 | a failed refresh exchange reaches next(err) with its error and writes nothing |
| AzureAdFlow.RefreshWritesBack | backend/src/middleware/authorization/azure-ad.ts:180-190 | an expired token is refreshed, the refreshed token reads back under the same session key, no other entry changes, and next() is called |
| AzureAdFlow.RefreshThenHit | backend/src/middleware/authorization/azure-ad.ts:177-195 | an expired token is refreshed, written back under the same key with every other entry unchanged, and the same request's lookup attaches the refreshed token and its user |
| AzureAdFlow.GuardHit | backend/src/middleware/authorization/azure-ad.ts:110-118 | on a hit, the guard calls next() with exactly the cached token attached. The only cookie it sets is the tenant pin, and only for a specific tenant the cookie does not hold |
| AzureAdFlow.GuardMiss | backend/src/middleware/authorization/azure-ad.ts:119-141 | on a miss, next() is not called. The guard sets the challenge cookies and answers with the authorize redirect or the 401 login link, writing nothing to the session |
| AzureAdFlow.MissRedirectQuery | backend/src/middleware/authorization/azure-ad.ts:119-141 | on a redirect-mode miss the browser goes to the authority's authorize endpoint with response type code in the query, this app, tenant and resource, the nonce as state, the `/accept` URL and the user hint |
| AzureAdFlow.NonceReused | backend/src/middleware/authorization/azure-ad.ts:120-131 | a second challenge while the browser still holds the nonce cookie reuses that nonce, whatever it draws |
| AzureAdFlow.ChallengeJar | backend/src/middleware/authorization/azure-ad.ts:130-136 | the browser then holds the nonce (expiring 60 s later), the resource and the original URL, and the tenant exactly when it is specific. No other cookie changes |
| AzureAdFlow.AcceptUnfolds | backend/src/middleware/authorization/azure-ad.ts:163-169 | on success the callback stores, pins the tenant, clears nonce and resource, in that order, then next() |
| AzureAdFlow.AcceptStores | backend/src/middleware/authorization/azure-ad.ts:163-165 | the token is stored under the resource cookie and the token's own tenant, reads back, and no other entry changes |
| AzureAdFlow.AcceptCookies | backend/src/middleware/authorization/azure-ad.ts:165-168 | the callback's cookie actions are exactly: key cookie, tenant pin, clear nonce, clear resource |
| AzureAdFlow.StateMismatchRejected | backend/src/middleware/authorization/azure-ad.ts:160-161 | a state other than the nonce cookie is rejected and changes nothing |
| AzureAdFlow.GuardsStep | backend/src/middleware/authorization/azure-ad.ts:68 | a guard that calls next() hands its exchange to the rest of the chain |
| AzureAdFlow.GuardsAllCached | backend/src/middleware/authorization/azure-ad.ts:60-68 | when every resource has a fresh cached token, the whole chain passes and attaches each one, keeping other attached tokens |
| AzureAdFlow.GuardsAppend | backend/src/middleware/authorization/azure-ad.ts:68 | a chain split in two runs the second part on the first part's exchange exactly when the first part passes |
| AzureAdFlow.GuardsFirstMiss | backend/src/middleware/authorization/azure-ad.ts:60-68 | when the resources before k have fresh tokens and resource k has none, the chain answers with resource k's guard |
| AzureAdFlow.LoginAllCached | backend/src/middleware/authorization/azure-ad.ts:67 | with a fresh token for every resource, `/login` attaches them all and redirects to the `redirect` query or answers 200 "Logged in" |
| AzureAdFlow.LoginRouteFirstMiss | backend/src/middleware/authorization/azure-ad.ts:67 | with a first missing resource, `/login` answers with that resource's authorize redirect |
| AzureAdFlow.AuthorityShared | backend/src/middleware/authorization/azure-ad.ts:197-269 | the authorize URL and both token exchanges address the same authority: the configured one or the public Microsoft host, under the configured tenant |
| AzureAdFlow.LogoutClears | backend/src/middleware/authorization/azure-ad.ts:92-98 | logout removes exactly the "azuread" entries and keeps all others. The browser is left without the tenant cookie or their key cookies |
| AzureAdFlow.LogoutIdempotent | backend/src/middleware/authorization/azure-ad.ts:92-98 | logging out twice leaves the same session and browser jar as once |
| AzureAdFlow.AcceptJar | backend/src/middleware/authorization/azure-ad.ts:165-168 | after callback and tokensAccepted the browser holds the key cookie and the tenant, and no nonce, resource or redirect cookie |
| AzureAdFlow.ChallengeRound | backend/src/middleware/authorization/azure-ad.ts:119-141 | a json-mode miss answers 401 with the login URL and leaves the nonce, the resource and the return URL in the browser |
| AzureAdFlow.AcceptRouteSucceeds | backend/src/middleware/authorization/azure-ad.ts:65 | a successful `/accept` redirects to the return URL with the five cookie actions in order, and the token reads back |
| AzureAdFlow.CallbackRound | backend/src/middleware/authorization/azure-ad.ts:163-169 | the next request carries the token's tenant cookie and reads the stored token |
| AzureAdFlow.EndToEnd | backend/src/middleware/authorization/azure-ad.ts:100-175 | across three requests: challenge 401; a callback echoing the nonce redirects to the original URL; the retried request passes with the token attached |
| Throw.ThrowIfEmpty | backend/src/models/throw.ts:3-7 | throws exactly on the falsy values, with the RequestError "Missing input value: " followed by the input's name |
| Throw.TruthyAgrees | backend/src/models/throw.ts:4 | truthiness of a string-or-undefined read from a request agrees with the truthiness `throwIfEmpty` tests |
| Throw.FalsyIsNotTruthy | backend/src/models/throw.ts:4 | the listed falsy values are exactly the ones truthiness rejects |
| Throw.NonEmptyStringPasses | backend/src/models/throw.ts:3-7 | any non-empty string passes |
| Throw.MessageNamesInput | backend/src/models/throw.ts:5 | equal messages name the same input |
| Env.Lookup | backend/src/env.ts:21-29 | throws exactly when the variable is unset and no default is given, naming the variable. Otherwise it returns the set value, or the default |
| Env.ParseText | backend/src/env.ts:1-19 | each configuration name reads back as itself |
| Env.DefaultNeverThrows | backend/src/env.ts:22-28 | with a default, env never throws, and a set variable ignores the default |
| Env.MissingNamesVariable | backend/src/env.ts:23 | two missing-variable messages are equal only for the same variable |
| ErrorHandler.Status | backend/src/middleware/error-handler.ts:8-20 | every error gets 400, 404, 409 or 500 |
| ErrorHandler.HandleError | backend/src/middleware/error-handler.ts:7-24 | answers with `{error: {message, stack, status}}`, status in the body equal to the HTTP status, message kept, and a stack exactly for 500 |
| ErrorHandler.StatusRoundTrip | backend/src/middleware/error-handler.ts:11-20 | the error class can be read back from the status |
| ErrorHandler.StatusDeterminesClass | backend/src/middleware/error-handler.ts:11-20 | two errors answered with the same status are of the same class |
| ErrorHandler.ClientErrorsHideStack | backend/src/middleware/error-handler.ts:11-22 | not-found, request and conflict errors get a status below 500 and no stack |
| UserDb.Check | backend/src/models/user.ts:21 | a string argument is rejected exactly when empty |
| UserDb.IndexOf | backend/src/models/user.ts:101 | `indexOf` is -1 exactly for an absent role, and otherwise the first occurrence |
| UserDb.Get | backend/src/models/user.ts:20-33 | resolves true exactly for a non-empty existing id; "User not found" otherwise, or the missing-input error |
| UserDb.Create | backend/src/models/user.ts:53-69 | succeeds exactly for a present, non-empty, new id and adds only that user without a roles record. An existing id is the conflict "User exists". An absent user or id gives the missing-input error |
| UserDb.Remove | backend/src/models/user.ts:35-51 | succeeds exactly for a non-empty existing id and removes only that user |
| UserDb.Roles | backend/src/models/user.ts:71-82 | a missing roles record or user reads as no roles, otherwise the stored list |
| UserDb.AddRole | backend/src/models/user.ts:84-94 | a held role is a conflict. It succeeds exactly for an existing user lacking the role, appends the role at the end and changes no other user |
| UserDb.RemoveRole | backend/src/models/user.ts:96-107 | an unheld role is not found. It succeeds exactly when the role is held and changes no other user |
| UserDb.RemoveRoleRoles | backend/src/models/user.ts:100-105 | the new list is the old list with the first occurrence spliced out |
| UserDb.RemoveRoleMultiset | backend/src/models/user.ts:100-106 | exactly one copy of the role goes |
| UserDb.AddRoleValid | backend/src/models/user.ts:88-93 | addRole keeps every roles list duplicate-free |
| UserDb.RemoveRoleValid | backend/src/models/user.ts:100-106 | removeRole keeps lists duplicate-free, and then the role is gone |
| UserDb.AddThenRemoveRole | backend/src/models/user.ts:84-107 | granting then revoking a role restores the roles |
| UserDb.CreateThenGet | backend/src/models/user.ts:53-59 | a created user exists, has no roles, and cannot be created again |
| UserDb.RemoveThenGet | backend/src/models/user.ts:35-51 | a removed user is not found, and cannot be removed again |
| UserDb.CreateThenRemove | backend/src/models/user.ts:35-69 | create followed by remove restores the store |
| UserGuard.GraphToken | backend/src/middleware/user.ts:12 | the Graph token is present exactly when a guard attached one, and is that token |
| UserGuard.Overlaps | backend/src/middleware/user.ts:19 | `some` holds exactly when some role is allowed |
| UserGuard.Decide | backend/src/middleware/user.ts:14-25 | an unknown user is passed to next(err) as not found; otherwise next() or 403 |
| UserGuard.UserRole | backend/src/middleware/user.ts:9-27 | userRole never changes the exchange. Without a Graph token it reaches next(err) |
| UserGuard.UserRoleAdmits | backend/src/middleware/user.ts:14-22 | userRole passes exactly the known users holding an allowed role |
| UserGuard.UserRoleForbids | backend/src/middleware/user.ts:17-24 | a known user without an allowed role gets 403 |
| UserGuard.UserRoleAfterGraphHit | backend/src/middleware/user.ts:12-22 | behind a Graph guard that found a fresh token, userRole decides on that token's user |
| UserGuard.NoRolesNoEntry | backend/src/middleware/user.ts:9-27 | with no allowed roles nobody passes |
| UserGuard.CurrentUser | backend/src/middleware/user.ts:29-40 | passes exactly when the route parameter strictly equals the token's user id, else 403; no token is an error |
| UserGuard.CurrentUserAfterGraphHit | backend/src/middleware/user.ts:29-40 | behind a Graph guard that found a fresh token, currentUser passes exactly when the route parameter is that token's user, and otherwise answers 403 |
| UserGuard.CurrentUserBothAbsent | backend/src/middleware/user.ts:34 | a token with no user id passes a route without the parameter, because `undefined === undefined` |

## Left out

- AES-256-CBC, `JSON.stringify`/`JSON.parse`, UTF-8 and `querystring.stringify` are foreign code. They are function-valued parameters, and only the round-trip laws are assumed.
- The adal-node network exchanges and `getAppPassword` are parameters (`Adal.TokenEndpoint`). Their internal errors and timing are not modelled.
- `Date.now()`, `new Date()` and `randomBytes` are parameters: `now`, `KeyMaterial` and `Draw`.
- The browser jar (`Http.Jar`) does not age cookies. The nonce cookie's 60-second expiry is recorded in its options but is never enforced.
- `Object.keys` lists integer-like names first in numeric order. The model keeps pure insertion order. The two agree whenever no id is an array index, and every id `azure-ad.ts` writes starts with "azuread".
- Truthiness of NaN, -0 and floating point values is left out: `Throw.JsValue` numbers are integers.
- A JSON payload that parses to a falsy value (`null`, `0`, `""`) is treated as a value. The guard's `if (token)` would treat it as missing.
- `TokenResponse` fields are taken as the source reads them (`token.resourceId`, `token.tenantId`, `token.userId`); `expiresOn` is milliseconds.
- AzureAd.AcquireToken: the tenant argument of `acquireToken` is unused in the source, so the model drops it.
- `azureAdOAuth`'s Express router wiring is modelled by `AcceptRoute`, `LoginRoute` and `Guards`. Express path matching is not.
- UserGuard.UserRole: the TypeError text for a missing Graph token (`NO_TOKEN`) is approximated, because the engine's wording is not part of the source.
- UserDb.AddRole: the `writeFile` error for a user without a directory (`WRITE_FAILED`) is approximated.
- UserDb.Remove: rimraf itself treats a missing path as success, so `remove` of an unknown id resolves in the source. The model follows the code's ENOENT branch instead and reports "User not found". The only caller, the users router (backend/src/routers/users-router.ts:56-62 and 71-76), reaches `remove` only after `get` confirmed the user, so the two agree on every path the application takes.
- UserDb: ids are opaque keys of `Db.users`. The source interpolates them into `data/users/${id}` paths, so ".", ".." and ids containing "/" address other directories: `get("..")` resolves true, `create(".")` is a conflict, `remove("..")` deletes all of `data/`, and `addRole("alice/certs", r)` writes inside another user's directory. The isolation properties (`Remove` and `Create` change no other user) hold only for ids without such path syntax.
- UserDb.Roles: a corrupt `roles.json` (the catch swallows non-ENOENT errors and yields `undefined`) is not modelled. The roles record is always a list or absent.
- UserDb.Create: key generation (`ipsec pki`, `key.pem`) is shell-invoked and not modelled. Neither is a non-EEXIST failure of `mkdir`.
- `UserDb.list`, `hasCertAuthority`, `hasCert`, `certAuthorities`, `certs`, `exportCert` and `fingerprint` lie outside this core.
- `session.ts` (express-session with the Mongo store) and `index.ts` are wiring. The session is the `Session` record of a request.
- Concurrency between requests, and the async interleaving of `tryPromise`, are not modelled; each handler is one atomic step.
- ErrorHandler.HandleError: the stack text is produced by the runtime, so it is a parameter.
- The confidentiality and tamper-evidence of the session entries cannot be stated over an abstract cipher. Only the round trip and isolation between ids are proved.
- `request-error.ts`, `not-found-error.ts` and `conflict-error.ts` are not part of this model. Their classes are the `Errors.ErrorClass` constructors, which carry the message only.
