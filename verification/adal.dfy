/**
 * The surface of the adal-node client the handlers consume: the token
 * record and the two token-endpoint exchanges (RFC 6749 section 4.1.3 and
 * section 6). The exchanges are network calls and are parameters of the
 * model; each either resolves to a token or rejects with an error.
 */
module Adal {
  import opened Wrappers
  import opened Errors

  /** A TokenResponse; `expiresOn` is the expiry instant in milliseconds. */
  datatype TokenResponse = TokenResponse(
    accessToken: string,
    refreshToken: string,
    expiresOn: int,
    resourceId: string,
    tenantId: string,
    userId: Option<string>,
    givenName: string,
    familyName: string,
    oid: string)

  /**
   * `appPassword` is the outcome of `options.getAppPassword()`.
   * `byCode(authority, code, redirectUri, resource, clientId, secret)` is
   * acquireTokenWithAuthorizationCode; `byRefresh(authority, refreshToken,
   * clientId, secret, resource)` is acquireTokenWithRefreshToken.
   */
  datatype TokenEndpoint = TokenEndpoint(
    appPassword: Result<string, Error>,
    byCode: (string, string, string, Option<string>, string, string) -> Result<TokenResponse, Error>,
    byRefresh: (string, string, string, string, string) -> Result<TokenResponse, Error>)
}
