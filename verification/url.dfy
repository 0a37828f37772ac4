/**
 * Absolute URLs built behind a reverse proxy: the forwarded protocol, host
 * and path prefix take precedence over what the server itself saw.
 */
module Url {
  import opened Wrappers
  import opened Http

  /** `x-forwarded-proto || req.protocol`. */
  function Proto(req: Request): (r: string)
    ensures Truthy(Lookup(req.headers, "x-forwarded-proto")) ==> r == req.headers["x-forwarded-proto"]
    ensures !Truthy(Lookup(req.headers, "x-forwarded-proto")) ==> r == req.protocol
  {
    Or(Lookup(req.headers, "x-forwarded-proto"), req.protocol)
  }

  /** `x-forwarded-host || host`; an absent Host header reads as "undefined". */
  function Host(req: Request): (r: string)
    ensures Truthy(Lookup(req.headers, "x-forwarded-host")) ==> r == req.headers["x-forwarded-host"]
    ensures !Truthy(Lookup(req.headers, "x-forwarded-host")) ==> r == Interpolate(Lookup(req.headers, "host"))
  {
    Or(Lookup(req.headers, "x-forwarded-host"), Interpolate(Lookup(req.headers, "host")))
  }

  /** `x-forwarded-prefix || ''`. */
  function Prefix(req: Request): (r: string)
    ensures Truthy(Lookup(req.headers, "x-forwarded-prefix")) ==> r == req.headers["x-forwarded-prefix"]
    ensures !Truthy(Lookup(req.headers, "x-forwarded-prefix")) ==> r == ""
  {
    Or(Lookup(req.headers, "x-forwarded-prefix"), "")
  }

  /** The scheme-and-authority part every URL of this request shares. */
  function Origin(req: Request): string {
    Proto(req) + "://" + Host(req) + Prefix(req)
  }

  /** `getUrl(req, path)`. */
  function GetUrl(req: Request, path: string): (r: string)
    ensures |r| >= |path| && r[|r| - |path|..] == path
    ensures |r| >= |Proto(req)| + 3 && r[..|Proto(req)| + 3] == Proto(req) + "://"
    ensures r == Origin(req) + path
  {
    Proto(req) + "://" + Host(req) + Prefix(req) + path
  }

  /** With no forwarded headers the URL is what the server saw. */
  lemma Unproxied(req: Request, path: string)
    requires "x-forwarded-proto" !in req.headers
    requires "x-forwarded-host" !in req.headers
    requires "x-forwarded-prefix" !in req.headers
    ensures GetUrl(req, path) == req.protocol + "://" + Interpolate(Lookup(req.headers, "host")) + path
  {
  }

  /** Behind a proxy that sets all three forwarded headers, the URL is built from them alone. */
  lemma Forwarded(req: Request, path: string, proto: string, host: string, prefix: string)
    requires Lookup(req.headers, "x-forwarded-proto") == Some(proto) && proto != ""
    requires Lookup(req.headers, "x-forwarded-host") == Some(host) && host != ""
    requires Lookup(req.headers, "x-forwarded-prefix") == Some(prefix) && prefix != ""
    ensures GetUrl(req, path) == proto + "://" + host + prefix + path
  {
  }

  /** Building a URL distributes over path concatenation. */
  lemma Concat(req: Request, a: string, b: string)
    ensures GetUrl(req, a + b) == GetUrl(req, a) + b
  {
  }

  /** Two URLs of one request differ exactly when their paths differ. */
  lemma PathDetermines(req: Request, a: string, b: string)
    ensures GetUrl(req, a) == GetUrl(req, b) <==> a == b
  {
    if GetUrl(req, a) == GetUrl(req, b) {
      var o := Origin(req);
      assert GetUrl(req, a) == o + a && GetUrl(req, b) == o + b;
      assert a == (o + a)[|o|..] && b == (o + b)[|o|..];
    }
  }
}
