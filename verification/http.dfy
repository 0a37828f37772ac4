/**
 * The slice of Express the handlers see: the request (headers, parsed
 * cookies, query, route params, session), the response under construction
 * (cookie actions in order, `res.locals`) and how a handler finishes.
 */
module Http {
  import opened Wrappers
  import opened Errors
  import opened JsObject
  import opened Adal

  /** `req.session`; `encrypted` is created lazily by the session store. */
  datatype Session = Session(encrypted: Option<Object>)

  datatype Request = Request(
    protocol: string,
    headers: map<string, string>,
    cookies: map<string, string>,
    query: map<string, string>,
    params: map<string, string>,
    baseUrl: string,
    originalUrl: string,
    session: Session)

  /** `res.locals.azureAd` (resource id to token) and `res.locals.userId`. */
  datatype Locals = Locals(azureAd: map<string, TokenResponse>, userId: Option<string>)

  datatype CookieOptions = CookieOptions(httpOnly: bool, expires: Option<int>)

  const PlainCookie := CookieOptions(false, None)

  datatype CookieAction =
    | SetCookie(name: string, value: string, options: CookieOptions)
    | ClearCookie(name: string)

  datatype Response = Response(cookies: seq<CookieAction>, locals: Locals)

  datatype Body =
    | NoBody
    | Text(text: string)
    | LoginLink(login: string)
    | QueryEcho(query: map<string, string>)
    // `{error: {message, stack, status}}`; an `undefined` stack is omitted
    | ErrorReport(message: string, stack: Option<string>, status: int)

  /**
   * How a handler finishes: `next()`, `next(err)`, `res.redirect(url)`
   * (a 302) or `res.status(code)` with a body.
   */
  datatype Outcome =
    | Next
    | NextErr(error: Error)
    | Redirect(location: string)
    | Respond(status: int, body: Body)

  datatype Exchange = Exchange(req: Request, res: Response)

  datatype Step = Step(ex: Exchange, outcome: Outcome)

  /** `m[k]`, or `undefined`. */
  function Lookup(m: map<string, string>, k: string): Option<string> {
    if k in m then Some(m[k]) else None
  }

  /** A string-or-undefined is truthy when it is a non-empty string. */
  predicate Truthy(v: Option<string>) {
    v.Some? && v.value != ""
  }

  /** `a || b` on a string-or-undefined. */
  function Or(a: Option<string>, b: string): (r: string)
    ensures Truthy(a) ==> r == a.value
    ensures !Truthy(a) ==> r == b
  {
    if Truthy(a) then a.value else b
  }

  /** A string-or-undefined interpolated into a template literal. */
  function Interpolate(v: Option<string>): string {
    match v
    case Some(s) => s
    case None => "undefined"
  }

  function AddCookie(ex: Exchange, a: CookieAction): (r: Exchange)
    ensures r.req == ex.req && r.res.locals == ex.res.locals
    ensures r.res.cookies == ex.res.cookies + [a]
  {
    ex.(res := ex.res.(cookies := ex.res.cookies + [a]))
  }

  /** The browser's cookie jar after it applies one cookie action. */
  function Apply(jar: map<string, string>, a: CookieAction): (r: map<string, string>)
    ensures a.SetCookie? ==> r == jar[a.name := a.value]
    ensures a.ClearCookie? ==> r == jar - {a.name}
  {
    match a
    case SetCookie(name, value, _) => jar[name := value]
    case ClearCookie(name) => jar - {name}
  }

  /** The browser's cookie jar after it applies a response's cookie actions in order. */
  function Jar(jar: map<string, string>, actions: seq<CookieAction>): (r: map<string, string>)
    decreases |actions|
  {
    if actions == [] then jar
    else Apply(Jar(jar, actions[..|actions| - 1]), actions[|actions| - 1])
  }

  lemma JarSnoc(jar: map<string, string>, actions: seq<CookieAction>, a: CookieAction)
    ensures Jar(jar, actions + [a]) == Apply(Jar(jar, actions), a)
  {
    assert (actions + [a])[..|actions|] == actions;
  }

  lemma {:induction false} JarAppend(jar: map<string, string>, a: seq<CookieAction>, b: seq<CookieAction>)
    ensures Jar(jar, a + b) == Jar(Jar(jar, a), b)
    decreases |b|
  {
    if b == [] {
      assert a + b == a;
    } else {
      var b' := b[..|b| - 1];
      assert (a + b)[..|a + b| - 1] == a + b';
      JarAppend(jar, a, b');
    }
  }

  /** A cookie no action names keeps its value in the jar. */
  lemma {:induction false} JarUntouched(jar: map<string, string>, actions: seq<CookieAction>, name: string)
    requires forall i :: 0 <= i < |actions| ==> actions[i].name != name
    ensures Lookup(Jar(jar, actions), name) == Lookup(jar, name)
    decreases |actions|
  {
    if actions != [] {
      JarUntouched(jar, actions[..|actions| - 1], name);
    }
  }
}
