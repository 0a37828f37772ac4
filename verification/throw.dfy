/**
 * `throwIfEmpty(val, name)`: the input validator every store operation runs
 * before touching the filesystem. It tests JavaScript truthiness, so it
 * rejects more than the empty string.
 */
module Throw {
  import opened Wrappers
  import opened Errors
  import Http

  /** The JavaScript values an untyped input can hold (numbers are integers here). */
  datatype JsValue = Undefined | Null | Bool(b: bool) | Number(n: int) | Str(s: string) | Object

  /** `!!v`. */
  predicate Truthy(v: JsValue) {
    match v
    case Undefined => false
    case Null => false
    case Bool(b) => b
    case Number(n) => n != 0
    case Str(s) => s != ""
    case Object => true
  }

  /** The falsy values, listed: `undefined`, `null`, `false`, `0` and `''`. */
  predicate Falsy(v: JsValue) {
    v == Undefined || v == Null || v == Bool(false) || v == Number(0) || v == Str("")
  }

  /** A string that may be `undefined`, as a JavaScript value. */
  function OfString(v: Option<string>): (r: JsValue)
    ensures v.None? ==> r == Undefined
    ensures v.Some? ==> r == Str(v.value)
  {
    match v
    case None => Undefined
    case Some(s) => Str(s)
  }

  function MissingInput(name: string): Error {
    Error(RequestError, "Missing input value: " + name)
  }

  /** `throwIfEmpty(val, name)`. */
  function ThrowIfEmpty(v: JsValue, name: string): (r: Outcome<Error>)
    ensures r.Fail? <==> Falsy(v)
    ensures r.Fail? ==> r.error == MissingInput(name)
    ensures r.Fail? ==> r.error.kind == RequestError && r.error.message == "Missing input value: " + name
    ensures r.Fail? ==> |r.error.message| >= 21 && r.error.message[21..] == name
  {
    if !Truthy(v) then Fail(MissingInput(name)) else Pass
  }

  /** A header, cookie or query value read from a request: a string or undefined. */
  function OfOption(v: Option<string>): JsValue {
    match v
    case None => Undefined
    case Some(s) => Str(s)
  }

  /** Truthiness of a string-or-undefined is the truthiness of the value it denotes. */
  lemma TruthyAgrees(v: Option<string>)
    ensures Http.Truthy(v) <==> Truthy(OfOption(v))
  {
  }

  /** The falsy values are exactly the ones truthiness rejects. */
  lemma FalsyIsNotTruthy(v: JsValue)
    ensures Falsy(v) <==> !Truthy(v)
  {
  }

  /** A non-empty string never raises, whatever it holds. */
  lemma NonEmptyStringPasses(s: string, name: string)
    requires s != ""
    ensures ThrowIfEmpty(Str(s), name) == Pass
  {
  }

  /** The error names the input: two rejections with the same message are about the same input. */
  lemma MessageNamesInput(v: JsValue, a: string, w: JsValue, b: string)
    requires ThrowIfEmpty(v, a).Fail? && ThrowIfEmpty(w, b).Fail?
    requires ThrowIfEmpty(v, a) == ThrowIfEmpty(w, b)
    ensures a == b
  {
    var m := ThrowIfEmpty(v, a).error.message;
    assert a == m[21..] == b;
  }
}
