/**
 * `errorHandler`: the last Express middleware, turning whatever reached
 * `next(err)` into an HTTP status and a JSON error report. The stack text is
 * produced by the runtime, so it is a parameter.
 */
module ErrorHandler {
  import opened Wrappers
  import opened Errors
  import opened Http

  /** The status each error class maps to. */
  function Status(kind: ErrorClass): (r: int)
    ensures r in {400, 404, 409, 500}
  {
    match kind
    case NotFoundError => 404
    case RequestError => 400
    case ConflictError => 409
    case PlainError => 500
  }

  /** `errorHandler(err, req, res, next)` with `err.stack == stack`. */
  function HandleError(err: Error, stack: string): (r: Http.Outcome)
    ensures r.Respond? && r.body.ErrorReport?
    ensures r.status in {400, 404, 409, 500}
    ensures r.body.status == r.status
    ensures r.body.message == err.message
    ensures r.body.stack.Some? <==> r.status == 500
    ensures r.body.stack.Some? ==> r.body.stack.value == stack
  {
    var status := Status(err.kind);
    Respond(status, ErrorReport(err.message, if err.kind == PlainError then Some(stack) else None, status))
  }

  /** The class an HTTP status of this handler came from. */
  function ClassOf(status: int): Option<ErrorClass> {
    if status == 404 then Some(NotFoundError)
    else if status == 400 then Some(RequestError)
    else if status == 409 then Some(ConflictError)
    else if status == 500 then Some(PlainError)
    else None
  }

  /** The status mapping is one-to-one: a client can read the error class back from the status. */
  lemma StatusRoundTrip(kind: ErrorClass)
    ensures ClassOf(Status(kind)) == Some(kind)
  {
  }

  /** Two reports with the same status came from errors of the same class. */
  lemma StatusDeterminesClass(e1: Error, s1: string, e2: Error, s2: string)
    requires HandleError(e1, s1).status == HandleError(e2, s2).status
    ensures e1.kind == e2.kind
  {
    StatusRoundTrip(e1.kind);
    StatusRoundTrip(e2.kind);
  }

  /** The three client-facing classes never leak the stack. */
  lemma ClientErrorsHideStack(err: Error, stack: string)
    requires err.kind != PlainError
    ensures HandleError(err, stack).body.stack == None
    ensures HandleError(err, stack).status < 500
  {
  }
}
