/**
 * The error classes the backend throws. `NotFoundError`, `RequestError` and
 * `ConflictError` are subclasses of `Error`; every other failure (a plain
 * `new Error(...)`, a rejected token exchange, a TypeError) is `PlainError`.
 */
module Errors {

  datatype ErrorClass = NotFoundError | RequestError | ConflictError | PlainError

  datatype Error = Error(kind: ErrorClass, message: string)
}
