/** Option and Result types for the client, and the failures it can raise.

    The Ruby library raises three families of exceptions: `TimeTree::Error`
    (validation and client-not-bound failures, carrying a message),
    `TimeTree::ApiError` (an unexpected HTTP status), and plain Ruby runtime
    errors (NoMethodError, TypeError, ArgumentError) that escape when a value
    has an unexpected shape. Each is a `Failure` here.
 */
module Outcomes {
  import opened JsonData

  datatype Option<+T> = None | Some(value: T)

  /** The fields of `TimeTree::ApiError`: `type`, `title` and `errors` are
      copied from the response body, so they may be any JSON value. */
  datatype ApiError = ApiError(errType: Json, title: Json, errors: Json, status: int)

  datatype Failure =
    /** `TimeTree::Error` with its message. */
    | Error(message: string)
    /** `TimeTree::Error` for an unrecognised `type` tag; its message is
        built by Resources.UnknownTypeMessage. */
    | UnknownType(tag: Json)
    /** `Time.parse` rejected a time-valued attribute (ArgumentError or TypeError). */
    | InvalidTime
    /** `TimeTree::ApiError`. */
    | Api(err: ApiError)
    /** A Ruby NoMethodError or TypeError: `name` was applied to a value
        that does not support it. */
    | NoMethod(name: string)
    /** A Ruby ArgumentError: `callee` was called with the wrong number of arguments. */
    | Arity(callee: string)
    /** A Ruby ArgumentError from comparing an Integer with a non-Integer. */
    | Comparison

  datatype Result<+T> = Ok(value: T) | Fail(failure: Failure) {
    predicate IsFailure() {
      Fail?
    }

    function PropagateFailure<U>(): Result<U>
      requires Fail?
    {
      Fail(failure)
    }

    function Extract(): T
      requires Ok?
    {
      value
    }
  }
}
