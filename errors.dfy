/** The failures the idempotency guard and its handler can report, and the
    wrapper datatypes the model uses for Go's `(value, error)` and `error` returns. */
module Errors {

  /** The error values that reach a caller. */
  datatype Error =
    | Unavailable  // a store command did not complete: network failure or deadline
    | Nil          // go-redis reports a missing hash field as the error `redis.Nil`
    | Corrupt      // stored bytes do not decode into the result type
    | Unencodable  // the result value could not be encoded
    | SaveFailed   // the business record write failed

  /** An optional value. */
  datatype Option<+T> = None | Some(value: T) {
    predicate IsFailure() { None? }

    function PropagateFailure<U>(): Option<U>
      requires None?
    {
      None
    }

    function Extract(): T
      requires Some?
    {
      value
    }
  }

  /** Go's `error` return: nil (`Pass`) or an error. */
  datatype Outcome = Pass | Fail(error: Error)

  /** A value or the error that prevented it. */
  datatype Result<+T> = Ok(value: T) | Err(error: Error)
}
