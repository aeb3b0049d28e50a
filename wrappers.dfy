/** Failure-compatible wrappers shared by the model. */
module Wrappers {

  datatype Option<+T> = None | Some(value: T)

  /** A value, or the error that a JavaScript `throw` would have carried. */
  datatype Result<+T, +E> = Success(value: T) | Failure(error: E) {
    predicate IsFailure() { Failure? }

    function PropagateFailure<U>(): Result<U, E>
      requires Failure?
    {
      Failure(error)
    }

    function Extract(): T
      requires Success?
    {
      value
    }
  }

  /** How an `async` function settles: resolved, or rejected with an error. */
  datatype Outcome<+E> = Pass | Fail(error: E)
}
