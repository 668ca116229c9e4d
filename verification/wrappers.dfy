/** Failure-compatible wrappers used throughout the model. */
module Wrappers {

  /** An optional value: used for JavaScript values that may be absent. */
  datatype Option<+T> = None | Some(value: T)

  /** The outcome of a request handler: a value or an error. */
  datatype Result<+R, +E> = Success(value: R) | Failure(error: E) {

    predicate IsFailure() {
      Failure?
    }

    function PropagateFailure<U>(): Result<U, E>
      requires Failure?
    {
      Failure(error)
    }

    function Extract(): R
      requires Success?
    {
      value
    }
  }
}
