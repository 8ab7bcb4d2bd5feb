/** Optional values and success/failure results, usable with `:-`. */
module Wrappers {

  /** A value that may be absent (Java's `Optional`, Python's `None`). */
  datatype Option<+T> = None | Some(value: T)

  /** The outcome of an operation that can raise: a value or an error. */
  datatype Result<+T, +E> = Success(value: T) | Failure(error: E) {

    predicate IsFailure() {
      Failure?
    }

    function PropagateFailure<U>(): Result<U, E>
      requires Failure?
    {
      Failure(error)
    }

    function Extract(): T
      requires Success?
    {
      value
    }
  }
}
