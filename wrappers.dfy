/** Failure-carrying values shared by every module of the calculator model. */
module Wrappers {

  /** A value that may be absent (Python's `None`). */
  datatype Option<+T> = None | Some(value: T)

  /** The value an operation returns, or the exception it raises. */
  datatype Result<+T, +E> = Success(value: T) | Failure(error: E) {
    predicate IsFailure() {
      Failure?
    }

    function PropagateFailure<U>(): Result<U, E>
      requires Failure?
    {
      Failure(error)
    }

    function Extract(): T
      requires Success?
    {
      value
    }
  }

  /** The outcome of an operation that returns nothing (Python's `-> None`) or raises. */
  datatype Outcome<+E> = Pass | Fail(error: E)
}
