/** Failure-compatible wrappers used for the source's exceptions and null values. */
module Wrappers {

  /** A Java reference that may be null, or a Ruby value that may be nil. */
  datatype Option<+T> = None | Some(value: T) {
    function GetOr(default: T): T {
      match this
      case Some(v) => v
      case None => default
    }
  }

  /** A call that either returns a value or throws an error. */
  datatype Result<+R, +E> = Success(value: R) | Failure(error: E) {
    predicate IsFailure() { Failure? }

    function PropagateFailure<U>(): Result<U, E>
      requires Failure?
    {
      Failure(error)
    }

    function Extract(): R
      requires Success?
    {
      value
    }
  }

  /** A call that returns nothing or throws an error. */
  datatype Outcome<+E> = Pass | Fail(error: E)
}
