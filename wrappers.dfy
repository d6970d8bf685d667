/** Failure-compatible result types shared by the model. */
module Wrappers {

  /** A value that may be missing: pandas' NaN in an object or categorical column. */
  datatype Option<+T> = None | Some(value: T)

  /** The outcome of a library call that either succeeds or raises. */
  datatype Result<+R, +E> = Success(value: R) | Failure(error: E) {
    predicate IsFailure() {
      Failure?
    }

    function PropagateFailure<U>(): Result<U, E>
      requires Failure?
    {
      Failure(error)
    }

    function Extract(): R
      requires Success?
    {
      value
    }
  }
}
