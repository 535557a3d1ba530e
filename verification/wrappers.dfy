/** Failure-compatible result type used for every fallible step of the pipeline. */
module Wrappers {

  datatype Option<+T> = None | Some(value: T)

  /** Either a value, or the reason the operation gave up. */
  datatype Result<+R, +E> = Success(value: R) | Failure(error: E) {

    predicate IsFailure() {
      Failure?
    }

    function PropagateFailure<U>(): Result<U, E>
      requires Failure?
    {
      Failure(error)
    }

    function Extract(): R
      requires Success?
    {
      value
    }
  }
}
