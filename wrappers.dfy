/** Failure-compatible result types shared by the rest of the model. */
module Wrappers {

  datatype Option<+T> = None | Some(value: T)

  /** A value or the exception that the Python code would raise instead. */
  datatype Result<+R, +E> = Success(value: R) | Failure(error: E) {

    predicate IsFailure() {
      Failure?
    }

    function PropagateFailure<U>(): Result<U, E>
      requires Failure?
    {
      Failure(error)
    }

    function Extract(): R
      requires Success?
    {
      value
    }
  }
}
