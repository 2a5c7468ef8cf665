/** Failure-compatible result types shared by the rest of the model. */
module Wrappers {

  datatype Option<+T> = None | Some(value: T)

  /** The outcome of a step that yields a value or fails with an error. */
  datatype Result<+R, +E> = Success(value: R) | Failure(error: E) {
    predicate IsFailure() {
      Failure?
    }

    function PropagateFailure<U>(): Result<U, E>
      requires Failure?
    {
      Failure(error)
    }

    function Extract(): R
      requires Success?
    {
      value
    }
  }

  /** The outcome of a step that yields nothing but may fail. */
  datatype Outcome<+E> = Pass | Fail(error: E)
}
