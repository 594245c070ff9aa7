/** Option and Result, the two failure-compatible wrappers the model uses for
    Python's None and for exceptions that escape a call. */
module Wrappers {

  datatype Option<+T> = None | Some(value: T)

  /** Either the value a Python call returns or the exception it raises. */
  datatype Result<+T, +E> = Success(value: T) | Failure(error: E) {

    predicate IsFailure() {
      Failure?
    }

    function PropagateFailure<U>(): Result<U, E>
      requires Failure?
    {
      Failure(error)
    }

    function Extract(): T
      requires Success?
    {
      value
    }
  }
}
