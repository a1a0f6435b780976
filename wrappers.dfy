/** Option and Result, the failure-compatible types used by every parser below. */
module Wrappers {

  datatype Option<+T> = None | Some(value: T) {

    /** Turns an absent value into the given error. */
    function ToResult<E>(error: E): Result<T, E>
    {
      match this
      case Some(v) => Success(v)
      case None => Failure(error)
    }
  }

  datatype Result<+T, +E> = Success(value: T) | Failure(error: E) {

    predicate IsFailure()
    {
      Failure?
    }

    function PropagateFailure<U>(): Result<U, E>
      requires Failure?
    {
      Failure(error)
    }

    function Extract(): T
      requires Success?
    {
      value
    }

    /** A success as a present value, for a step that may also be skipped. */
    function AsSome(): Result<Option<T>, E>
    {
      match this
      case Success(v) => Success(Some(v))
      case Failure(e) => Failure(e)
    }
  }
}
