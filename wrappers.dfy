/** Option and Result, with the failure-compatible members that let `:-`
    mirror Rust's `?` operator. */
module Wrappers {

  datatype Option<+T> = None | Some(value: T) {

    /** `Option::ok_or`: a missing value becomes the given error. */
    function OkOr<E>(error: E): Result<T, E> {
      match this
      case Some(v) => Success(v)
      case None => Failure(error)
    }
  }

  datatype Result<+T, +E> = Success(value: T) | Failure(error: E) {

    predicate IsFailure() {
      Failure?
    }

    function PropagateFailure<U>(): Result<U, E>
      requires Failure?
    {
      Failure(error)
    }

    function Extract(): T
      requires Success?
    {
      value
    }
  }
}
