/** Failure-compatible wrappers used for the library's error cascades. */
module Results {

  /** A value that may be absent. */
  datatype Option<+T> = None | Some(value: T) {

    /** The value, or the given error when there is none. */
    function ToResultOr<E>(error: E): Result<T, E> {
      match this
      case Some(v) => Success(v)
      case None => Failure(error)
    }
  }

  /** Either a computed value or the error that stopped the computation. */
  datatype Result<+T, +E> = Success(value: T) | Failure(error: E) {

    predicate IsFailure() {
      Failure?
    }

    function PropagateFailure<U>(): Result<U, E>
      requires Failure?
    {
      Failure(error)
    }

    function Extract(): T
      requires Success?
    {
      value
    }
  }
}
