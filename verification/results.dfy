/** Failure-compatible wrappers used in place of Python's exceptions and `None`. */
module Results {

  /** A value that may be absent, as `find_duplicate` returns an item or nothing. */
  datatype Option<+T> = None | Some(value: T)

  /** Either a computed value or the error the Python code would have raised. */
  datatype Result<+T, +E> = Success(value: T) | Failure(error: E) {

    predicate IsFailure() {
      Failure?
    }

    function PropagateFailure<U>(): Result<U, E>
      requires Failure?
    {
      Failure(error)
    }

    function Extract(): T
      requires Success?
    {
      value
    }
  }
}
