/** Option and result wrappers used by the bowling model. */
module Results {

  /** A value that may be absent. */
  datatype Option<+T> = None | Some(value: T)

  /** The outcome of an operation that either produces a value or fails. */
  datatype Result<+T, +E> = Success(value: T) | Failure(error: E)

  /** The outcome of an operation that produces nothing but may fail. */
  datatype Outcome<+E> = Pass | Fail(error: E)
}
