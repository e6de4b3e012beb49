/** Optional values and results, shared by the other modules. */
module Base {

  /** A value that may be missing: JavaScript's `null`/`undefined` on one side, a value on the other. */
  datatype Option<+T> = None | Some(value: T)

  /** The outcome of an operation that either produces a value or fails with an error. */
  datatype Result<+T, +E> = Success(value: T) | Failure(error: E)
}
