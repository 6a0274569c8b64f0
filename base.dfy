/** Option and Result, shared by every module of the model. */
module Base {

  /** A value that may be missing: an unset field, an absent key, JavaScript's `undefined` or `null`. */
  datatype Option<+T> = None | Some(value: T)

  /** The outcome of an operation that completes normally or throws. */
  datatype Result<+T, +E> = Success(value: T) | Failure(error: E)
}
