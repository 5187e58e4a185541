/** Optional values and results shared by the model's modules. */
module Wrappers {

  /** A value that may be absent (a missing storage key, a `find` that matched nothing). */
  datatype Option<+T> = None | Some(value: T)

  /** The outcome of an operation that can fail. */
  datatype Result<+R, +E> = Success(value: R) | Failure(error: E)
}
