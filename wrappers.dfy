/** Optional values and results used throughout the model. */
module Wrappers {

  /** An optional value: Go's nil map, an absent decode result. */
  datatype Option<+T> = None | Some(value: T)

  /** A value or an error, for Go's `(value, error)` returns. */
  datatype Result<+T, +E> = Success(value: T) | Failure(error: E)
}
