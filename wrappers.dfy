/** Option and Result types shared by the registry and the filter. */
module Wrappers {

  /** An optional value: Go's nil pointer or absent field is None. */
  datatype Option<+T> = None | Some(value: T)

  /** A value or an error, as a Go function returning (T, error). */
  datatype Result<+T, +E> = Success(value: T) | Failure(error: E)
}
