/** Option and Result values standing in for Go's nil handles and `(value, error)` returns. */
module Wrappers {

  /** A possibly-absent value: `None` is Go's nil interface or nil pointer. */
  datatype Option<+T> = None | Some(value: T)

  /** Either a successful value or an error, in place of Go's `(T, error)` pair. */
  datatype Result<+T, +E> = Success(value: T) | Failure(error: E)
}
