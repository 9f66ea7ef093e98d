/** Option and Result, shared by every module of the model: Go's
    nil-able pointers become Option, and the `(value, error)` return pairs
    become Result. */
module Wrappers {

  /** A value that may be absent (a Go pointer that may be nil). */
  datatype Option<+T> = None | Some(value: T)

  /** Either a value or the error that replaced it. */
  datatype Result<+T, +E> = Success(value: T) | Failure(error: E)
}
