/** Option and Result, the two failure-carrying values used throughout the model.
    A Go `(T, error)` pair becomes a `Result<T, Error>`; a Go pointer that may be nil
    becomes an `Option`. */
module Wrappers {

  datatype Option<+T> = None | Some(value: T)

  datatype Result<+T, +E> = Success(value: T) | Failure(error: E)
}
