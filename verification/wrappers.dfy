/** Failure-carrying values shared by every module: an optional value and a
    value-or-error result, standing for Go's `(T, error)` pairs and nil. */
module Wrappers {

  datatype Option<+T> = None | Some(value: T)

  datatype Result<+T, +E> = Success(value: T) | Failure(error: E)
}
