/** Option, Result and Outcome: the shapes of Go's `(T, error)` and `error` returns. */
module Wrappers {

  /** A value that may be absent (a nil pointer, a nil map, a nil interface). */
  datatype Option<+T> = None | Some(value: T)

  /** A value or an error: Go's `(T, error)` pair where exactly one side is meaningful. */
  datatype Result<+T, +E> = Success(value: T) | Failure(error: E)

  /** Go's bare `error` return: nil (`Pass`) or an error value (`Fail`). */
  datatype Outcome<+E> = Pass | Fail(error: E)

  /** Go's `error` values are modelled by their `Error()` text. */
  type Error = string
}
