/** Failure-compatible wrappers shared by the other modules. */
module Wrappers {

  datatype Option<+T> = None | Some(value: T)

  /** The value of a Go call that returns `(T, error)`: exactly one side is present. */
  datatype Result<+T, +E> = Success(value: T) | Failure(error: E)
}
