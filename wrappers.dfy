/** Option and Result, shared by the other modules. */
module Wrappers {

  /** A value that may be absent (the source's `null` / `undefined`). */
  datatype Option<+T> = None | Some(value: T)

  /** A computation that either succeeds or fails with an error value. */
  datatype Result<+T, +E> = Success(value: T) | Failure(error: E)
}
