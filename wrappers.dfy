/** Failure-compatible wrappers shared by the modules of the city-map bot. */
module Wrappers {

  /** An optional value: SQL `fetchone()` returning a row or `None`. */
  datatype Option<+T> = None | Some(value: T)

  /** A value or the error a storage call raised. */
  datatype Result<+T, +E> = Success(value: T) | Failure(error: E)
}
