/** Failure-carrying values shared by every module of the model. */
module Wrappers {

  /** A value that may be absent (Go's nil, a missing map key). */
  datatype Option<+T> = None | Some(value: T)

  /** A value or an error (Go's `(value, error)` pair with exactly one of them meaningful). */
  datatype Result<+T, +E> = Ok(value: T) | Err(error: E)
}
