/** Failure-compatible wrappers shared by the modules of this model. */
module Wrappers {
  /** A value that may be absent (a null handle, a missing item). */
  datatype Option<+T> = None | Some(value: T)

  /** The outcome of a check that either passes or fails with an error (a C++ throw). */
  datatype Outcome<+E> = Pass | Fail(error: E)

  /** A value or the error thrown instead of it. */
  datatype Result<+T, +E> = Ok(value: T) | Err(error: E)
}
