/** Failure-carrying values shared by both widgets. */
module Wrappers {

  /** A value that may be absent, where the widgets use null or a missing entry. */
  datatype Option<+T> = None | Some(value: T)

  /** The outcome of a validation: the accepted value, or the alert shown instead. */
  datatype Result<+T, +E> = Ok(value: T) | Err(error: E)
}
