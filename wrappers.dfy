/** Failure-carrying wrappers shared by every module of the model. */
module Wrappers {

  /** An optional value (Rust `Option`, PHP `null` or a value). */
  datatype Option<T> = None | Some(value: T)

  /** A success value or an error value (Rust `Result`). */
  datatype Result<T, E> = Ok(value: T) | Err(error: E)
}
