/** Option and Result values, for absent fields and for thrown errors. */
module Wrappers {

  datatype Option<+T> = None | Some(value: T)

  /** What a call that may throw gives back: its value, or the error thrown. */
  datatype Result<+T, +E> = Ok(value: T) | Err(error: E)

  /** What a call that returns nothing or throws gives back. */
  datatype Outcome<+E> = Pass | Fail(error: E)
}
