/** The `Option` and `Result` wrappers shared by the other modules. */
module Wrappers {

  /** A value that may be absent (Python's `None`). */
  datatype Option<+T> = None | Some(value: T)

  /** A value or the reason it could not be produced (a Python exception). */
  datatype Result<+T, +E> = Ok(value: T) | Err(error: E)
}
