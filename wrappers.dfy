/** Failure-carrying wrappers shared by every module of the model. */
module Wrappers {

  /** An optional value: Go's `(v, ok)` pairs and "empty means absent" strings. */
  datatype Option<+T> = None | Some(value: T)

  /** A value or an error: Go's `(v, err)` pairs. */
  datatype Result<+T, +E> = Ok(value: T) | Err(error: E)
}
