/** Optional values and results with an error, shared by every module of the model. */
module Wrappers {

  /** A value that may be missing: Go's `(v, ok)` pairs and nil pointers. */
  datatype Option<+T> = None | Some(value: T)

  /** A value or the error that replaced it: Go's `(v, err)` pairs. */
  datatype Result<+T, +E> = Ok(value: T) | Err(error: E)
}
