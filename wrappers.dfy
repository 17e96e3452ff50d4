/** Optional values and success-or-error outcomes shared by every module. */
module Wrappers {

  /** A value that may be absent (an optional field, `undefined`). */
  datatype Option<+T> = None | Some(value: T)

  /** The outcome of an operation that can fail (a thrown error). */
  datatype Result<+T, +E> = Ok(value: T) | Err(error: E)
}
