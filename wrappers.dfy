/** Optional values and results: JavaScript's `undefined` and thrown errors, made explicit. */
module Wrappers {

  /** A value that may be absent (a missing JSON key, `null` or `undefined`). */
  datatype Option<+T> = None | Some(value: T)

  /** Either a value or an error. */
  datatype Result<+T, +E> = Ok(value: T) | Err(error: E)
}
