/** Optional values and results, as used by the session model. */
module Wrappers {

  /** A value that may be absent (a Python `None`, or a dict key that was never set). */
  datatype Option<+T> = None | Some(value: T)

  /** Either a value or the error that prevented computing it. */
  datatype Result<+T, +E> = Ok(value: T) | Err(error: E)
}
