/** Optional values and results for the bots' missing fields and raised errors. */
module Wrappers {

  /** A value that may be absent, as `dict.get` returns `None` for a missing key. */
  datatype Option<+T> = None | Some(value: T)

  /** The outcome of a call that either returns a value or raises an error. */
  datatype Result<+T, +E> = Ok(value: T) | Err(error: E)
}
