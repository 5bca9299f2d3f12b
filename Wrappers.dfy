/** Optional values and results with an error, shared by the other modules. */
module Wrappers {

  /** A value that may be absent: a missing JSON field, an unset environment variable, an empty cache. */
  datatype Option<+T> = None | Some(value: T)

  /** The outcome of an operation that either returns a value or fails with an error (a thrown exception). */
  datatype Result<+T, +E> = Ok(value: T) | Err(error: E)
}
