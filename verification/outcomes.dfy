/** Optional values and results with an error path, shared by the console modules. */
module Outcomes {

  /** A value that may be absent: JavaScript's `null` or `undefined`. */
  datatype Option<+T> = None | Some(value: T)

  /** The outcome of an operation that can throw in the source. */
  datatype Result<+T, +E> = Ok(value: T) | Err(error: E)
}
