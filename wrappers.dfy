/** Optional values and results shared by the modules of this model. */
module Wrappers {

  /** A value that may be absent: JavaScript's `null` ids, Go's omitted JSON fields. */
  datatype Option<+T> = None | Some(value: T)

  /** The outcome of an operation that may fail with an error of type `E`. */
  datatype Result<+T, +E> = Ok(value: T) | Err(error: E)
}
