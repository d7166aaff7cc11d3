/** Optional values and error results shared by the other modules. */
module Wrappers {

  /** A value that may be absent (Python's `None`). */
  datatype Option<+T> = None | Some(value: T)

  /** The outcome of an operation that may raise an error with a message. */
  datatype Result<+T> = Ok(value: T) | Err(message: string)
}
