/** Optional values (Python's `None` or a value) and outcomes that may carry an escaping exception. */
module Wrappers {

  /** A value that may be Python's `None`. */
  datatype Option<+T> = None | Some(value: T)

  /** Either a value or the message of an exception that escapes the operation. */
  datatype Result<+T, +E> = Ok(value: T) | Raised(error: E)
}
