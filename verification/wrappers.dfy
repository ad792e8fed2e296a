/** Failure-carrying wrappers shared by the other modules. */
module Wrappers {

  /** A value that may be absent: Python's `None` or an `Optional[...]` result. */
  datatype Option<+T> = None | Some(value: T)

  /** A value or the exception that would have been raised instead. */
  datatype Result<+T, +E> = Ok(value: T) | Err(error: E)
}
