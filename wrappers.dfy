/** Optional values and error results shared by every module of the model. */
module Wrappers {

  /** A value that may be missing (Python's `None`). */
  datatype Option<+T> = None | Some(value: T)

  /** The outcome of an operation that either yields a value or raises. */
  datatype Result<+T> = Ok(value: T) | Err(msg: string)

  /** The outcome of an operation that yields nothing or raises. */
  datatype Outcome = Pass | Fail(msg: string)
}
