/** Failure-carrying result types shared by the model. */
module Wrappers {

  /** A value that may be absent: the weather fetch returns a reading or nothing. */
  datatype Option<+T> = None | Some(value: T)

  /** The outcome of an operation that either produces a value or raises. */
  datatype Result<+T, +E> = Ok(value: T) | Err(error: E)
}
