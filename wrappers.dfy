/** Small failure-carrying datatypes shared by every module of the model. */
module Wrappers {

  /** A value that may be absent (Python's `None`). */
  datatype Option<T> = None | Some(value: T)

  /** The result of an operation that may raise: `Err` carries what was raised. */
  datatype Result<T, E> = Ok(value: T) | Err(error: E)
}
