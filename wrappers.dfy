/** Failure-carrying values shared by the modules of the model. */
module Wrappers {

  /** A value that may be absent. */
  datatype Option<+T> = None | Some(value: T)

  /** The value of a Python call that returns normally or raises. */
  datatype Result<+R, +E> = Success(value: R) | Failure(error: E)

  /** A Python call that returns nothing or raises. */
  datatype Outcome<+E> = Pass | Fail(error: E)

  /** Python's built-in exception raised by the core, with its message. */
  datatype PyError = ValueError(message: string)
}
