/** Failure-compatible result types shared by every module of the model. */
module Wrappers {

  /** A value that may be absent; Python's `None` is `None`. */
  datatype Option<+T> = None | Some(value: T)

  /** The value of a Python call, or the exception it raises. */
  datatype Result<+T, +E> = Ok(value: T) | Err(error: E)

  /** A Python call that returns nothing useful, or the exception it raises. */
  datatype Outcome<+E> = Pass | Fail(error: E)
}
