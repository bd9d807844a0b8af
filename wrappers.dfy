/** Option, Result and Outcome datatypes used throughout the model: Python's
    `None` becomes `Option.None`, a raised exception becomes `Result.Failure`. */
module Wrappers {

  datatype Option<+T> = None | Some(value: T)

  datatype Result<+R, +E> = Success(value: R) | Failure(error: E)

  /** The outcome of a check that either passes or raises with a payload. */
  datatype Outcome<+E> = Pass | Fail(error: E)
}
