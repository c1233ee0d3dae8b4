/** Option, Result and Outcome: the shapes in which the model returns a value, an absent value or the
    exception the source throws. */
module Wrappers {

  datatype Option<+T> = None | Some(value: T)

  /** A call that returns a value or throws an exception. */
  datatype Result<+T, +E> = Ok(value: T) | Err(error: E)

  /** A call that returns nothing of interest (or `$this`) or throws an exception. */
  datatype Outcome<+E> = Pass | Fail(error: E)
}
