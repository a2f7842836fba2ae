/** Small failure-carrying datatypes shared by the other modules. */
module Wrappers {

  datatype Option<+T> = None | Some(value: T)

  /** The outcome of a lookup or validation that either yields a value or fails. */
  datatype Result<+T, +E> = Ok(value: T) | Err(error: E)

  /** The outcome of a check that yields nothing on success. */
  datatype Outcome<+E> = Pass | Fail(error: E)
}
