/** Failure-carrying datatypes: the Ruby code raises an exception where these return `Err`/`Fail`. */
module Wrappers {

  datatype Option<+T> = None | Some(value: T)

  datatype Result<+T, +E> = Ok(value: T) | Err(error: E)

  /** The outcome of an operation that changes state and returns nothing of interest. */
  datatype Outcome<+E> = Pass | Fail(error: E)
}
