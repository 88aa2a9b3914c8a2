/** Failure-carrying datatypes shared by the modules of this project. */
module Wrappers {

  /** A value that may be absent. */
  datatype Option<+T> = None | Some(value: T)

  /** A computation that either produces a value or raises an error. */
  datatype Result<+T, +E> = Ok(value: T) | Err(error: E)

  /** A computation that produces no value and either completes or raises an error. */
  datatype Outcome<+E> = Pass | Fail(error: E)
}
