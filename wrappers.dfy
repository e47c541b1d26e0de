/** Plain wrapper datatypes: an optional value, a value-or-error result and a pass-or-fail outcome. */
module Wrappers {

  datatype Option<+T> = None | Some(value: T)

  /** The outcome of an operation that either produces a value or raises an error. */
  datatype Result<+T, +E> = Ok(value: T) | Err(error: E)

  /** The outcome of a check that produces nothing on success. */
  datatype Outcome<+E> = Pass | Fail(error: E)
}
