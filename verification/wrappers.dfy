/** Small failure-carrying datatypes used across the model. */
module Wrappers {

  /** An optional value (the source's Swift optionals). */
  datatype Option<+T> = None | Some(value: T)

  /** The outcome of an operation that either succeeds or fails with an error value. */
  datatype Outcome<+E> = Pass | Fail(error: E)
}
