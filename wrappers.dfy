/** Option and Result, the failure-carrying values used throughout the model. */
module Wrappers {

  /** A nullable reference of the source: `None` stands for Java's null. */
  datatype Option<+T> = None | Some(value: T)

  /** The outcome of an operation that either produces a value or refuses with an error. */
  datatype Result<+T, +E> = Ok(value: T) | Fail(error: E)
}
