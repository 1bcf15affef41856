/** Option and Result, the two failure-carrying datatypes the model uses. */
module Wrappers {

  /** A value that may be missing: Java's `null` reference. */
  datatype Option<+T> = None | Some(value: T)

  /** The outcome of an operation that can throw: `Err` carries the reason. */
  datatype Result<+T> = Ok(value: T) | Err(reason: string)
}
