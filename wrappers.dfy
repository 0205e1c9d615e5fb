/** Option and Result datatypes shared by the model's modules. */
module Wrappers {

  datatype Option<+T> = None | Some(value: T)

  /** A computation that either produces a value or raises an exception. */
  datatype Result<+R, +E> = Ok(value: R) | Err(error: E)
}
