/** Stock optional-value and result datatypes used throughout the model. */
module Wrappers {

  /** `None` stands for JavaScript's `undefined` or `null` where the source does not tell them apart. */
  datatype Option<+T> = None | Some(value: T)

  datatype Result<+T, +E> = Ok(value: T) | Err(error: E)
}
