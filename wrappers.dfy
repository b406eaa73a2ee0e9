/** Option and Result, the two failure-carrying shapes the model needs. */
module Wrappers {

  /** std::optional / a nullable pointer. */
  datatype Option<+T> = None | Some(value: T)

  /** base::expected: a value or an error. */
  datatype Result<+R, +E> = Success(value: R) | Failure(error: E)
}
