/** Failure-carrying datatypes shared by the predictor and the evaluation of one submission. */
module Wrappers {

  /** A value that may be absent, such as a trained model that could not be loaded. */
  datatype Option<+T> = None | Some(value: T)

  /** The outcome of a step that can raise: a value, or the error it raised. */
  datatype Result<+T, +E> = Ok(value: T) | Err(error: E)
}
