/** Failure-carrying datatypes shared by the model. */
module Wrappers {

  datatype Option<+T> = None | Some(value: T)

  /** A value, or the error that stopped the computation (a thrown SdkException). */
  datatype Result<+T, +E> = Ok(value: T) | Err(error: E)

  /** Success without a value, or the error of the first check that failed. */
  datatype Outcome<+E> = Pass | Fail(error: E)
}
