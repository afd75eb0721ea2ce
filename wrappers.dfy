/** Option and Result, the failure-carrying values used across the model. */
module Wrappers {

  datatype Option<+T> = None | Some(value: T)

  /** `Failure` stands for the error a step hands on (a thrown error, `next(error)`). */
  datatype Result<+R, +E> = Success(value: R) | Failure(error: E)
}
