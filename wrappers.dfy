/** Result and outcome values standing in for the exceptions the rotation engine raises. */
module Wrappers {

  /** A value, or the error that stopped its computation. */
  datatype Result<+T, +E> = Success(value: T) | Failure(error: E)

  /** A value, or none. */
  datatype Option<+T> = Some(value: T) | None

  /** Success without a value, or the error that stopped the operation. */
  datatype Outcome<+E> = Pass | Fail(error: E)
}
