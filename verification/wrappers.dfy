/** Failure-carrying wrappers shared by every module of the crawler model. */
module Wrappers {

  /** Python's `None` or a present value. */
  datatype Option<+T> = None | Some(value: T)

  /** A computation that either produced a value or raised. */
  datatype Result<+R, +E> = Success(value: R) | Failure(error: E)
}
