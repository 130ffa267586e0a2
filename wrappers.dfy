/** Failure-carrying datatypes shared by the group-creation model. */
module Wrappers {

  datatype Option<+T> = None | Some(value: T)

  /** A value or the error the source would throw instead. */
  datatype Result<+R, +E> = Success(value: R) | Failure(error: E)

  /** A check that either passes or throws one error. */
  datatype Outcome<+E> = Pass | Fail(error: E)
}
