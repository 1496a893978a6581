/** Failure-carrying wrappers shared by every module of the model. */
module Wrappers {

  /** A value that may be absent: a Go reference that may be nil, or a lookup that may find nothing. */
  datatype Option<+T> = None | Some(value: T)

  /** The outcome of a handler: a value, or the error the handler answers with. */
  datatype Result<+R, +E> = Success(value: R) | Failure(error: E)

  /** The outcome of a validator: nil (Pass) or the error it returns (Fail). */
  datatype Outcome<+E> = Pass | Fail(error: E)
}
