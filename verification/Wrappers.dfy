/** Failure-compatible result types shared by the whole model. */
module Wrappers {

  /** A value that may be absent (a JavaScript `undefined`). */
  datatype Option<+T> = None | Some(value: T)

  /** The value of a step, or the exception that aborted it. */
  datatype Result<+R, +E> = Success(value: R) | Failure(error: E)
}
