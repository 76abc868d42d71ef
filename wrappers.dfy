/** Option and Result shapes used by the model of the chat handler. */
module Wrappers {

  /** A value that may be absent (Python's `Optional[...]`, `None` being absent). */
  datatype Option<+T> = None | Some(value: T)

  /** The outcome of a call that either returns a value or fails with an error. */
  datatype Result<+R, +E> = Success(value: R) | Failure(error: E)
}
