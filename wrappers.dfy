/** Failure-carrying values shared by the modules of the snapshot tool model. */
module Wrappers {

  /** A value that may be absent (Python's `None`). */
  datatype Option<+T> = None | Some(value: T)

  /** The value of a call that either returns normally or raises. */
  datatype Result<+R, +E> = Success(value: R) | Failure(error: E)
}
