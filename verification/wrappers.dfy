/** Optional values and handler results, shared by every module of the model. */
module Wrappers {

  /** A value that may be absent (Python's `None`). */
  datatype Option<+T> = None | Some(value: T)

  /** The outcome of a request handler: a reply, or the error it raises. */
  datatype Result<+T, +E> = Success(value: T) | Failure(error: E)
}
