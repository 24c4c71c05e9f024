/** Option and Result datatypes shared by the other modules. */
module Wrappers {

  /** A value that may be absent; `None` plays the role of Go's nil. */
  datatype Option<+T> = None | Some(value: T)

  /** Either a result or an error. */
  datatype Result<+R, +E> = Success(value: R) | Failure(error: E)
}
