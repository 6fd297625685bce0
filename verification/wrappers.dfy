/** Failure-carrying datatypes shared by every module of the model. */
module Wrappers {

  /** A value that may be absent; `None` stands for Go's nil. */
  datatype Option<+T> = None | Some(value: T)

  /** The `(value, error)` pair of a Go call: exactly one of the two is meaningful. */
  datatype Result<+T, +E> = Ok(value: T) | Err(error: E)

  /** A Go call either returns or panics at run time (nil dereference,
      failed type assertion, write to a nil map, slice out of range, ...). */
  datatype Run<+T> = Returns(value: T) | Panics(reason: string)
}
