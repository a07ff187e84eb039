/** Failure-carrying wrappers used throughout the model: `Option` for the
    source's `None`-able attributes and arguments, `Result` for operations
    that may raise a Python exception. */
module Wrappers {

  /** A value that may be absent; `None` is Python's `None`. */
  datatype Option<+T> = None | Some(value: T)

  /** The outcome of an operation that either returns normally or raises. */
  datatype Result<+R, +E> = Success(value: R) | Failure(error: E)
}
