/** Option and Result values, and the Python exceptions the model surfaces. */
module Wrappers {

  /** A value that may be missing, as when a Python dict has no such key or
      a lookup answers None. */
  datatype Option<+T> = None | Some(value: T)

  /** The outcome of a computation that may raise. */
  datatype Result<+T, +E> = Success(value: T) | Failure(error: E)

  /** The Python exceptions that the modelled code lets escape. */
  datatype PyError = IndexError | KeyError | ValueError | OverflowError
}
