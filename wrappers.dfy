/** Option and Result, the shapes of Python's `None` and of a raised exception, and the errors raised. */
module Wrappers {

  datatype Option<+T> = None | Some(value: T)

  datatype Result<+T, +E> = Ok(value: T) | Err(error: E)

  /** Failures that cross the broker boundary: the exchange library's, or a missing dictionary key. */
  datatype Error = ExchangeError(message: string) | KeyError(key: string)
}
