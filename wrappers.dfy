/** Option and Result, shared by the CoinScan model. */
module Wrappers {

  /** An optional value: `None` stands for Python's "nothing here". */
  datatype Option<+T> = None | Some(value: T)

  /** The outcome of an operation that may raise: `Failure` carries the exception. */
  datatype Result<+R, +E> = Success(value: R) | Failure(error: E)
}
