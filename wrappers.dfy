/** Failure-carrying result types shared by the analysis model. */
module Wrappers {

  /** A value that may be absent; the sensitivity sweep uses None where the
      source records a not-a-number valuation. */
  datatype Option<+T> = None | Some(value: T)

  /** The outcome of an operation that the source lets raise an exception. */
  datatype Result<+T, +E> = Success(value: T) | Failure(error: E)
}
