/** Failure-carrying return values shared by the scoring modules. */
module Results {

  /** A value that may be absent, e.g. a dashboard answer for an empty ledger. */
  datatype Option<+T> = None | Some(value: T)

  /** The outcome of an operation that raises on bad input in the Python service. */
  datatype Result<+T, +E> = Success(value: T) | Failure(error: E)
}
