/** Failure-carrying values shared by every module of the model. */
module Wrappers {

  /** A value that may be absent: a SQL NULL, an undefined JavaScript property,
      a query that found no row. */
  datatype Option<+T> = None | Some(value: T)

  /** The outcome of an operation that may throw: `Failure` carries the
      rendered error (what `${error}` produces in the source). */
  datatype Result<+T> = Success(value: T) | Failure(error: string)
}
