/** Failure-carrying wrappers shared by the generator and the front end. */
module Outcomes {

  /** A value that may be absent (a missing dictionary entry, an unparsed reply body). */
  datatype Option<+T> = None | Some(value: T)

  /** The outcome of an operation that either yields a value or raises an error. */
  datatype Result<+T, +E> = Success(value: T) | Failure(error: E)
}
