/** Option and Result, the failure-carrying values shared by the modules of this project. */
module Outcomes {

  /** A value that may be absent: the model of a Java reference field that may hold `null`. */
  datatype Option<+T> = None | Some(value: T)

  /** The outcome of a Java call that either returns a value or throws. */
  datatype Result<+T, +E> = Success(value: T) | Failure(error: E)
}
