/** Results shared by the dispatcher and the entry parser. */
module Outcomes {

  datatype Option<+T> = None | Some(value: T)

  /** The value a transform step produces, or the argument error it raises. */
  datatype Result<+R, +E> = Success(value: R) | Failure(error: E)

  /** The outcome of an argument check that yields no value. */
  datatype Check<+E> = Pass | Fail(error: E)
}
