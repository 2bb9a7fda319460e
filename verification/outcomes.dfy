/** Option and Result: the shapes of "maybe present" values and of remote calls that settle either way. */
module Outcomes {

  datatype Option<+T> = None | Some(value: T)

  /** How one remote call settled: with the record it returned or with the error it reported. */
  datatype Result<+T, +E> = Ok(value: T) | Err(error: E)
}
