/** Option and Result values used for the error returns of the modelled Go code. */
module Outcomes {

  datatype Option<+T> = None | Some(value: T)

  /** A Go `(value, error)` pair where exactly one half is meaningful. */
  datatype Result<+T, +E> = Success(value: T) | Failure(error: E)
}
