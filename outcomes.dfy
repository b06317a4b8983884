/** Option and Result: the value of a read that may be missing, and the outcome of a
    call that may revert or throw. */
module Outcomes {

  datatype Option<+T> = None | Some(value: T)

  datatype Result<+T, +E> = Success(value: T) | Failure(error: E)
}
