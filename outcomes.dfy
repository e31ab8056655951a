/** Optional values and results with a named failure, used where the
    estimator looks up a table entry or refuses its input. */
module Outcomes {

  datatype Option<+T> = None | Some(value: T)

  datatype Result<+T, +E> = Success(value: T) | Failure(error: E)
}
