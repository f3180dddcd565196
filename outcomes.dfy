/** Optional values and success-or-error results, used for JavaScript's
    `undefined` and for the exceptions the handlers throw and catch. */
module Outcomes {

  datatype Option<+T> = None | Some(value: T)

  datatype Result<+T, +E> = Success(value: T) | Failure(error: E)
}
