/** Optional values and success/failure results, standing in for
    `undefined` returns and for the `{ success, data | error }` objects
    of the TypeScript source. */
module Wrappers {

  datatype Option<+T> = None | Some(value: T)

  datatype Result<+R, +E> = Success(value: R) | Failure(error: E)
}
