/** Optional values and success-or-error results, standing in for TypeScript's
    `undefined`-able fields and for thrown errors. */
module Wrappers {

  datatype Option<+T> = None | Some(value: T)

  datatype Result<+R, +E> = Success(value: R) | Failure(error: E)
}
