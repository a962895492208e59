/** Optional values and results, standing for Go's nil-able values and (value, error) pairs. */
module Wrappers {

  /** `None` is Go's nil (a nil map, a nil error, an unset *semver.Version). */
  datatype Option<+T> = None | Some(value: T)

  /** A value or the error that replaced it. */
  datatype Result<+R, +E> = Success(value: R) | Failure(error: E)
}
