/** Option and Result, used where the repository returns null or throws. */
module Wrappers {

  /** A value that may be absent: PHP's nullable `?T`. */
  datatype Option<+T> = None | Some(value: T)

  /** Either a value or the exception the repository would throw. */
  datatype Result<+R, +E> = Success(value: R) | Failure(error: E)
}
