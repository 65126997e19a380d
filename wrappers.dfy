/** Optional values and results, used where the source has `undefined` or a thrown error. */
module Wrappers {

  /** `undefined` (None) or a present value. */
  datatype Option<+T> = None | Some(value: T)

  /** A value, or the error a schema parse would have thrown. */
  datatype Result<+R, +E> = Success(value: R) | Failure(error: E)
}
