/** Optional values and error-or-value results, used wherever the source has a
    nullable value (`T | null`) or a fetch that returns `{ data, error }`. */
module Wrappers {

  datatype Option<+T> = None | Some(value: T)

  datatype Result<+T, +E> = Success(value: T) | Failure(error: E)
}
