/** Optional values and the success-or-failure results that the health store hands to callbacks. */
module Wrappers {

  datatype Option<+T> = None | Some(value: T)

  /** The `Result<T, Error>` a completion handler receives; the error itself is never inspected. */
  datatype Fetch<+T> = Success(value: T) | Failure
}
