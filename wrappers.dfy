/** Optional values and the outcome type the services return. */
module Wrappers {

  datatype Option<T> = None | Some(value: T)

  /** A service outcome: success, or failure with an error message. */
  datatype Result = Success | Failure(error: string)
}
