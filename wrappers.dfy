/** Failure-carrying values used in place of the source's exceptions. */
module Wrappers {

  datatype Option<+T> = None | Some(value: T)

  /** `Failure(error)` carries the message the source would have put in its exception (`str(e)`). */
  datatype Result<+T> = Success(value: T) | Failure(error: string)
}
