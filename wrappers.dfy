/** Failure-compatible wrappers: an optional value (a Java reference that may be null)
    and the outcome of a call that either returns a value or throws. */
module Wrappers {

  datatype Option<+T> = None | Some(value: T)

  /** `Success(v)`: the call returned `v`; `Failure(e)`: the call threw `e`. */
  datatype Result<+R, +E> = Success(value: R) | Failure(error: E)
}
