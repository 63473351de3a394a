/** Result types shared by the modules of this model. */
module Wrappers {

  datatype Option<+T> = None | Some(value: T)

  /** The value of a Python call that either returns or raises. */
  datatype Result<+T, +E> = Success(value: T) | Failure(error: E)

  /** A call that returns nothing of interest, or raises. */
  datatype Outcome<+E> = Pass | Fail(error: E)
}
