/** Option and Result, used where the service returns null or faults. */
module Wrappers {

  /** A value that may be absent (C#'s null from `FirstOrDefault`). */
  datatype Option<T> = None | Some(value: T)

  /** The outcome of a call that either completes or faults. */
  datatype Result<T, E> = Ok(value: T) | Err(error: E)
}
