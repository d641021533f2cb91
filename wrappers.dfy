/** Option and Result, used by the firmware and the console models alike. */
module Wrappers {

  datatype Option<+T> = None | Some(value: T)

  /** A computation that either produced a value or failed with a message. */
  datatype Result<+T, +E> = Ok(value: T) | Failure(error: E)
}
