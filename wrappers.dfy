/** Failure-compatible wrappers shared by the scenario model. */
module Wrappers {

  /** An optional dictionary entry: `None` when the key is absent. */
  datatype Option<+T> = None | Some(value: T)

  /** The outcome of a computation that may raise. */
  datatype Result<+T, +E> = Ok(value: T) | Err(error: E)
}
