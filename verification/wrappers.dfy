/** Failure-compatible wrappers shared by every module of the model. */
module Wrappers {

  /** An optional value: `None` stands for Python's `None` or an absent key. */
  datatype Option<+T> = None | Some(value: T)

  /** A value or an error: the model of a Python call that may raise. */
  datatype Result<+T, +E> = Ok(value: T) | Err(error: E)
}
