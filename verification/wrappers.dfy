/** Option and Result values, used for Python's `None` and for raised exceptions. */
module Wrappers {

  datatype Option<+T> = None | Some(value: T)

  /** `Err` stands for an exception raised by the modelled code or by a callee. */
  datatype Result<+T, +E> = Ok(value: T) | Err(error: E)
}
