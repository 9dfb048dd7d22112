/** Option and Result values, used where the source returns None or raises. */
module Wrappers {
  datatype Option<T> = None | Some(value: T)

  /** `Err` stands for an exception raised by the modelled code. */
  datatype Result<T, E> = Ok(value: T) | Err(error: E)
}
