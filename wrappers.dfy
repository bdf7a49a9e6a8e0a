/** Failure-compatible values shared by the modules of the model. */
module Wrappers {

  datatype Option<T> = None | Some(value: T)

  /** The outcome of an operation of `GameBoard.py` that can raise: the value,
      or the error it raises. */
  datatype Result<T, E> = Ok(value: T) | Err(error: E)
}
