/** Small failure-carrying datatypes shared by the other modules. */
module Wrappers {

  /** A value that may be missing; `None` stands for Python's `None` result. */
  datatype Option<+T> = None | Some(value: T)

  /** The outcome of an operation that stores a value or raises an error. */
  datatype Result<+R, +E> = Ok(value: R) | Err(error: E)
}
