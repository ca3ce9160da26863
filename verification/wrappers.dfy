/** Failure-carrying result types shared by every module of the model. */
module Wrappers {

  /** An optional value; `None` stands for Go's `nil`. */
  datatype Option<+T> = None | Some(value: T)

  /** The `(value, error)` pair returned by Go functions: exactly one side is set. */
  datatype Result<+T, +E> = Ok(value: T) | Err(error: E)
}
