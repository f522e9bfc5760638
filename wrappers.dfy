/** Optional values and error results shared by the other modules. */
module Wrappers {

  /** A nullable value: a Python `Optional[...]` or a nullable column. */
  datatype Option<+T> = None | Some(value: T)

  /** The outcome of an operation that can fail: a value, or the error the source raises. */
  datatype Result<+T, +E> = Ok(value: T) | Err(error: E)
}
