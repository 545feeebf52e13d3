/** Optional values and results, for Python's `None` and raised exceptions. */
module Wrappers {

  datatype Option<+T> = None | Some(value: T)

  /** `Err` stands for an exception that the Python code raises (or lets escape). */
  datatype Result<+T, +E> = Ok(value: T) | Err(error: E)
}
