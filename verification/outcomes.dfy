/** Optional values and results shared by every module of the model. */
module Outcomes {

  /** Python's `Optional[T]`: `None` or a value. */
  datatype Option<+T> = None | Some(value: T)

  /** A value, or the exception that was raised instead of returning it. */
  datatype Result<+T, +E> = Ok(value: T) | Err(error: E)
}
