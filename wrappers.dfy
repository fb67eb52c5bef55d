/** Option and Result values for the model's absent values and raised errors. */
module Wrappers {

  /** Python's `None` versus a present value (also JavaScript's `undefined`). */
  datatype Option<+T> = None | Some(value: T)

  /** A value, or the exception an operation raises instead of returning it. */
  datatype Result<+T, +E> = Ok(value: T) | Err(error: E)

  /** An operation that returns `None` on success or raises. */
  datatype Outcome<+E> = Pass | Fail(error: E)
}
