/** Small value types shared by every module of the model. */
module Common {
  /** Python's `None` or a value. */
  datatype Option<T> = None | Some(value: T)

  /** A value, or the exception the source raises instead of returning one. */
  datatype Result<T> = Ok(value: T) | Fail(error: string)

  /**
   * The answer of an end-point query of an estimator (`get_left_end` and
   * friends): a number, Python's `None`, or `Undefined` where the source
   * raises, produces a complex number or an infinite endpoint instead.
   */
  datatype Answer = Root(x: real) | NoRoot | Undefined
}
