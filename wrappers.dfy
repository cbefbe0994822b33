/** Small value wrappers shared by every module. */
module Wrappers {

  /** A possibly-absent value. For an observable slot, `None` is the loading state. */
  datatype Option<+T> = None | Some(value: T)
  {
    /** The value, or `default` when there is none (a null argument's stand-in). */
    function UnwrapOr(default: T): T
    {
      if Some? then value else default
    }
  }

  /** The outcome of calling user code that may throw: a value, or an exception that was caught. */
  datatype Computation<+T> = Value(value: T) | Threw

  /** A value, or the exception an operation throws instead. */
  datatype Result<+T, +E> = Ok(value: T) | Err(error: E)
}
