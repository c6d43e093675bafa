/** Small shared value types. */
module Common {

  /** A value that may be absent: Python's `None` versus a present value. */
  datatype Option<+T> = None | Some(value: T)

  /** The uncaught Python exceptions the modelled code can raise: a missing
      dictionary key, and a call of `None`. */
  datatype Fault = KeyError | TypeError
}
