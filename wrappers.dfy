/** Option, Result and Outcome: the failure-carrying values that stand for
    Python's `None` and for exceptions raised by the modelled code. */
module Wrappers {

  /** `None` stands both for a Python `None` and for an attribute that was never set. */
  datatype Option<+T> = None | Some(value: T)

  /** The outcome of a call that returns a value or raises. */
  datatype Result<+R, +E> = Success(value: R) | Failure(error: E)

  /** The outcome of a call that returns nothing or raises. */
  datatype Outcome<+E> = Pass | Fail(error: E)
}
