/** Option and Result, used for the driver's Python exceptions and `None` returns. */
module Wrappers {

  datatype Option<+T> = None | Some(value: T)

  datatype Result<+R, +E> = Success(value: R) | Failure(error: E)

  /** The outcome of a statement that returns nothing or raises. */
  datatype Outcome<+E> = Pass | Fail(error: E)

  /** The Python exceptions the driver can raise. */
  datatype Error =
    | ValueError(reason: string)     // float() rejected the value field, or a level is out of range
    | IndexError                     // `rawdata[0]` on an empty reply
    | AttributeError(name: string)   // an attribute that was never assigned
}
