/** Option and Result values that stand for the library's null references and
    its argument exceptions. */
module Wrappers {

  datatype Option<T> = None | Some(value: T)
  {
    /** `x ?? fallback` */
    function OrElse(fallback: T): T
    {
      if Some? then value else fallback
    }
  }

  /** The exceptions the library throws at its API boundary. */
  datatype Error =
    | ArgumentNull(paramName: string)
    | Argument(paramName: string)
    | ObjectDisposed
    | NullReference

  datatype Result<T> = Ok(value: T) | Err(error: Error)

  /** The outcome of an operation that returns nothing but may throw. */
  datatype Outcome = Done | Fail(error: Error)
}
