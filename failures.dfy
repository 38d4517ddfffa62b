/** Optional values, the exceptions the service raises or catches, and the
    outcome of a call that either returns a value or raises one of them. */
module Failures {

  datatype Option<+T> = None | Some(value: T)

  /** The exceptions that reach or leave the service's methods. */
  datatype Error =
    | StripeError(message: string)      // stripe.error.StripeError and its subclasses
    | AttributeError(attribute: string) // an attribute read from, or written to, None
    | IndexError                        // the first element of an empty list
    | ValueError(text: string)          // float() of a string that is not a number

  /** What Python's `str(e)` gives for each exception. */
  function Describe(e: Error): string
  {
    match e
    case StripeError(m) => m
    case AttributeError(a) => "'NoneType' object has no attribute '" + a + "'"
    case IndexError => "list index out of range"
    case ValueError(t) => "could not convert string to float: '" + t + "'"
  }

  /** A call either returns a value or raises an exception. */
  datatype Outcome<+T> = Returned(value: T) | Raised(error: Error)
}
