/**
 * Optional values, the model's stand-in for Python's `None`, and the outcome
 * of an operation that may raise one of the Python exceptions the source
 * lets escape.
 */
module Wrappers {

  datatype Option<+T> = None | Some(value: T)

  /** The exceptions that the modelled code raises and does not catch. */
  datatype Fault =
    | AttributeError   // a missing attribute or method, or an attribute of None
    | IndexError       // a list index past the end
    | KeyError         // a missing dictionary key
    | ValueError       // `int()` of text that is not a number
    | RecursionError   // a recursion that never reaches its base case

  datatype Outcome<+T> = Done(value: T) | Raised(fault: Fault)
}
