/** Optional values and the Python exceptions the modelled code can raise. */
module Wrappers {

  /** Python's `None` versus a present value. */
  datatype Option<+T> = None | Some(value: T)

  /** The built-in exceptions that escape from the modelled functions. */
  datatype Exception =
    | IndexError   // a list index out of range (`split(...)[1]` with one piece)
    | KeyError     // a missing dictionary key
    | TypeError    // subscripting `None`
    | ValueError   // `list.remove` of an absent element, `split('')`
    | NameError    // an undefined local name

  /** The outcome of a call that either returns or raises. */
  datatype Result<+T> = Ok(value: T) | Raised(error: Exception)
}
