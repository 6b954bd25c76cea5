/** Small wrappers for the two ways a Python call in the lookup core can end
    without a plain value: `None`, and a raised exception. */
module Outcomes {

  /** Python's `None` versus a present value. */
  datatype Option<+T> = None | Some(value: T)

  /** The exceptions the core can raise on malformed data.
      `KeyError(key)` is an enumeration lookup by a name that is not a member;
      `IndexError` is `p['types'][0]` on an empty list of types. */
  datatype PyError = KeyError(key: string) | IndexError

  /** A value, or the exception that was raised instead of returning it. */
  datatype Result<+T> = Ok(value: T) | Raised(error: PyError)
}
