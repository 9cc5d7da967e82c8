/** Small failure-carrying datatypes shared by the whole model. */
module Wrappers {

  /** A value that may be missing: JavaScript's `null` / `undefined`. */
  datatype Option<+T> = None | Some(value: T)

  /** The result of a call that may throw. The login flow never inspects
      what was thrown (its catch block ignores the error), so the failure
      case carries nothing. */
  datatype Result<+T> = Ok(value: T) | Thrown
}
