/** Small failure-carrying datatypes shared by the model. */
module Wrappers {

  /** A value that may be absent. */
  datatype Option<+T> = None | Some(value: T)

  /** How a JavaScript expression ends: it produces a value, or it throws. */
  datatype Completion<+T> = Normal(value: T) | Throw(reason: string)
}
