/** Small failure-carrying datatypes shared by the model. */
module Wrappers {

  /** A value that may be absent; `None` plays the role of JavaScript's `undefined`. */
  datatype Option<+T> = None | Some(value: T)

  /** How a JavaScript expression that can throw finishes: normally with a value,
      or abruptly with a TypeError (the only exception the modelled code can raise). */
  datatype Completion<+T> = Normal(value: T) | TypeError
}
