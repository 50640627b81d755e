/** Small result types shared by the other modules. */
module Wrappers {

  datatype Option<+T> = None | Some(value: T)

  /** The outcome of code that either returns a value or raises ValueError. */
  datatype Checked<+T> = Ok(value: T) | ValueError
}
