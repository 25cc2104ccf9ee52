/** Small result types shared by the modules of the model. */
module Wrappers {

  /** A value that may be absent (a nil pointer, an unset configuration). */
  datatype Option<+T> = None | Some(value: T)

  /** How a Go call ends: it returns a value, or it panics with a reason. */
  datatype Outcome<+T> = Returned(value: T) | Panicked(reason: string)
}
