/** Optional values, and the ways in which a call can end. */
module Wrappers {

  datatype Option<+T> = None | Some(value: T)

  /** How a call ends when its thread is left alone: with a value, without one, not before another
      thread does something, or in an exception. */
  datatype Outcome<+T> = Returns(value: T) | Completes | Waits | Throws
}
