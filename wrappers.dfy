/** Optional values and pass/fail outcomes shared by the other modules. */
module Wrappers {

  /** A value that may be absent (an unset environment variable, a string that does not decode). */
  datatype Option<+T> = None | Some(value: T)

  /** The result of a check that either passes or names what failed. */
  datatype Outcome<+E> = Pass | Fail(error: E)
}
