/** Option and Outcome, the two shapes of a value that may be missing or a check that may fail. */
module Wrappers {

  /** A value that may be missing: a JSON key that is absent, a DOM element that does not exist. */
  datatype Option<+T> = None | Some(value: T) {
    /** The value, or `default` when there is none (JavaScript's `?.x || default` on a present value). */
    function GetOr(default: T): T {
      match this
      case Some(v) => v
      case None => default
    }
  }

  /** The result of a check that either passes or fails with an error value. */
  datatype Outcome<+E> = Pass | Fail(error: E)
}
