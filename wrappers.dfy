/** The optional-value datatype used for nullable fields and empty inputs. */
module Wrappers {

  datatype Option<+T> = None | Some(value: T) {

    /** The value, or `default` when there is none (JavaScript's `??`). */
    function GetOr(default: T): T {
      match this
      case Some(v) => v
      case None => default
    }
  }

  /** The verdict of a validation chain: it passes, or fails with the first
      error it meets. */
  datatype Outcome<+E> = Pass | Fail(error: E)
}
