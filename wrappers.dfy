/** The optional-value datatype used throughout the models for JavaScript's
    `undefined`/`null` and for results that may be absent. */
module Wrappers {
  datatype Option<+T> = None | Some(value: T) {
    function GetOr(default: T): T {
      match this
      case Some(v) => v
      case None => default
    }
  }
}
