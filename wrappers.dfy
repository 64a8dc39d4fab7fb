/** Small failure-aware types shared by the backend and the frontend models. */
module Wrappers {

  /** A value that may be absent: Java's `null`, an empty `Optional`, or a
      JavaScript `null`/`undefined`. */
  datatype Option<+T> = None | Some(value: T) {
    function GetOr(default: T): T {
      match this
      case Some(v) => v
      case None => default
    }
  }
}
