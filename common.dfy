/** Small helper types shared by every module of the model. */
module Common {

  /** A value that may be absent: Python's `None`, a missing dictionary
      entry, or an operation that raised and was caught. */
  datatype Option<+T> = None | Some(value: T) {
    function GetOr(default: T): T {
      match this
      case Some(v) => v
      case None => default
    }
  }
}
