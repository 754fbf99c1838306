/** The optional value used wherever the service or the request may leave a field undefined. */
module Wrappers {

  /** `None` stands for JavaScript's `undefined` (or a missing property). */
  datatype Option<+T> = None | Some(value: T) {

    /** The value, or `default` when absent (the `x || default` idiom). */
    function GetOr(default: T): T {
      match this
      case Some(v) => v
      case None => default
    }
  }
}
