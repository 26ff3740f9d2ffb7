/** The optional-value type used for registry keys and effect-map keys that may be absent. */
module Wrappers {

  /** `None` stands for a JavaScript `undefined`, `Some(v)` for a present value. */
  datatype Option<+T> = None | Some(value: T) {

    /** The value, or `default` when absent (the `x = default` of a destructuring pattern). */
    function GetOr(default: T): T {
      match this
      case Some(v) => v
      case None => default
    }
  }
}
