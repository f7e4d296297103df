/** An optional value: `None` stands for JavaScript's `undefined`, `null` or `NaN`
    wherever the modelled code produces one of those instead of a value. */
module Wrappers {

  datatype Option<+T> = None | Some(value: T) {

    /** The value, or `default` when there is none. */
    function GetOr(default: T): T {
      match this
      case Some(v) => v
      case None => default
    }
  }
}
