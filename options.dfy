/** A value that may be absent: JavaScript's `null` / `undefined` for a column or a lookup. */
module Options {

  datatype Option<+T> = None | Some(value: T) {
    function GetOr(default: T): T {
      match this
      case Some(v) => v
      case None => default
    }
  }
}
