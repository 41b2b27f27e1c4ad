/** JavaScript's `undefined` / "not found", as a value. */
module Optional {

  datatype Option<+T> = None | Some(value: T) {

    /** The value, or `default` where JavaScript would fall back with `??` or `||`. */
    function GetOr(default: T): T {
      match this
      case Some(v) => v
      case None => default
    }
  }
}
