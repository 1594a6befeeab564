/** Kotlin's nullable types (`String?`) are modelled as `Option`. */
module Optional {

  datatype Option<+T> = None | Some(value: T) {

    /** The Elvis operator `x ?: default`. */
    function GetOr(default: T): T {
      match this
      case Some(v) => v
      case None => default
    }
  }
}
