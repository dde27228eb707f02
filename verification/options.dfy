/** The optional value used throughout the model for JavaScript's "absent"
    results: a missing storage key, a `findIndex` miss, a NaN parse. */
module Options {

  datatype Option<+T> = None | Some(value: T) {

    function GetOr(default: T): T {
      match this
      case Some(v) => v
      case None => default
    }
  }
}
