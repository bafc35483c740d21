/** The optional value returned by a store lookup (`string | null` in the program). */
module Options {

  datatype Option<+T> = None | Some(value: T) {

    /** The held value, or `default` when there is none (the `??` operator). */
    function GetOr(default: T): T {
      match this
      case Some(v) => v
      case None => default
    }
  }
}
