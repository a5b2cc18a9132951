/** The option type shared by every model in this project. */
module Options {

  datatype Option<+T> = None | Some(value: T) {

    /** The value held here, or else the one held by `other`. */
    function OrElse(other: Option<T>): Option<T> {
      if Some? then this else other
    }

    function GetOr(default: T): T {
      if Some? then value else default
    }
  }
}
