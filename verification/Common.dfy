/** What the parts of the model share. */
module Common {

  datatype Option<+T> = None | Some(value: T) {
    function GetOr(default: T): T {
      match this
      case Some(v) => v
      case None => default
    }

    function Else(other: Option<T>): Option<T> {
      if this.Some? then this else other
    }
  }

  predicate IsDigit(c: char) {
    '0' <= c <= '9'
  }
}
