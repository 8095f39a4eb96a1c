/** The optional value used for the ORM's "row or nothing" lookups. */
module Wrappers {
  datatype Option<+T> = None | Some(value: T) {
    function GetOr(default: T): (r: T)
      ensures this.None? ==> r == default
      ensures this.Some? ==> r == value
    {
      match this
      case Some(v) => v
      case None => default
    }
  }
}
