/** Success-or-absence types shared by the other modules. */
module Wrappers {
  datatype Option<+T> = None | Some(value: T) {
    function GetOr(default: T): T {
      match this
      case Some(v) => v
      case None => default
    }
  }

  /** A field of a partial update: left out, sent as null, or given. */
  datatype Field<+T> = Absent | Null | Given(value: T) {
    function Over(stored: Option<T>): Option<T> {
      match this
      case Given(v) => Some(v)
      case _ => stored
    }
  }

  datatype Result<+T, +E> = Ok(value: T) | Err(error: E)
}
