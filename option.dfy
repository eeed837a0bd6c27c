/** A value that may be absent: a missing attribute, a failed lookup. */
module Optional {
  datatype Option<T> = None | Some(value: T) {
    function GetOr(default: T): T
    {
      if Some? then value else default
    }
  }
}
