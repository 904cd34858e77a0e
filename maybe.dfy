/** The optional value used wherever the source passes `None` or a dict value that may be absent. */
module Maybe {

  datatype Option<T> = None | Some(value: T) {

    /** The value, or `default` when absent (Python's `dict.get(key, default)`). */
    function GetOr(default: T): (r: T)
      ensures Some? ==> r == value
      ensures None? ==> r == default
    {
      match this
      case Some(v) => v
      case None => default
    }
  }
}
