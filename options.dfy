/** Optional values: the model of a TypeScript `T | null` or an absent (`?:`) field. */
module Options {

  datatype Option<+T> = None | Some(value: T) {

    /** The value, or `default` when absent: the model of `x ?? default`. */
    function GetOr(default: T): (r: T)
      ensures Some? ==> r == value
      ensures None? ==> r == default
    {
      match this
      case Some(v) => v
      case None => default
    }
  }
}
