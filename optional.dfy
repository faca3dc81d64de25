/** The absent-or-present value the kiosk uses for `null` timestamps and recorded fields. */
module Optional {

  datatype Option<+T> = None | Some(value: T) {

    /** The carried value, or `default` when there is none. */
    function GetOr(default: T): (r: T)
      ensures Some? ==> r == value
      ensures None? ==> r == default
    {
      match this
      case Some(v) => v
      case None => default
    }

    /** The carried value as a sequence of zero or one elements. */
    function ToSeq(): (r: seq<T>)
      ensures |r| <= 1 && (|r| == 1 <==> Some?)
      ensures Some? ==> r[0] == value
    {
      match this
      case Some(v) => [v]
      case None => []
    }
  }
}
