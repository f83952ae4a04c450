/** Optional values, standing for the source's nullable references and
    parameters that default to null. */
module Wrappers {

  datatype Option<+T> = None | Some(value: T) {

    /** The null-coalescing `x ?? d`: the value if present, else `d`. */
    function GetOr(default: T): (r: T)
      ensures Some? ==> r == value
      ensures None? ==> r == default
    {
      match this
      case Some(v) => v
      case None => default
    }

    /** The zero- or one-element sequence holding the value, if any. */
    function ToSeq(): (s: seq<T>)
      ensures |s| <= 1
      ensures |s| == 1 <==> Some?
      ensures Some? ==> s[0] == value
    {
      match this
      case Some(v) => [v]
      case None => []
    }
  }
}
