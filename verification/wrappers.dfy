/** Optional values, used for "no level requested" and "no handle evicted". */
module Wrappers {

  datatype Option<+T> = None | Some(value: T) {

    /** The contents as a sequence of length zero or one. */
    function ToSeq(): (s: seq<T>)
      ensures |s| <= 1
      ensures Some? <==> |s| == 1
      ensures Some? ==> s[0] == value
    {
      match this
      case Some(v) => [v]
      case None => []
    }
  }
}
