/** The optional value used for "nothing to report" throughout the model. */
module Wrappers {

  datatype Option<+T> = None | Some(value: T)

  /** The list holding the value of `o`, if there is one. */
  function ToSeq<T>(o: Option<T>): (s: seq<T>)
    ensures |s| <= 1
    ensures o.None? <==> s == []
    ensures o.Some? ==> s == [o.value]
  {
    match o
    case None => []
    case Some(v) => [v]
  }
}
