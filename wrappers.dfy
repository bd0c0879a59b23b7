/** The optional value used wherever the Java code has a @Nullable reference. */
module Wrappers {

  datatype Option<+T> = None | Some(value: T)

  /** The last element of a sequence, or None for the empty sequence. */
  function LastOf<T>(s: seq<T>): (r: Option<T>)
    ensures r.None? <==> s == []
  {
    if s == [] then None else Some(s[|s| - 1])
  }
}
