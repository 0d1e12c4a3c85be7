/** Option and Result datatypes shared by the reminder model. */
module Wrappers {

  /** An optional value: a missing entry, or a send that raised no exception. */
  datatype Option<+T> = None | Some(value: T)

  /** The outcome of a step that can fail with an error value. */
  datatype Result<+T, +E> = Success(value: T) | Failure(error: E)
}

/** Sequence helpers shared by the reminder model. */
module Sequences {

  /** Applies `f` to every element, keeping the order. */
  function Map<A, B>(f: A -> B, s: seq<A>): (r: seq<B>)
    ensures |r| == |s|
    ensures forall i :: 0 <= i < |s| ==> r[i] == f(s[i])
  {
    if |s| == 0 then [] else Map(f, s[..|s| - 1]) + [f(s[|s| - 1])]
  }
}
