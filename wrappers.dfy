/** The optional value that JavaScript expresses as `T | undefined` or `T | null`,
    and the two ways a promise settles. */
module Wrappers {

  datatype Option<T> = None | Some(value: T)

  /** A promise fulfilled with a value, or rejected because its async body threw. */
  datatype Settled<T> = Fulfilled(value: T) | Rejected

}

/** The parts of JavaScript's `Array.prototype` that the reconciliation code relies on. */
module ArrayMethods {
  import opened Wrappers

  /** Index of the first element that satisfies `p`, or `None` when no element does.
      `Array.prototype.find` returns the element at this index. */
  function FindIndex<T>(s: seq<T>, p: T -> bool): (r: Option<nat>)
    ensures r.Some? ==> r.value < |s| && p(s[r.value])
    ensures r.Some? ==> forall j :: 0 <= j < r.value ==> !p(s[j])
    ensures r.None? ==> forall j :: 0 <= j < |s| ==> !p(s[j])
  {
    if s == [] then None
    else if p(s[0]) then Some(0)
    else match FindIndex(s[1..], p)
      case None => None
      case Some(k) => Some(k + 1)
  }

}
