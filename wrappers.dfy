/** Optional values and results with an error, as Swift's `Optional` and thrown errors. */
module Wrappers {

  datatype Option<+T> = None | Some(value: T)

  datatype Result<+T, +E> = Ok(value: T) | Err(error: E)
}

/** Searching sequences: Swift's `firstIndex(where:)` over a key projected from each item. */
module Collections {
  import opened Wrappers

  /** Index of the first occurrence of `x` in `s`, or None when `x` does not occur. */
  function FirstIndex<T(==)>(s: seq<T>, x: T): (r: Option<nat>)
    ensures r.Some? ==> r.value < |s| && s[r.value] == x
    ensures r.Some? ==> forall j :: 0 <= j < r.value ==> s[j] != x
    ensures r.None? <==> x !in s
  {
    if s == [] then None
    else if s[0] == x then Some(0)
    else match FirstIndex(s[1..], x)
      case None => None
      case Some(k) => Some(k + 1)
  }
}
