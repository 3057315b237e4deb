/** Searching a sequence for the first element with a property: the shape
    shared by Python's `next(x for x in xs if p(x))`, `list.index` and a
    loop that stops at the first failure. */
module Seqs {
  import opened Outcomes

  /** The position of the first element of `s` satisfying `p`, if any. */
  function FirstWhere<X>(s: seq<X>, p: X -> bool): (r: Option<nat>)
    ensures r.Some? ==> r.value < |s| && p(s[r.value])
    ensures r.Some? ==> forall j :: 0 <= j < r.value ==> !p(s[j])
    ensures r.None? <==> forall j :: 0 <= j < |s| ==> !p(s[j])
  {
    if |s| == 0 then None
    else if p(s[0]) then Some(0)
    else match FirstWhere(s[1..], p)
      case None => None
      case Some(k) => Some(k + 1)
  }

  /** No value occurs twice in `s`. */
  predicate Distinct<X(==)>(s: seq<X>)
  {
    forall i, j :: 0 <= i < j < |s| ==> s[i] != s[j]
  }
}
