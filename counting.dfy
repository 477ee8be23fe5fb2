/** Counting by sets of indices. */
module Counting {
  /**
   * Extending a list by one element adds its index to a set of indices
   * exactly when the element qualifies.
   */
  lemma SnocCount(before: set<int>, after: set<int>, last: int, hit: bool)
    requires forall i :: i in after <==> i in before || (hit && i == last)
    requires last !in before
    ensures |after| == |before| + (if hit then 1 else 0)
  {
    var added := if hit then {last} else {};
    forall i
      ensures i in after <==> i in before + added
    {
    }
    assert after == before + added;
    assert |before + added| == |before| + |added|;
  }
}
