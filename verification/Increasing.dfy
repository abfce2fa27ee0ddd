/** Strictly increasing sequences. */
module Increasing {

  predicate Increases(s: seq<nat>) {
    forall k, j :: 0 <= k < j < |s| ==> s[k] < s[j]
  }

  lemma {:induction false} AtMostOnce(s: seq<nat>, x: nat)
    requires Increases(s)
    ensures multiset(s)[x] <= 1
    decreases |s|
  {
    if s == [] {
    } else {
      var front := s[..|s| - 1];
      assert s == front + [s[|s| - 1]];
      AtMostOnce(front, x);
      assert s[|s| - 1] !in front;
    }
  }
}
