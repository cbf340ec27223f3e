/** Lists of positions in a sequence. */
module Positions {
  /** `at` lists the chosen positions, each once, in ascending order. */
  ghost predicate Lists(at: seq<nat>, chosen: set<nat>) {
    && (forall k, l :: 0 <= k < l < |at| ==> at[k] < at[l])
    && (forall i :: i in at <==> i in chosen)
  }

  lemma ListsNext(at: seq<nat>, chosen: set<nat>, n: nat)
    requires Lists(at, chosen) && forall i :: i in chosen ==> i < n
    ensures Lists(at + [n], chosen + {n})
  {
    assert forall i :: i in at + [n] <==> i in at || i == n;
    forall k | 0 <= k < |at| ensures at[k] < n {
      assert at[k] in at;
    }
  }

  lemma {:induction false} ListsSize(at: seq<nat>, chosen: set<nat>)
    requires Lists(at, chosen)
    ensures |at| == |chosen|
  {
    if at == [] {
      assert forall i :: i !in chosen;
      assert chosen == {};
    } else {
      var n := |at| - 1;
      var init, last := at[..n], at[n];
      assert at == init + [last];
      assert forall i :: i in at <==> i in init || i == last;
      assert last !in init;
      ListsSize(init, chosen - {last});
    }
  }
}
