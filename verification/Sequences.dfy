/** Facts about sequences shared by the models. */
module Sequences {

  /** Pigeonhole: `n` has room for at most `n` different numbers below it. */
  lemma {:induction false} DistinctBelow(xs: seq<nat>, n: nat)
    requires forall i, j :: 0 <= i < j < |xs| ==> xs[i] != xs[j]
    requires forall i :: 0 <= i < |xs| ==> xs[i] < n
    ensures |xs| <= n
    decreases n
  {
    if xs != [] {
      assert xs[0] < n;
      if p :| 0 <= p < |xs| && xs[p] == n - 1 {
        DistinctBelow(xs[..p] + xs[p + 1..], n - 1);
      } else {
        DistinctBelow(xs, n - 1);
      }
    }
  }
}
