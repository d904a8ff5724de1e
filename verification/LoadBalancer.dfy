/** load_balancer.go: registration, round robin and least connections. */
module LoadBalancer {

  class Worker {
    var index: int

    constructor () { index := 0; }
  }

  /** How often worker `j` was chosen. */
  function Count(picks: seq<nat>, j: nat): nat {
    if picks == [] then 0 else Count(picks[..|picks| - 1], j) + if picks[|picks| - 1] == j then 1 else 0
  }

  /** Going round from `from`, `j` comes before `to`. */
  predicate Between(from: nat, to: nat, j: nat) {
    if from <= to then from <= j < to else from <= j || j < to
  }

  /** The next choice among `n` workers. */
  function Succ(i: nat, n: nat): nat {
    if i + 1 >= n then 0 else i + 1
  }

  /** A run of choices that starts at `first` and ends before `next`. */
  ghost predicate Rounds(picks: seq<nat>, first: nat, next: nat, n: nat, q: nat) {
    forall j :: 0 <= j < n ==> Count(picks, j) == if Between(first, next, j) then q + 1 else q
  }

  lemma OneMoreChoice(picks: seq<nat>, first: nat, next: nat, n: nat, q: nat)
    requires first < n && next < n && Rounds(picks, first, next, n, q)
    ensures Rounds(picks + [next], first, Succ(next, n), n, if Succ(next, n) == first then q + 1 else q)
  {
    assert (picks + [next])[..|picks|] == picks;
  }

  class RoundRobin {
    var workers: seq<Worker>
    var size: nat
    var nextWorkerIndex: nat

    /** Workers know their places, and there is a next one unless there are none. */
    ghost predicate Valid()
      reads this, workers
    {
      && size == |workers|
      && (forall i :: 0 <= i < size ==> workers[i].index == i)
      && (nextWorkerIndex < size || size == nextWorkerIndex == 0)
    }

    constructor ()
      ensures Valid() && size == 0
    {
      workers, size, nextWorkerIndex := [], 0, 0;
    }

    /** load_balancer.go:46-50; no worker is registered twice. */
    method Register(worker: Worker)
      requires Valid() && worker !in workers
      modifies this`workers, this`size, worker
      ensures Valid() && workers == old(workers) + [worker] && nextWorkerIndex == old(nextWorkerIndex)
      ensures worker.index == old(size)
    {
      worker.index := size;
      workers := workers + [worker];
      size := size + 1;
    }

    /** load_balancer.go:57-65 */
    method Next() returns (worker: Worker)
      requires Valid() && size > 0
      modifies this`nextWorkerIndex
      ensures Valid() && worker == workers[old(nextWorkerIndex)]
      ensures nextWorkerIndex == Succ(old(nextWorkerIndex), size)
    {
      worker := workers[nextWorkerIndex];
      nextWorkerIndex := nextWorkerIndex + 1;
      if nextWorkerIndex >= size { nextWorkerIndex := 0; }
    }

    /** After any number of calls, no worker was chosen more than once more than another. */
    method Dispatch(k: nat) returns (picks: seq<nat>)
      requires Valid() && size > 0
      modifies this`nextWorkerIndex
      ensures Valid() && |picks| == k && forall p :: p in picks ==> p < size
      ensures forall i, j :: 0 <= i < size && 0 <= j < size ==> Count(picks, i) <= Count(picks, j) + 1
    {
      var first := nextWorkerIndex;
      picks := [];
      ghost var q := 0;
      for i := 0 to k
        invariant Valid() && |picks| == i && (forall p :: p in picks ==> p < size) && Rounds(picks, first, nextWorkerIndex, size, q)
      {
        OneMoreChoice(picks, first, nextWorkerIndex, size, q);
        q := if Succ(nextWorkerIndex, size) == first then q + 1 else q;
        var worker := Next();
        picks := picks + [worker.index];
      }
    }
  }

  /** load_balancer.go:88-100: the leftmost of the workers with the fewest connections. */
  method LeastConnections(active: seq<nat>) returns (worker: nat)
    requires |active| > 0
    ensures worker < |active|
    ensures forall j :: 0 <= j < |active| ==> active[worker] <= active[j]
    ensures forall j :: 0 <= j < worker ==> active[worker] < active[j]
  {
    worker := 0;
    var minN := active[0];
    for v := 1 to |active|
      invariant worker < v && minN == active[worker]
      invariant forall j :: 0 <= j < v ==> active[worker] <= active[j]
      invariant forall j :: 0 <= j < worker ==> active[worker] < active[j]
    {
      if active[v] < minN {
        minN := active[v];
        worker := v;
      }
    }
  }

  /** The numbers of connections differ by at most one. */
  ghost predicate Even(active: seq<nat>) {
    forall i, j :: 0 <= i < |active| && 0 <= j < |active| ==> active[i] <= active[j] + 1
  }

  function Total(active: seq<nat>): nat {
    if active == [] then 0 else Total(active[..|active| - 1]) + active[|active| - 1]
  }

  lemma {:induction false} TotalGrows(active: seq<nat>, i: nat)
    requires i < |active|
    ensures Total(active[i := active[i] + 1]) == Total(active) + 1
  {
    var last := |active| - 1;
    if i < last {
      assert active[i := active[i] + 1][..last] == active[..last][i := active[i] + 1];
      TotalGrows(active[..last], i);
    } else {
      assert active[i := active[i] + 1][..last] == active[..last];
    }
  }

  /** Every connection of a run is opened at the worker chosen: an even start stays even. */
  method DispatchLeast(start: seq<nat>, k: nat) returns (active: seq<nat>)
    requires |start| > 0
    ensures |active| == |start| && Total(active) == Total(start) + k
    ensures Even(start) ==> Even(active)
    ensures forall i :: 0 <= i < |start| ==> start[i] <= active[i]
  {
    active := start;
    for i := 0 to k
      invariant |active| == |start| && Total(active) == Total(start) + i
      invariant Even(start) ==> Even(active)
      invariant forall j :: 0 <= j < |start| ==> start[j] <= active[j]
    {
      var worker := LeastConnections(active);
      TotalGrows(active, worker);
      active := active[worker := active[worker] + 1];
    }
  }
}
