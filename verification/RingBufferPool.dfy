/** pkg/pool/ringbuffer/ringbuffer.go: the self-calibrating pool of ring buffers, used by one
    thread. */
module RingBufferPool {
  import opened SizeClasses

  const MIN_SIZE: nat := 4096
  const STEPS: nat := 15
  const CALIBRATE_CALLS_THRESHOLD: nat := 42000

  datatype CallSize = CallSize(calls: nat, size: nat)

  function ClassSize(i: nat): (n: nat)
    ensures n > 0
  {
    MIN_SIZE * Pow2(i)
  }

  /** The counters with the sizes of their classes. */
  function CallData(calls: seq<nat>): seq<CallSize> {
    seq(|calls|, i requires 0 <= i < |calls| => CallSize(calls[i], ClassSize(i)))
  }

  /** The calls in classes larger than `size`. */
  function CallsAbove(data: seq<CallSize>, size: nat): nat {
    if data == [] then 0
    else CallsAbove(data[..|data| - 1], size) + if data[|data| - 1].size > size then data[|data| - 1].calls else 0
  }

  lemma {:induction false} AboveJoins(a: seq<CallSize>, b: seq<CallSize>, size: nat)
    ensures CallsAbove(a + b, size) == CallsAbove(a, size) + CallsAbove(b, size)
    decreases b
  {
    if b == [] {
      assert a + b == a;
    } else {
      assert (a + b)[..|a + b| - 1] == a + b[..|b| - 1];
      AboveJoins(a, b[..|b| - 1], size);
    }
  }

  lemma Cancel(rest: seq<CallSize>, last: CallSize, front: seq<CallSize>, back: seq<CallSize>)
    requires multiset(rest + [last]) == multiset(front + [last] + back)
    ensures multiset(rest) == multiset(front + back)
  {
    var one := multiset{last};
    assert multiset(rest) + one == multiset(front + back) + one;
    assert multiset(rest) == multiset(rest) + one - one;
  }

  /** Only how often each entry occurs matters, not the order. */
  lemma {:induction false} AboveOfPermutation(a: seq<CallSize>, b: seq<CallSize>, size: nat)
    requires multiset(a) == multiset(b)
    ensures CallsAbove(a, size) == CallsAbove(b, size)
    decreases a
  {
    if a == [] {
      assert |multiset(b)| == 0;
    } else {
      var rest, last := a[..|a| - 1], a[|a| - 1];
      assert a == rest + [last];
      assert last in multiset(b);
      var j :| 0 <= j < |b| && b[j] == last;
      var front, back := b[..j], b[j + 1..];
      assert b == front + [last] + back;
      Cancel(rest, last, front, back);
      AboveOfPermutation(rest, front + back, size);
      AboveJoins(front, back, size);
      AboveJoins(front + [last], back, size);
      AboveJoins(front, [last], size);
    }
  }

  lemma {:induction false} AboveIsMonotone(data: seq<CallSize>, small: nat, large: nat)
    requires small <= large
    ensures CallsAbove(data, large) <= CallsAbove(data, small)
  {
    if data != [] { AboveIsMonotone(data[..|data| - 1], small, large); }
  }

  lemma {:induction false} NoneAbove(data: seq<CallSize>, size: nat)
    requires forall i :: 0 <= i < |data| ==> data[i].size <= size
    ensures CallsAbove(data, size) == 0
  {
    if data != [] { NoneAbove(data[..|data| - 1], size); }
  }

  /** What `sort.Sort` may leave: most calls first, ties in any order. */
  ghost predicate SortOf(sorted: seq<CallSize>, data: seq<CallSize>) {
    multiset(sorted) == multiset(data) && forall i, j :: 0 <= i < j < |sorted| ==> sorted[i].calls >= sorted[j].calls
  }

  /** `size` is the size of a class no other class was used more than. */
  ghost predicate MostUsed(data: seq<CallSize>, size: nat) {
    exists best :: best in data && best.size == size && forall other :: other in data ==> other.calls <= best.calls
  }

  /** A class of that size came up while the ones before it covered no more than `maxSum`. */
  ghost predicate Needed(sorted: seq<CallSize>, maxSum: nat, size: nat) {
    exists t :: 0 <= t < |sorted| && sorted[t].size == size && CallsAbove(sorted[..t], 0) <= maxSum
  }

  /** ringbuffer.go:123-141: the first entry gives the default size, and the entries are taken
      until they cover more than `maxSum` calls. */
  method Choose(sorted: seq<CallSize>, data: seq<CallSize>, maxSum: nat) returns (defaultSize: nat, maxSize: nat)
    requires |data| > 0 && |sorted| == |data| && SortOf(sorted, data) && maxSum <= CallsAbove(data, 0)
    requires forall i :: 0 <= i < |sorted| ==> sorted[i].size > 0
    ensures MostUsed(data, defaultSize) && defaultSize <= maxSize
    ensures CallsAbove(data, maxSize) <= CallsAbove(data, 0) - maxSum && Needed(sorted, maxSum, maxSize)
  {
    FirstIsMostUsed(sorted, data);
    defaultSize := sorted[0].size;
    maxSize := defaultSize;
    var callsSum := 0;
    assert sorted[..0] == [];
    ghost var taken := 0;
    for i := 0 to |sorted|
      invariant taken == i && callsSum == CallsAbove(sorted[..i], 0)
      invariant forall j :: 0 <= j < i ==> sorted[j].size <= maxSize
      invariant defaultSize <= maxSize && Needed(sorted, maxSum, maxSize)
    {
      if callsSum > maxSum { break; }
      callsSum := callsSum + sorted[i].calls;
      assert sorted[..i + 1][..i] == sorted[..i];
      var size := sorted[i].size;
      if size > maxSize { maxSize := size; }
      taken := taken + 1;
    }
    Leftover(sorted, data, taken, maxSize);
  }

  lemma FirstIsMostUsed(sorted: seq<CallSize>, data: seq<CallSize>)
    requires |data| > 0 && |sorted| == |data| && SortOf(sorted, data)
    ensures MostUsed(data, sorted[0].size)
  {
    assert sorted[0] in multiset(data);
    forall other | other in data ensures other.calls <= sorted[0].calls { assert other in multiset(sorted); }
  }

  /** What was not taken bounds the calls above `maxSize`. */
  lemma Leftover(sorted: seq<CallSize>, data: seq<CallSize>, taken: nat, maxSize: nat)
    requires multiset(sorted) == multiset(data) && taken <= |sorted|
    requires forall j :: 0 <= j < taken ==> sorted[j].size <= maxSize
    ensures CallsAbove(data, maxSize) <= CallsAbove(data, 0) - CallsAbove(sorted[..taken], 0)
    ensures taken == |sorted| ==> CallsAbove(data, maxSize) == 0
  {
    AboveOfPermutation(sorted, data, maxSize);
    AboveOfPermutation(sorted, data, 0);
    assert sorted == sorted[..taken] + sorted[taken..];
    AboveJoins(sorted[..taken], sorted[taken..], maxSize);
    AboveJoins(sorted[..taken], sorted[taken..], 0);
    NoneAbove(sorted[..taken], maxSize);
    AboveIsMonotone(sorted[taken..], 0, maxSize);
  }

  /** The class of a buffer of `n` bytes. */
  function ClassOf(n: int): nat {
    var m := (n - 1) / MIN_SIZE;
    if m <= 0 then 0 else if BitLen(m) >= STEPS then STEPS - 1 else BitLen(m)
  }

  /** It is the least class that holds `n` bytes, or the last one. */
  lemma ClassIsLeast(n: int, k: nat)
    ensures ClassOf(n) < STEPS
    ensures ClassOf(n) <= k <==> n <= ClassSize(k) || k >= STEPS - 1
  {
    var m := (n - 1) / MIN_SIZE;
    if m > 0 { IndexIsLeast(m + 1, k); }
  }

  /** ringbuffer.go:176-191 */
  method IndexRingBufferPool(n: int) returns (idx: nat)
    ensures idx == ClassOf(n)
  {
    var m := (n - 1) / MIN_SIZE;
    idx := 0;
    ghost var bits: nat := if m > 0 then BitLen(m) else 0;
    while m > 0
      invariant idx + (if m > 0 then BitLen(m) else 0) == bits
    {
      m := m / 2;
      idx := idx + 1;
    }
    if idx >= STEPS { idx := STEPS - 1; }
  }

  class Pool {
    const calls: array<nat>
    var calibrating: bool
    var defaultSize: nat
    var maxSize: nat
    /** The capacities of the buffers put into the underlying pool. */
    var pool: multiset<nat>

    /** Between calls: no counter is past the threshold, so no 64-bit counter can overflow. */
    ghost predicate Valid()
      reads this, calls
    {
      && calls.Length == STEPS && !calibrating
      && (forall i :: 0 <= i < STEPS ==> calls[i] <= CALIBRATE_CALLS_THRESHOLD)
      && (maxSize == 0 || defaultSize <= maxSize)
    }

    constructor (defaultMagicBufferSize: nat)
      ensures Valid() && fresh(calls) && maxSize == 0 && defaultSize == defaultMagicBufferSize && pool == multiset{}
    {
      calls := new nat[STEPS](_ => 0);
      calibrating, defaultSize, maxSize, pool := false, defaultMagicBufferSize, 0, multiset{};
    }

    /** ringbuffer.go:113-120: every counter is taken and reset. */
    method Collect() returns (data: seq<CallSize>, callsSum: nat)
      requires calls.Length == STEPS
      modifies calls
      ensures data == CallData(old(calls[..])) && callsSum == CallsAbove(data, 0)
      ensures forall i :: 0 <= i < STEPS ==> calls[i] == 0
    {
      data, callsSum := [], 0;
      for i := 0 to STEPS
        invariant data == CallData(old(calls[..]))[..i] && callsSum == CallsAbove(data, 0)
        invariant forall j :: 0 <= j < i ==> calls[j] == 0
        invariant forall j :: i <= j < STEPS ==> calls[j] == old(calls[j])
      {
        var c := calls[i];
        calls[i] := 0;
        callsSum := callsSum + c;
        assert (data + [CallSize(c, ClassSize(i))])[..i] == data;
        data := data + [CallSize(c, ClassSize(i))];
      }
    }

    /** ringbuffer.go:106-146; `sorted` is what the sort leaves and `maxSum` the percentile. */
    method Calibrate(sorted: seq<CallSize>, maxSum: nat)
      requires calls.Length == STEPS && SortOf(sorted, CallData(calls[..])) && maxSum <= CallsAbove(CallData(calls[..]), 0)
      modifies this`calibrating, this`defaultSize, this`maxSize, calls
      ensures calibrating == old(calibrating)
      ensures old(calibrating) ==> calls[..] == old(calls[..]) && defaultSize == old(defaultSize) && maxSize == old(maxSize)
      ensures !old(calibrating) ==>
                var before := CallData(old(calls[..]));
                && (forall i :: 0 <= i < STEPS ==> calls[i] == 0)
                && MostUsed(before, defaultSize) && 0 < defaultSize <= maxSize
                && CallsAbove(before, maxSize) <= CallsAbove(before, 0) - maxSum && Needed(sorted, maxSum, maxSize)
    {
      if calibrating { return; }
      calibrating := true;
      SortIsSized(sorted, calls[..]);
      var data, callsSum := Collect();
      defaultSize, maxSize := Choose(sorted, data, maxSum);
      calibrating := false;
    }

    /** The counters after one more buffer of `cap` bytes. */
    function Counted(cap: nat): seq<nat>
      requires calls.Length == STEPS
      reads this, calls
    {
      ClassIsLeast(cap, 0);
      calls[..][ClassOf(cap) := calls[ClassOf(cap)] + 1]
    }

    /** ringbuffer.go:93-104: the buffer is counted in its class, and kept exactly if it is not
        above the maximum, when there is one. */
    method Put(cap: nat, sorted: seq<CallSize>, maxSum: nat)
      requires Valid() && SortOf(sorted, CallData(Counted(cap))) && maxSum <= CallsAbove(CallData(Counted(cap)), 0)
      modifies this, calls
      ensures Valid()
      ensures pool == old(pool) + if maxSize == 0 || cap <= maxSize then multiset{cap} else multiset{}
      ensures old(Counted(cap))[ClassOf(cap)] <= CALIBRATE_CALLS_THRESHOLD ==>
                calls[..] == old(Counted(cap)) && maxSize == old(maxSize) && defaultSize == old(defaultSize)
      ensures old(Counted(cap))[ClassOf(cap)] > CALIBRATE_CALLS_THRESHOLD ==>
                var before := CallData(old(Counted(cap)));
                && (forall i :: 0 <= i < STEPS ==> calls[i] == 0)
                && MostUsed(before, defaultSize) && Needed(sorted, maxSum, maxSize)
                && CallsAbove(before, maxSize) <= CallsAbove(before, 0) - maxSum
    {
      ClassIsLeast(cap, 0);
      var idx := IndexRingBufferPool(cap);
      calls[idx] := calls[idx] + 1;
      assert calls[..] == old(Counted(cap));
      if calls[idx] > CALIBRATE_CALLS_THRESHOLD {
        Calibrate(sorted, maxSum);
      }
      if maxSize == 0 || cap <= maxSize {
        pool := pool + multiset{cap};
      }
    }
  }

  lemma SortIsSized(sorted: seq<CallSize>, calls: seq<nat>)
    requires multiset(sorted) == multiset(CallData(calls))
    ensures |sorted| == |calls| && forall i :: 0 <= i < |sorted| ==> sorted[i].size > 0
  {
    assert |sorted| == |multiset(sorted)|;
    forall i | 0 <= i < |sorted| ensures sorted[i].size > 0 { assert sorted[i] in multiset(CallData(calls)); }
  }
}
