/** What holds of the connection managers over every run of their calls. */
module ConnManagerRuns {
  import opened ConnPool
  import opened ConnManager

  datatype Op = OpGet(key: int, fd: int) | OpFork(key: int) | OpRelease(key: int)

  /** What a run does to the keys of a manager. */
  datatype View = View(keys: set<int>, paid: set<int>, next: nat) {
    ghost function After(op: Op): View {
      match op
      case OpGet(key, _) => if key in keys then this else this.(keys := keys + {key})
      case OpFork(key) => if key in keys then this.(keys := keys + {next as int}, next := next + 1) else this
      case OpRelease(key) => if key in keys then this.(keys := keys - {key}, paid := paid + {key}) else this
    }
  }

  ghost function ViewOf(m: ConnectionManager): View
    reads m, m.keyPool
  {
    View(m.connections.Keys, m.paid, m.keyPool.nextKey)
  }

  lemma KeysGrow(m: map<int, Ref>, key: int, r: Ref)
    ensures m[key := r].Keys == m.Keys + {key}
  {
  }

  lemma KeysShrink(m: map<int, Ref>, key: int)
    ensures (m - {key}).Keys == m.Keys - {key}
  {
  }

  method ApplyGet(m: ConnectionManager, key: int, fd: int)
    requires m.Valid()
    modifies m`connections, m`connectionsCount, m.pools
    ensures m.Valid() && ViewOf(m) == old(ViewOf(m)).After(OpGet(key, fd))
    ensures Others(m.id, old(m.pools.held), old(m.pools.store), m.pools.held, m.pools.store)
  {
    var _ := m.Get(key, fd);
    KeysGrow(old(m.connections), key, m.connections[key]);
  }

  /** An unregistered key cannot be forked. */
  method ApplyFork(m: ConnectionManager, key: int)
    requires m.Valid() && m.keyPool.nextKey !in m.connections
    modifies m`connections, m`connectionsCount, m.pools, m.keyPool
    ensures m.Valid() && ViewOf(m) == old(ViewOf(m)).After(OpFork(key))
    ensures Others(m.id, old(m.pools.held), old(m.pools.store), m.pools.held, m.pools.store)
  {
    if key in m.connections {
      var child := m.Fork(key);
      KeysGrow(old(m.connections), child, m.connections[child]);
    }
  }

  method ApplyRelease(m: ConnectionManager, key: int)
    requires m.Valid()
    modifies m`connections, m`connectionsCount, m`releaseFdSet, m`paid, m.pools, m.keyPool`stack
    ensures m.Valid() && ViewOf(m) == old(ViewOf(m)).After(OpRelease(key))
    ensures Others(m.id, old(m.pools.held), old(m.pools.store), m.pools.held, m.pools.store)
  {
    m.Release(key);
    KeysShrink(old(m.connections), key);
  }

  method Apply(m: ConnectionManager, op: Op)
    requires m.Valid() && (op.OpFork? ==> m.keyPool.nextKey !in m.connections)
    modifies m`connections, m`connectionsCount, m`releaseFdSet, m`paid, m.pools, m.keyPool
    ensures m.Valid() && ViewOf(m) == old(ViewOf(m)).After(op)
    ensures Others(m.id, old(m.pools.held), old(m.pools.store), m.pools.held, m.pools.store)
  {
    match op {
      case OpGet(key, fd) => ApplyGet(m, key, fd);
      case OpFork(key) => ApplyFork(m, key);
      case OpRelease(key) => ApplyRelease(m, key);
    }
  }

  // ---------------------------------------------------------------- the keys of one manager

  ghost function RunOf(v: View, ops: seq<Op>): View {
    if ops == [] then v else RunOf(v, ops[..|ops| - 1]).After(ops[|ops| - 1])
  }

  /** No fork of the run is given a key that is registered. */
  ghost predicate NoClash(v: View, ops: seq<Op>) {
    forall i :: 0 <= i < |ops| && ops[i].OpFork? ==> RunOf(v, ops[..i]).next !in RunOf(v, ops[..i]).keys
  }

  /** The datagram worker gets only key 1 and keys that were issued, for its socket and for the
      connections forked from it: no fork ever clashes. */
  lemma {:induction false} DatagramNeverClashes(v: View, ops: seq<Op>)
    requires v.next >= FIRST_FREE_KEY && forall k :: k in v.keys ==> k < v.next
    requires forall i :: 0 <= i < |ops| && ops[i].OpGet? ==> ops[i].key < RunOf(v, ops[..i]).next
    ensures NoClash(v, ops)
    ensures v.next <= RunOf(v, ops).next && forall k :: k in RunOf(v, ops).keys ==> k < RunOf(v, ops).next
  {
    if ops != [] {
      var rest := ops[..|ops| - 1];
      assert forall i :: 0 <= i < |rest| ==> rest[..i] == ops[..i] && rest[i] == ops[i];
      DatagramNeverClashes(v, rest);
      forall i | 0 <= i < |ops| && ops[i].OpFork? ensures RunOf(v, ops[..i]).next !in RunOf(v, ops[..i]).keys {
        if i < |rest| {
          assert rest[..i] == ops[..i] && rest[i] == ops[i];
        } else {
          assert ops[..i] == rest;
        }
      }
    }
  }

  /** A get by descriptor can make it clash: descriptor 2 is the first key issued. */
  lemma GetCanClash(v: View)
    requires v.next == FIRST_FREE_KEY && 1 in v.keys
    ensures !NoClash(v, [OpGet(2, 2), OpFork(1)])
  {
    var ops := [OpGet(2, 2), OpFork(1)];
    assert ops[..1] == [OpGet(2, 2)];
    assert RunOf(v, ops[..1]) == RunOf(v, []).After(OpGet(2, 2)) by { assert ops[..1][..0] == []; }
    assert ops[1].OpFork?;
  }

  ghost function Issued(v: View, ops: seq<Op>): seq<nat> {
    if ops == [] then [] else
      var rest := ops[..|ops| - 1];
      var last := ops[|ops| - 1];
      Issued(v, rest) + if last.OpFork? && last.key in RunOf(v, rest).keys then [RunOf(v, rest).next] else []
  }

  /** Keys are issued in increasing order without a gap; none comes twice, although `release`
      hands keys back. */
  lemma {:induction false} KeysAreNotReused(v: View, ops: seq<Op>)
    ensures |Issued(v, ops)| == RunOf(v, ops).next - v.next
    ensures forall i :: 0 <= i < |Issued(v, ops)| ==> Issued(v, ops)[i] == v.next + i
  {
    if ops != [] { KeysAreNotReused(v, ops[..|ops| - 1]); }
  }

  /** A registered key has been paid exactly if the run releases it. */
  lemma {:induction false} PaidIsReleased(v: View, ops: seq<Op>, key: int)
    requires key in v.keys && key !in v.paid
    ensures key in RunOf(v, ops).paid <==> OpRelease(key) in ops
    ensures OpRelease(key) !in ops ==> key in RunOf(v, ops).keys
  {
    if ops != [] {
      var rest, last := ops[..|ops| - 1], ops[|ops| - 1];
      PaidIsReleased(v, rest, key);
      assert ops == rest + [last];
    }
  }

  /** A descriptor that is nobody's key stays unpaid for ever. */
  lemma {:induction false} ForeignFdIsNeverPaid(v: View, ops: seq<Op>, fd: int)
    requires fd !in v.keys && fd !in v.paid && fd < v.next
    requires forall i :: 0 <= i < |ops| && ops[i].OpGet? ==> ops[i].key != fd
    ensures fd !in RunOf(v, ops).paid && fd !in RunOf(v, ops).keys && v.next <= RunOf(v, ops).next
  {
    if ops != [] { ForeignFdIsNeverPaid(v, ops[..|ops| - 1], fd); }
  }

  // ---------------------------------------------------------------- managers that share the pools

  /** Managers with numbers of their own on the same pools. */
  ghost predicate Together(ms: seq<ConnectionManager>, pools: Pools) {
    && (forall i :: 0 <= i < |ms| ==> ms[i].pools == pools)
    && (forall i, j :: 0 <= i < j < |ms| ==> ms[i].id != ms[j].id && ms[i].keyPool != ms[j].keyPool)
  }

  ghost function KeyPools(ms: seq<ConnectionManager>): set<KeyPool> {
    set i | 0 <= i < |ms| :: ms[i].keyPool
  }

  ghost predicate World(ms: seq<ConnectionManager>, pools: Pools)
    reads pools, ms, KeyPools(ms)
  {
    Together(ms, pools) && forall i :: 0 <= i < |ms| ==> ms[i].Valid()
  }

  /** Whoever has them: different live connections have different buffers, and none is in the
      pool. */
  lemma OwnersAreExclusive(ms: seq<ConnectionManager>, pools: Pools, i: nat, k: int, j: nat, l: int)
    requires World(ms, pools) && i < |ms| && j < |ms| && k in ms[i].connections && l in ms[j].connections
    requires i != j || k != l
    ensures ms[i].Live()[k].Buffers() !! ms[j].Live()[l].Buffers()
    ensures ms[i].Live()[k].Equipped() && ms[i].Live()[k].Buffers() !! pools.buffers
  {
    var r, q := ms[i].connections[k], ms[j].connections[l];
    assert r != q && Has(pools.store[r], r, pools.users) && Has(pools.store[q], q, pools.users);
  }

  ghost function Views(ms: seq<ConnectionManager>): (views: seq<View>)
    reads ms, KeyPools(ms)
    ensures |views| == |ms| && forall i :: 0 <= i < |ms| ==> views[i] == ViewOf(ms[i])
  {
    seq(|ms|, i requires 0 <= i < |ms| reads ms, KeyPools(ms) => ViewOf(ms[i]))
  }

  method ApplyAt(ms: seq<ConnectionManager>, pools: Pools, i: nat, op: Op)
    requires World(ms, pools) && i < |ms| && (op.OpFork? ==> ms[i].keyPool.nextKey !in ms[i].connections)
    modifies pools, ms`connections, ms`connectionsCount, ms`releaseFdSet, ms`paid, KeyPools(ms)
    ensures World(ms, pools) && Views(ms) == old(Views(ms))[i := old(Views(ms))[i].After(op)]
  {
    Apply(ms[i], op);
    forall j | 0 <= j < |ms| && j != i
      ensures ms[j].Valid() && ViewOf(ms[j]) == old(ViewOf(ms[j]))
    {
      StillMine(ms[j].connections, ms[j].id, ms[i].id, old(pools.held), old(pools.store), pools.held, pools.store);
    }
  }

  /** A call of manager number `who`. */
  datatype Call = Call(who: nat, op: Op)

  /** The calls of manager number `i`. */
  ghost function Of(calls: seq<Call>, i: nat): seq<Op> {
    if calls == [] then []
    else Of(calls[..|calls| - 1], i) + if calls[|calls| - 1].who == i then [calls[|calls| - 1].op] else []
  }

  lemma {:induction false} OfPrefix(calls: seq<Call>, k: nat, i: nat)
    requires k <= |calls|
    ensures Of(calls[..k], i) <= Of(calls, i)
  {
    if k < |calls| {
      OfPrefix(calls[..|calls| - 1], k, i);
      assert calls[..|calls| - 1][..k] == calls[..k];
    } else {
      assert calls[..k] == calls;
    }
  }

  lemma OfNext(calls: seq<Call>, k: nat, i: nat)
    requires k < |calls|
    ensures Of(calls[..k + 1], i) == Of(calls[..k], i) + if calls[k].who == i then [calls[k].op] else []
  {
    assert calls[..k + 1][..k] == calls[..k];
  }

  lemma RunNext(v: View, ops: seq<Op>, op: Op)
    ensures RunOf(v, ops + [op]) == RunOf(v, ops).After(op)
  {
    assert (ops + [op])[..|ops|] == ops;
  }

  /** What the calls do to the managers' keys. */
  ghost function AllAfter(views: seq<View>, calls: seq<Call>): (after: seq<View>)
    ensures |after| == |views|
  {
    if calls == [] then views
    else
      var before, c := AllAfter(views, calls[..|calls| - 1]), calls[|calls| - 1];
      if c.who < |views| then before[c.who := before[c.who].After(c.op)] else before
  }

  /** Each manager sees its own calls only. */
  lemma {:induction false} EachItsOwn(views: seq<View>, calls: seq<Call>, i: nat)
    requires i < |views|
    ensures AllAfter(views, calls)[i] == RunOf(views[i], Of(calls, i))
  {
    if calls != [] {
      var rest, c := calls[..|calls| - 1], calls[|calls| - 1];
      EachItsOwn(views, rest, i);
      if c.who == i { RunNext(views[i], Of(rest, i), c.op); } else { assert Of(rest, i) + [] == Of(rest, i); }
    }
  }

  /** The fork that is next does not clash. */
  lemma NextDoesNotClash(views: seq<View>, calls: seq<Call>, k: nat)
    requires k < |calls| && calls[k].who < |views| && NoClash(views[calls[k].who], Of(calls, calls[k].who)) && calls[k].op.OpFork?
    ensures var now := AllAfter(views, calls[..k])[calls[k].who]; now.next !in now.keys
  {
    var i := calls[k].who;
    OfAt(calls, k, i);
    EachItsOwn(views, calls[..k], i);
  }

  /** Where call `k` stands among the calls of its manager. */
  lemma OfAt(calls: seq<Call>, k: nat, i: nat)
    requires k < |calls| && calls[k].who == i
    ensures var n := |Of(calls[..k], i)|;
            n < |Of(calls, i)| && Of(calls, i)[..n] == Of(calls[..k], i) && Of(calls, i)[n] == calls[k].op
  {
    OfPrefix(calls, k + 1, i);
    OfNext(calls, k, i);
  }

  /** No fork of any manager clashes. */
  ghost predicate NoneClashes(views: seq<View>, calls: seq<Call>) {
    && (forall k :: 0 <= k < |calls| ==> calls[k].who < |views|)
    && (forall i :: 0 <= i < |views| ==> NoClash(views[i], Of(calls, i)))
  }

  /** Any interleaving of the calls of any number of managers in which no fork clashes: all
      of them stay consistent, and no buffer is shared. */
  method Drive(ms: seq<ConnectionManager>, pools: Pools, calls: seq<Call>)
    requires World(ms, pools) && NoneClashes(Views(ms), calls)
    modifies pools, ms`connections, ms`connectionsCount, ms`releaseFdSet, ms`paid, KeyPools(ms)
    ensures World(ms, pools)
    ensures forall i :: 0 <= i < |ms| ==> ViewOf(ms[i]) == RunOf(old(ViewOf(ms[i])), Of(calls, i))
  {
    ghost var views := Views(ms);
    for k := 0 to |calls|
      invariant World(ms, pools) && Views(ms) == AllAfter(views, calls[..k])
    {
      assert calls[..k + 1][..k] == calls[..k];
      if calls[k].op.OpFork? { NextDoesNotClash(views, calls, k); }
      ApplyAt(ms, pools, calls[k].who, calls[k].op);
    }
    assert calls[..|calls|] == calls;
    forall i | 0 <= i < |ms| ensures ViewOf(ms[i]) == RunOf(views[i], Of(calls, i)) {
      EachItsOwn(views, calls, i);
    }
  }

  /** Of the connections under `keys`, those whose close request was accepted are released. */
  ghost predicate AllReleased(keys: set<int>, accepts: set<int>, skipped: int, ops: seq<Op>) {
    forall k :: k in keys && k in accepts && k != skipped ==> OpRelease(k) in ops
  }

  lemma PaidIfReleased(live: map<int, Conn>, accepts: set<int>, skipped: int, v: View, ops: seq<Op>)
    requires (forall k :: k in live ==> live[k].fd == k) && v.keys == live.Keys && v.paid == {}
    ensures AcceptedFds(live, live.Keys, accepts, skipped) <= RunOf(v, ops).paid <==> AllReleased(live.Keys, accepts, skipped, ops)
  {
    var owed := AcceptedFds(live, live.Keys, accepts, skipped);
    assert forall k :: k in owed <==> k in live && k in accepts && k != skipped;
    forall k | k in owed ensures k in RunOf(v, ops).paid <==> OpRelease(k) in ops {
      PaidIsReleased(v, ops, k);
    }
  }

  /** After `close` on manager `i`, whose keys are descriptors, whatever calls of all managers
      follow: `allClosed` holds exactly if every connection whose close request was accepted
      has been released. */
  method DriveClosing(ms: seq<ConnectionManager>, pools: Pools, i: nat, accepts: set<int>, fdSkipped: int, calls: seq<Call>)
    returns (all: bool)
    requires World(ms, pools) && i < |ms| && NoneClashes(Views(ms), calls)
    requires forall k :: k in ms[i].connections ==> ms[i].Live()[k].fd == k
    modifies pools, ms, KeyPools(ms)
    ensures World(ms, pools)
    ensures all <==> AllReleased(old(ms[i].connections.Keys), accepts, fdSkipped, Of(calls, i))
  {
    ghost var v := ViewOf(ms[i]).(paid := {});
    PaidIfReleased(ms[i].Live(), accepts, fdSkipped, v, Of(calls, i));
    CloseOne(ms, pools, i, accepts, fdSkipped);
    PaidDoesNotMatter(old(Views(ms)), i, calls);
    all := DriveAndAsk(ms, pools, i, calls);
  }

  method DriveAndAsk(ms: seq<ConnectionManager>, pools: Pools, i: nat, calls: seq<Call>) returns (all: bool)
    requires World(ms, pools) && i < |ms| && NoneClashes(Views(ms), calls) && ms[i].closing
    modifies pools, ms`connections, ms`connectionsCount, ms`releaseFdSet, ms`paid, KeyPools(ms)
    ensures World(ms, pools)
    ensures all <==> ms[i].owed <= RunOf(old(ViewOf(ms[i])), Of(calls, i)).paid
  {
    Drive(ms, pools, calls);
    all := ms[i].AllClosed();
  }

  method CloseOne(ms: seq<ConnectionManager>, pools: Pools, i: nat, accepts: set<int>, fdSkipped: int)
    requires World(ms, pools) && i < |ms|
    modifies ms`closing, ms`releaseFdSet, ms`owed, ms`paid
    ensures World(ms, pools) && Views(ms) == old(Views(ms))[i := old(Views(ms))[i].(paid := {})]
    ensures ms[i].closing && ms[i].owed == AcceptedFds(old(ms[i].Live()), old(ms[i].connections.Keys), accepts, fdSkipped)
  {
    ms[i].Close(accepts, fdSkipped);
    forall j | 0 <= j < |ms| && j != i
      ensures ms[j].Valid() && ViewOf(ms[j]) == old(ViewOf(ms[j]))
    {
      assert ms[j].id != ms[i].id;
    }
  }

  lemma {:induction false} PaidApart(v: View, ops: seq<Op>)
    ensures RunOf(v, ops).keys == RunOf(v.(paid := {}), ops).keys && RunOf(v, ops).next == RunOf(v.(paid := {}), ops).next
  {
    if ops != [] { PaidApart(v, ops[..|ops| - 1]); }
  }

  lemma PaidDoesNotMatter(views: seq<View>, i: nat, calls: seq<Call>)
    requires i < |views| && NoneClashes(views, calls)
    ensures NoneClashes(views[i := views[i].(paid := {})], calls)
  {
    var v, ops := views[i].(paid := {}), Of(calls, i);
    forall n | 0 <= n < |ops| && ops[n].OpFork? ensures RunOf(v, ops[..n]).next !in RunOf(v, ops[..n]).keys {
      PaidApart(views[i], ops[..n]);
    }
  }
}
