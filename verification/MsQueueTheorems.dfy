/** What holds of the queue in every run: any number of threads, any interleaving. */
module MsQueueTheorems {
  import opened Sequences
  import opened QueueSpec
  import opened MsQueue
  import opened MsQueueInvariant

  /** The history of a run. */
  ghost function History(threads: nat, schedule: seq<Action>): (g: Hist)
    ensures |g.tracks| == |Run(threads, schedule).threads| && g.lens != []
  {
    if schedule == [] then InitHist(threads)
    else
      var before, a := schedule[..|schedule| - 1], schedule[|schedule| - 1];
      Sizes(Run(threads, before), History(threads, before), a);
      Record(Run(threads, before), History(threads, before), a)
  }

  lemma Sizes(s: State, g: Hist, a: Action)
    requires |g.tracks| == |s.threads| && g.lens != []
    ensures |Record(s, g, a).tracks| == |Step(s, a).threads| && Record(s, g, a).lens != []
  {
    if a.Tick? && a.tid < |s.threads| { TickSizes(s, g, a.tid); }
  }

  lemma TickSizes(s: State, g: Hist, i: nat)
    requires i < |s.threads| == |g.tracks| && g.lens != []
    ensures |Watch(s, g, i).tracks| == |g.tracks| && |Execute(s, i).threads| == |s.threads|
  {
  }

  lemma {:induction false} RunInv(threads: nat, schedule: seq<Action>)
    ensures Inv(Run(threads, schedule), History(threads, schedule))
  {
    if schedule == [] {
      InitInv(threads);
    } else {
      var before, a := schedule[..|schedule| - 1], schedule[|schedule| - 1];
      RunInv(threads, before);
      StepInv(Run(threads, before), History(threads, before), a);
    }
  }

  // ---------------------------------------------------------------- the shape of memory

  lemma {:induction false} WalkIsChain(heap: seq<Node>, chain: seq<Ref>, pos: nat, fuel: nat)
    requires pos <= |chain| <= pos + fuel
    requires forall i :: 0 <= i < |chain| - 1 ==> At(heap, chain[i]).next == To(chain[i + 1])
    requires chain != [] ==> At(heap, chain[|chain| - 1]).next == Nil
    ensures Walk(heap, if pos < |chain| then To(chain[pos]) else Nil, fuel) == chain[pos..]
    decreases fuel
  {
    if pos < |chain| {
      WalkIsChain(heap, chain, pos + 1, fuel - 1);
      assert At(heap, chain[pos]).next == if pos + 1 < |chain| then To(chain[pos + 1]) else Nil;
      assert chain[pos..] == [chain[pos]] + chain[pos + 1..];
    }
  }

  /** In every reachable state the nodes from the head on form a finite nil-terminated
      list without repetition; the tail is on it, at most one node before the last; every
      node behind the head holds a value; and no thread has dereferenced nil. */
  lemma ListShape(threads: nat, schedule: seq<Action>)
    ensures var s := Run(threads, schedule);
            var list := Walk(s.heap, To(s.head), |s.heap|);
            && list != [] && At(s.heap, list[|list| - 1]).next == Nil
            && (forall i, j :: 0 <= i < j < |list| ==> list[i] != list[j])
            && (forall i :: 0 < i < |list| ==> At(s.heap, list[i]).value.Holds?)
            && (s.tail == list[|list| - 1] || (|list| >= 2 && s.tail == list[|list| - 2]))
            && (forall i :: 0 <= i < |s.threads| ==> !s.threads[i].pc.Panicked?)
  {
    RunInv(threads, schedule);
    var s, g := Run(threads, schedule), History(threads, schedule);
    WalkFromHead(s, g);
    NobodyPanicked(s, g);
  }

  lemma WalkFromHead(s: State, g: Hist)
    requires Linked(s, g)
    ensures var list := Walk(s.heap, To(s.head), |s.heap|);
            && list != [] && At(s.heap, list[|list| - 1]).next == Nil
            && (forall i, j :: 0 <= i < j < |list| ==> list[i] != list[j])
            && (forall i :: 0 < i < |list| ==> At(s.heap, list[i]).value.Holds?)
            && (s.tail == list[|list| - 1] || (|list| >= 2 && s.tail == list[|list| - 2]))
  {
    WalkIsSuffix(s, g);
    SuffixShape(s.heap, s.head, s.tail, g.chain, g.h, g.t);
  }

  lemma WalkIsSuffix(s: State, g: Hist)
    requires Linked(s, g)
    ensures Walk(s.heap, To(s.head), |s.heap|) == g.chain[g.h..]
  {
    DistinctBelow(g.chain, |s.heap|);
    WalkIsChain(s.heap, g.chain, g.h, |s.heap|);
  }

  lemma SuffixShape(heap: seq<Node>, head: Ref, tail: Ref, chain: seq<Ref>, h: nat, t: nat)
    requires ChainOk(heap, head, tail, chain, h, t)
    ensures var list := chain[h..];
            && list != [] && At(heap, list[|list| - 1]).next == Nil
            && (forall i, j :: 0 <= i < j < |list| ==> list[i] != list[j])
            && (forall i :: 0 < i < |list| ==> At(heap, list[i]).value.Holds?)
            && (tail == list[|list| - 1] || (|list| >= 2 && tail == list[|list| - 2]))
  {
    var list := chain[h..];
    assert forall i :: 0 <= i < |list| ==> list[i] == chain[h + i];
  }

  lemma NobodyPanicked(s: State, g: Hist)
    requires LocalsOk(s, g)
    ensures forall i :: 0 <= i < |s.threads| ==> !s.threads[i].pc.Panicked?
  {
    forall i | 0 <= i < |s.threads|
      ensures !s.threads[i].pc.Panicked?
    {
      assert LocalOk(s, g, i, s.threads[i].pc, g.tracks[i]);
    }
  }

  /** The physical list is the queue that the logged operations describe. */
  lemma QueuedIsReplay(s: State, g: Hist)
    requires Inv(s, g)
    ensures Replay(g.log) == Legal(Queued(s)) && |Queued(s)| == |g.chain| - 1 - g.h
  {
    WalkBehindHead(s, g);
  }

  lemma WalkBehindHead(s: State, g: Hist)
    requires Linked(s, g)
    ensures Walk(s.heap, At(s.heap, s.head).next, |s.heap|) == g.chain[g.h + 1..]
  {
    DistinctBelow(g.chain, |s.heap|);
    WalkIsChain(s.heap, g.chain, g.h + 1, |s.heap|);
    assert At(s.heap, g.chain[g.h]).next == if g.h + 1 < |g.chain| then To(g.chain[g.h + 1]) else Nil;
  }

  // ---------------------------------------------------------------- linearizability

  /** Call `a` stands before call `b` in the linearization: at an earlier log position,
      or, for empty dequeues at the same position, in front of it. */
  ghost predicate Precedes(done: seq<Done>, x: int, y: int)
    requires 0 <= x < |done| && 0 <= y < |done|
  {
    var a, b := done[x], done[y];
    || a.at < b.at
    || (a.at == b.at && a.op.DeqEmpty? && (b.op.DeqEmpty? ==> x < y))
  }

  /** Every run is linearizable. `Weave` is a legal FIFO history ending in the physical
      queue; every call that returned has a place of its own in it, inside the call;
      and calls that did not overlap stand in it in the order they happened. */
  lemma Linearizable(threads: nat, schedule: seq<Action>)
    ensures var s, g := Run(threads, schedule), History(threads, schedule);
            && Replay(Weave(g.log, g.done, |g.log|)) == Legal(Queued(s))
            && (forall x :: 0 <= x < |g.done| ==> Justified(g.log, g.lens, g.done[x]))
            && (forall x, y :: 0 <= x < |g.done| && 0 <= y < |g.done| && g.done[x].returned < g.done[y].called ==>
                  Precedes(g.done, x, y))
            && (forall x, y :: 0 <= x < y < |g.done| && !g.done[x].op.DeqEmpty? && !g.done[y].op.DeqEmpty? ==>
                  g.done[x].at != g.done[y].at)
  {
    RunInv(threads, schedule);
    var s, g := Run(threads, schedule), History(threads, schedule);
    WeaveIsQueued(s, g);
    AllRealTime(g);
    AllOwnEntry(g);
  }

  /** The linearization leaves no call out: it consists of the operations logged, among which every
      other returned call has its own (`Justified`), and of every returned empty dequeue. */
  lemma LinearizationIsComplete(threads: nat, schedule: seq<Action>, e: Entry)
    ensures var g := History(threads, schedule);
            && Times(Weave(g.log, g.done, |g.log|), e) == Times(g.log, e) + Times(Empties(g.done, |g.log|), e)
            && (forall x :: 0 <= x < |g.done| && g.done[x].op.DeqEmpty? ==> g.done[x].at <= |g.log|)
  {
    RunInv(threads, schedule);
    var g := History(threads, schedule);
    WeaveHasAll(g.log, g.done, |g.log|, e);
    assert g.log[..|g.log|] == g.log;
    assert forall x :: 0 <= x < |g.done| ==> Justified(g.log, g.lens, g.done[x]);
  }

  lemma WeaveIsQueued(s: State, g: Hist)
    requires Inv(s, g)
    ensures Replay(Weave(g.log, g.done, |g.log|)) == Legal(Queued(s))
  {
    QueuedIsReplay(s, g);
    WeaveIsReplay(g.log, g.lens, g.done);
  }

  lemma WeaveIsReplay(log: seq<Entry>, lens: seq<nat>, done: seq<Done>)
    requires AllJustified(log, lens, done)
    ensures Replay(Weave(log, done, |log|)) == Replay(log)
  {
    assert forall d :: d in done ==> Justified(log, lens, d);
    WeaveIsLegal(log, lens, done, |log|);
    assert log[..|log|] == log;
  }

  lemma AllRealTime(g: Hist)
    requires TimeOk(g.log, g.lens) && AllJustified(g.log, g.lens, g.done) && Ordered(g.done)
    ensures forall x, y :: 0 <= x < |g.done| && 0 <= y < |g.done| && g.done[x].returned < g.done[y].called ==>
              Precedes(g.done, x, y)
  {
    forall x, y | 0 <= x < |g.done| && 0 <= y < |g.done| && g.done[x].returned < g.done[y].called
      ensures Precedes(g.done, x, y)
    {
      RealTime(g, x, y);
    }
  }

  lemma AllOwnEntry(g: Hist)
    requires TimeOk(g.log, g.lens) && AllJustified(g.log, g.lens, g.done) && Ordered(g.done)
    ensures forall x, y :: 0 <= x < y < |g.done| && !g.done[x].op.DeqEmpty? && !g.done[y].op.DeqEmpty? ==>
              g.done[x].at != g.done[y].at
  {
    forall x, y | 0 <= x < y < |g.done| && !g.done[x].op.DeqEmpty? && !g.done[y].op.DeqEmpty?
      ensures g.done[x].at != g.done[y].at
    {
      OwnEntry(g, x, y);
    }
  }

  lemma RealTime(g: Hist, x: int, y: int)
    requires TimeOk(g.log, g.lens) && AllJustified(g.log, g.lens, g.done) && Ordered(g.done)
    requires 0 <= x < |g.done| && 0 <= y < |g.done| && g.done[x].returned < g.done[y].called
    ensures Precedes(g.done, x, y)
  {
    var a, b := g.done[x], g.done[y];
    assert Justified(g.log, g.lens, a) && Justified(g.log, g.lens, b);
    assert g.lens[a.returned] <= g.lens[b.called];
    assert x < y || x == y || b.returned < a.returned;
  }

  lemma OwnEntry(g: Hist, x: int, y: int)
    requires TimeOk(g.log, g.lens) && AllJustified(g.log, g.lens, g.done) && Ordered(g.done)
    requires 0 <= x < y < |g.done| && !g.done[x].op.DeqEmpty? && !g.done[y].op.DeqEmpty?
    ensures g.done[x].at != g.done[y].at
  {
    assert Justified(g.log, g.lens, g.done[x]) && Justified(g.log, g.lens, g.done[y]);
    if g.done[x].tid == g.done[y].tid { RealTime(g, x, y); }
  }

  /** The values handed out so far, followed by the values still queued, are the values
      linked so far, in link order: nothing is lost, duplicated or reordered. */
  lemma FifoConservation(threads: nat, schedule: seq<Action>)
    ensures var s, g := Run(threads, schedule), History(threads, schedule);
            Enqueued(g.log) == Dequeued(g.log) + Queued(s)
  {
    RunInv(threads, schedule);
    var s, g := Run(threads, schedule), History(threads, schedule);
    QueuedIsReplay(s, g);
    LegalIsFifo(g.log);
  }

  // ---------------------------------------------------------------- the lagging counter

  /** `queueSize`, plus the links not yet counted, minus the unlinks not yet counted, is
      the real length of the list, in every reachable state. */
  lemma CounterLag(threads: nat, schedule: seq<Action>)
    ensures var s := Run(threads, schedule);
            s.size + LagSum(s.threads) == |Queued(s)|
  {
    RunInv(threads, schedule);
    QueuedIsReplay(Run(threads, schedule), History(threads, schedule));
  }

  /** Only thread `c` takes elements out, and only from a loop that checks `IsEmpty` first. */
  ghost predicate OneConsumer(schedule: seq<Action>, c: nat) {
    forall k :: 0 <= k < |schedule| ==> !schedule[k].CallDequeue? && (schedule[k].CallDrain? ==> schedule[k].tid == c)
  }

  predicate Consuming(pc: Pc) {
    || pc.DeqLoadHead? || pc.DeqLoadTail? || pc.DeqLoadNext? || pc.DeqRecheck? || pc.DeqHelp?
    || pc.DeqReadValue? || pc.DeqUnlink? || pc.DeqCount?
  }

  /** A producer never consumes. The consumer does so only while the counter is positive,
      and it never sees a nil `next`. */
  predicate RoleOk(t: Thread, consumer: bool, size: int) {
    if consumer then Consuming(t.pc) ==> size >= 1 && (t.pc.DeqRecheck? ==> t.pc.next.To?)
    else !Consuming(t.pc) && !t.pc.DrainCheck? && !t.draining
  }

  ghost predicate RolesOk(s: State, c: nat) {
    s.size >= 0 && forall i :: 0 <= i < |s.threads| ==> RoleOk(s.threads[i], i == c, s.size)
  }

  ghost predicate NoneEmpty(done: seq<Done>) {
    forall x :: 0 <= x < |done| ==> !done[x].op.DeqEmpty?
  }

  lemma {:induction false} LagSumAtLeast(ts: seq<Thread>)
    requires forall i :: 0 <= i < |ts| ==> Lag(ts[i]) >= 0
    ensures LagSum(ts) >= 0
  {
    if ts != [] { LagSumAtLeast(ts[..|ts| - 1]); }
  }

  /** With one consumer, a consumer about to load `next` finds an element. */
  lemma ConsumerFindsElement(s: State, g: Hist, c: nat)
    requires Inv(s, g) && RolesOk(s, c) && c < |s.threads| && s.threads[c].pc.DeqLoadNext?
    ensures At(s.heap, s.threads[c].pc.head).next.To?
  {
    forall i | 0 <= i < |s.threads|
      ensures Lag(s.threads[i]) >= 0
    {
      assert RoleOk(s.threads[i], i == c, s.size);
    }
    LagSumAtLeast(s.threads);
    assert RoleOk(s.threads[c], true, s.size);
    assert LocalOk(s, g, c, s.threads[c].pc, g.tracks[c]);
    NextOnChain(s, g, g.tracks[c].headPos);
  }

  lemma RolesTick(s: State, i: nat, c: nat)
    requires RolesOk(s, c) && i < |s.threads|
    requires s.threads[i].pc.DeqLoadNext? ==> At(s.heap, s.threads[i].pc.head).next.To?
    ensures RolesOk(Execute(s, i), c)
  {
    var s' := Execute(s, i);
    assert RoleOk(s.threads[i], i == c, s.size);
    forall j | 0 <= j < |s.threads|
      ensures RoleOk(s'.threads[j], j == c, s'.size)
    {
      assert RoleOk(s.threads[j], j == c, s.size);
    }
  }

  lemma ReturnsTick(s: State, g: Hist, i: nat, c: nat)
    requires RolesOk(s, c) && i < |s.threads| == |g.tracks| && g.lens != [] && NoneEmpty(g.done)
    ensures NoneEmpty(Watch(s, g, i).done)
  {
    assert RoleOk(s.threads[i], i == c, s.size);
  }

  lemma {:induction false} ConsumerRun(threads: nat, schedule: seq<Action>, c: nat)
    requires OneConsumer(schedule, c)
    ensures RolesOk(Run(threads, schedule), c) && NoneEmpty(History(threads, schedule).done)
  {
    if schedule != [] {
      var n := |schedule| - 1;
      ConsumerRun(threads, schedule[..n], c);
      RunInv(threads, schedule[..n]);
      ConsumerStep(Run(threads, schedule[..n]), History(threads, schedule[..n]), schedule[n], c);
    }
  }

  lemma ConsumerStep(s: State, g: Hist, a: Action, c: nat)
    requires Inv(s, g) && RolesOk(s, c) && NoneEmpty(g.done) && !a.CallDequeue? && (a.CallDrain? ==> a.tid == c)
    ensures RolesOk(Step(s, a), c) && NoneEmpty(Record(s, g, a).done)
  {
    if a.Tick? && a.tid < |s.threads| {
      if s.threads[a.tid].pc.DeqLoadNext? {
        assert RoleOk(s.threads[a.tid], a.tid == c, s.size);
        ConsumerFindsElement(s, g, c);
      }
      RolesTick(s, a.tid, c);
      ReturnsTick(s, g, a.tid, c);
    } else {
      RolesCall(s, a, c);
    }
  }

  lemma RolesCall(s: State, a: Action, c: nat)
    requires RolesOk(s, c) && !a.CallDequeue? && (a.CallDrain? ==> a.tid == c)
    requires !a.Tick? || a.tid >= |s.threads|
    ensures RolesOk(Step(s, a), c)
  {
    forall j | 0 <= j < |s.threads|
      ensures RoleOk(Step(s, a).threads[j], j == c, s.size)
    {
      assert RoleOk(s.threads[j], j == c, s.size);
    }
  }

  /** With one draining consumer and any number of producers, the `IsEmpty`-then-`Dequeue`
      loop never receives the zero value of an empty queue, and the counter is never negative. */
  lemma DrainIsSafe(threads: nat, schedule: seq<Action>, c: nat)
    requires OneConsumer(schedule, c)
    ensures Run(threads, schedule).size >= 0
    ensures NoneEmpty(History(threads, schedule).done)
  {
    ConsumerRun(threads, schedule, c);
  }
}
