/** History variables for the queue machine and the invariant every step keeps.

    The history never influences the machine: `Record` only watches it. */
module MsQueueInvariant {
  import opened QueueSpec
  import opened MsQueue

  /** What a thread has done in its current call: the chain positions of the head
      and tail it loaded, when the call began, and the log position of its effect. */
  datatype Track = Track(headPos: nat, tailPos: nat, called: nat, mark: nat)

  /** `chain` lists every node ever linked, in link order; head and tail stand at
      positions `h` and `t` of it. `lens` has the length of the log at each moment. */
  datatype Hist = Hist(
    chain: seq<Ref>, h: nat, t: nat, log: seq<Entry>, lens: seq<nat>, tracks: seq<Track>, done: seq<Done>)

  function InitHist(threads: nat): Hist {
    Hist([0], 0, 0, [], [0], seq(threads, _ => Track(0, 0, 0, 0)), [])
  }

  function Note(g: Hist, i: nat, k: Track): Hist
    requires i < |g.tracks|
  {
    g.(tracks := g.tracks[i := k])
  }

  /** The present moment. */
  function Now(g: Hist): nat
    requires g.lens != []
  {
    |g.lens| - 1
  }

  function Begin(g: Hist, i: nat): Hist
    requires i < |g.tracks| && g.lens != []
  {
    Note(g, i, g.tracks[i].(called := Now(g)))
  }

  function Effect(g: Hist, i: nat, op: Op): Hist
    requires i < |g.tracks|
  {
    Note(g, i, g.tracks[i].(mark := |g.log|)).(log := g.log + [Entry(i, op)])
  }

  function Finish(g: Hist, i: nat, op: Op): Hist
    requires i < |g.tracks| && g.lens != []
  {
    var k := g.tracks[i];
    Note(g, i, k.(called := Now(g) + 1)).(done := g.done + [Done(i, op, k.called, k.mark, Now(g))])
  }

  function Later(g: Hist): Hist {
    g.(lens := g.lens + [|g.log|])
  }

  function Record(s: State, g: Hist, a: Action): Hist
    requires |g.tracks| == |s.threads| && g.lens != []
  {
    Later(if a.tid >= |s.threads| then g
          else if a.Tick? then Watch(s, g, a.tid)
          else if s.threads[a.tid].pc.Idle? then Begin(g, a.tid) else g)
  }

  function Watch(s: State, g: Hist, i: nat): Hist
    requires i < |g.tracks| == |s.threads| && g.lens != []
  {
    var k := g.tracks[i];
    match s.threads[i].pc
    case EnqLoadTail(_) => Note(g, i, k.(tailPos := g.t))
    case EnqLink(n, tl) =>
      if At(s.heap, tl).next.Nil? then Effect(g, i, Enq(Val(s.heap, n))).(chain := g.chain + [n]) else g
    case EnqSwing(_, tl) => if s.tail == tl then g.(t := g.t + 1) else g
    case EnqHelp(_, tl, _) => if s.tail == tl then g.(t := g.t + 1) else g
    case EnqCount(n) => Finish(g, i, Enq(Val(s.heap, n)))
    case DrainCheck => if s.size == 0 then g else Begin(g, i)
    case DeqLoadHead => Note(g, i, k.(headPos := g.h))
    case DeqLoadTail(_) => Note(g, i, k.(tailPos := g.t))
    case DeqLoadNext(hd, _) => if At(s.heap, hd).next.Nil? then Note(g, i, k.(mark := |g.log|)) else g
    case DeqRecheck(hd, tl, nx) => if hd == s.head && hd == tl && nx.Nil? then Finish(g, i, DeqEmpty) else g
    case DeqHelp(tl, _) => if s.tail == tl then g.(t := g.t + 1) else g
    case DeqUnlink(hd, _, v) => if s.head == hd then Effect(g, i, Deq(v)).(h := g.h + 1) else g
    case DeqCount(v) => Finish(g, i, Deq(v))
    case _ => g
  }

  // ---------------------------------------------------------------- the invariant

  /** The linked nodes form one nil-terminated list without repetition; head and tail
      stand on it, head never ahead of tail, tail at most one node behind the last. */
  ghost predicate ChainOk(heap: seq<Node>, head: Ref, tail: Ref, chain: seq<Ref>, h: nat, t: nat) {
    && 0 < |chain| && h <= t < |chain| <= t + 2
    && head == chain[h] && tail == chain[t]
    && (forall i, j :: 0 <= i < j < |chain| ==> chain[i] != chain[j])
    && (forall i :: 0 <= i < |chain| ==> chain[i] < |heap|)
    && (forall i {:trigger At(heap, chain[i])} :: 0 < i < |chain| ==> At(heap, chain[i]).value.Holds?)
    && (forall i {:trigger At(heap, chain[i])} :: 0 <= i < |chain| - 1 ==> At(heap, chain[i]).next == To(chain[i + 1]))
    && At(heap, chain[|chain| - 1]).next == Nil
  }

  ghost predicate Linked(s: State, g: Hist) {
    ChainOk(s.heap, s.head, s.tail, g.chain, g.h, g.t)
  }

  /** Replaying the log gives exactly the values linked behind the head. */
  ghost predicate LogOk(heap: seq<Node>, chain: seq<Ref>, h: nat, log: seq<Entry>) {
    h < |chain| && Replay(log) == Legal(Vals(heap, chain[h + 1..]))
  }

  /** The node of an enqueue that has not been linked yet. */
  function OwnNode(pc: Pc): Ptr {
    match pc
    case EnqLoadTail(n) => To(n)
    case EnqLoadNext(n, _) => To(n)
    case EnqRecheck(n, _, _) => To(n)
    case EnqLink(n, _) => To(n)
    case EnqHelp(n, _, _) => To(n)
    case _ => Nil
  }

  function Own(ts: seq<Thread>, i: nat): Ptr {
    if i < |ts| then OwnNode(ts[i].pc) else Nil
  }

  ghost predicate Private(heap: seq<Node>, chain: seq<Ref>, n: Ref) {
    n < |heap| && n !in chain && heap[n].value.Holds? && heap[n].next == Nil
  }

  ghost predicate OwnOk(heap: seq<Node>, chain: seq<Ref>, ts: seq<Thread>) {
    && (forall i: nat :: Own(ts, i).To? ==> Private(heap, chain, Own(ts, i).ref))
    && (forall i: nat, j: nat :: i != j && Own(ts, i).To? ==> Own(ts, i) != Own(ts, j))
  }

  ghost predicate OnChain(g: Hist, pos: nat, r: Ref) {
    pos < |g.chain| && g.chain[pos] == r
  }

  ghost predicate Follows(g: Hist, pos: nat, r: Ref) {
    pos + 1 < |g.chain| && g.chain[pos + 1] == r
  }

  ghost predicate Marked(g: Hist, i: nat, k: Track, op: Op) {
    k.called < |g.lens| && g.lens[k.called] <= k.mark < |g.log| && g.log[k.mark] == Entry(i, op)
  }

  ghost predicate WasEmpty(g: Hist, k: Track) {
    k.called < |g.lens| && g.lens[k.called] <= k.mark <= |g.log| && Replay(g.log[..k.mark]) == Legal([])
  }

  ghost predicate EnqOk(s: State, g: Hist, i: nat, pc: Pc, k: Track) {
    match pc
    case EnqLoadNext(_, tl) => OnChain(g, k.tailPos, tl) && k.tailPos <= g.t
    case EnqRecheck(_, tl, nx) =>
      OnChain(g, k.tailPos, tl) && k.tailPos <= g.t && (nx.To? ==> Follows(g, k.tailPos, nx.ref))
    case EnqLink(_, tl) => OnChain(g, k.tailPos, tl) && k.tailPos <= g.t
    case EnqHelp(_, tl, nx) => OnChain(g, k.tailPos, tl) && Follows(g, k.tailPos, nx)
    case EnqSwing(n, tl) =>
      OnChain(g, k.tailPos, tl) && Follows(g, k.tailPos, n) && n < |s.heap| && Marked(g, i, k, Enq(Val(s.heap, n)))
    case EnqCount(n) => n < |s.heap| && Marked(g, i, k, Enq(Val(s.heap, n)))
    case _ => true
  }

  ghost predicate DeqOk(s: State, g: Hist, i: nat, pc: Pc, k: Track) {
    match pc
    case DeqLoadTail(hd) => OnChain(g, k.headPos, hd) && k.headPos <= g.h
    case DeqLoadNext(hd, tl) =>
      OnChain(g, k.headPos, hd) && OnChain(g, k.tailPos, tl) && k.headPos <= g.h && k.headPos <= k.tailPos <= g.t
    case DeqRecheck(hd, tl, nx) =>
      && OnChain(g, k.headPos, hd) && OnChain(g, k.tailPos, tl)
      && k.headPos <= g.h && k.headPos <= k.tailPos <= g.t
      && if nx.Nil? then k.headPos == k.tailPos && WasEmpty(g, k) else Follows(g, k.headPos, nx.ref)
    case DeqHelp(tl, nx) => OnChain(g, k.tailPos, tl) && Follows(g, k.tailPos, nx)
    case DeqReadValue(hd, nx) =>
      OnChain(g, k.headPos, hd) && k.headPos < g.t && nx.To? && Follows(g, k.headPos, nx.ref)
    case DeqUnlink(hd, nx, v) =>
      && OnChain(g, k.headPos, hd) && k.headPos < g.t && Follows(g, k.headPos, nx)
      && nx < |s.heap| && Val(s.heap, nx) == v
    case DeqCount(v) => Marked(g, i, k, Deq(v))
    case Panicked => false
    case _ => true
  }

  /** What a thread's local variables are known to be. */
  ghost predicate LocalOk(s: State, g: Hist, i: nat, pc: Pc, k: Track) {
    k.called < |g.lens| && EnqOk(s, g, i, pc, k) && DeqOk(s, g, i, pc, k)
  }

  ghost predicate LocalsOk(s: State, g: Hist) {
    && |g.tracks| == |s.threads|
    && forall i :: 0 <= i < |s.threads| ==> LocalOk(s, g, i, s.threads[i].pc, g.tracks[i])
  }

  ghost predicate TimeOk(log: seq<Entry>, lens: seq<nat>) {
    && lens != [] && lens[|lens| - 1] == |log|
    && forall i, j :: 0 <= i <= j < |lens| ==> lens[i] <= lens[j]
  }

  ghost predicate AllJustified(log: seq<Entry>, lens: seq<nat>, done: seq<Done>) {
    forall x :: 0 <= x < |done| ==> Justified(log, lens, done[x]) && done[x].returned < |lens| - 1
  }

  /** Calls are listed in the order they returned, and those of one thread do not overlap. */
  ghost predicate Ordered(done: seq<Done>) {
    && (forall x, y :: 0 <= x < y < |done| ==> done[x].returned < done[y].returned)
    && (forall x, y :: 0 <= x < y < |done| && done[x].tid == done[y].tid ==> done[x].returned < done[y].called)
  }

  ghost predicate Past(done: seq<Done>, tracks: seq<Track>) {
    forall x :: 0 <= x < |done| ==> done[x].tid < |tracks| && done[x].returned < tracks[done[x].tid].called
  }

  /** The counter, corrected by what the threads in flight still owe it, is the real length. */
  ghost predicate CountOk(size: int, ts: seq<Thread>, length: int) {
    size + LagSum(ts) == length
  }

  ghost predicate Inv(s: State, g: Hist) {
    && Linked(s, g) && LogOk(s.heap, g.chain, g.h, g.log) && OwnOk(s.heap, g.chain, s.threads)
    && LocalsOk(s, g) && TimeOk(g.log, g.lens)
    && AllJustified(g.log, g.lens, g.done) && Ordered(g.done) && Past(g.done, g.tracks)
    && CountOk(s.size, s.threads, |g.chain| - 1 - g.h)
  }

  // ---------------------------------------------------------------- small facts

  lemma {:induction false} LagSumUpdate(ts: seq<Thread>, i: nat, t: Thread)
    requires i < |ts|
    ensures LagSum(ts[i := t]) == LagSum(ts) - Lag(ts[i]) + Lag(t)
  {
    var n := |ts| - 1;
    if i < n {
      LagSumUpdate(ts[..n], i, t);
      assert ts[i := t][..n] == ts[..n][i := t];
    } else {
      assert ts[i := t][..n] == ts[..n];
    }
  }

  lemma {:induction false} LagSumIdle(ts: seq<Thread>)
    requires forall i :: 0 <= i < |ts| ==> ts[i].pc.Idle?
    ensures LagSum(ts) == 0
  {
    if ts != [] { LagSumIdle(ts[..|ts| - 1]); }
  }

  lemma InitInv(n: nat)
    ensures Inv(Init(n), InitHist(n))
  {
    LagSumIdle(Init(n).threads);
  }

  /** A chain node whose `next` is nil is the last one; any other links to its successor. */
  lemma NextOnChain(s: State, g: Hist, pos: nat)
    requires Linked(s, g) && pos < |g.chain|
    ensures var nx := At(s.heap, g.chain[pos]).next;
            if nx.Nil? then pos == |g.chain| - 1 else Follows(g, pos, nx.ref)
  {
    if pos < |g.chain| - 1 { assert At(s.heap, g.chain[pos]).next == To(g.chain[pos + 1]); }
  }

  // ---------------------------------------------------------------- frames

  /** Nothing shared moved backwards, and the threads other than `i` did not move at all. */
  ghost predicate Onward(s: State, g: Hist, s': State, g': Hist, i: nat) {
    && |s'.threads| == |s.threads| == |g.tracks| == |g'.tracks| && i < |s.threads|
    && |s.heap| <= |s'.heap| && (forall r :: 0 <= r < |s.heap| ==> s'.heap[r].value == s.heap[r].value)
    && g.chain <= g'.chain && g.log <= g'.log && g.lens <= g'.lens && g.h <= g'.h && g.t <= g'.t
    && (forall j :: 0 <= j < |s.threads| && j != i ==> s'.threads[j] == s.threads[j] && g'.tracks[j] == g.tracks[j])
  }

  lemma LocalStays(s: State, g: Hist, s': State, g': Hist, i: nat, j: nat, pc: Pc, k: Track)
    requires LocalOk(s, g, j, pc, k) && Onward(s, g, s', g', i)
    ensures LocalOk(s', g', j, pc, k)
  {
    assert forall r: Ref :: r < |s.heap| ==> Val(s'.heap, r) == Val(s.heap, r);
    assert k.mark <= |g.log| ==> g'.log[..k.mark] == g.log[..k.mark];
  }

  lemma LocalsFrom(s: State, g: Hist, s': State, g': Hist, i: nat)
    requires LocalsOk(s, g) && Onward(s, g, s', g', i)
    requires LocalOk(s', g', i, s'.threads[i].pc, g'.tracks[i])
    ensures LocalsOk(s', g')
  {
    forall j | 0 <= j < |s.threads| && j != i
      ensures LocalOk(s', g', j, s'.threads[j].pc, g'.tracks[j])
    {
      LocalStays(s, g, s', g', i, j, s.threads[j].pc, g.tracks[j]);
    }
  }

  /** Private nodes stay private when thread `i` keeps its node, drops it, or has a fresh one. */
  lemma OwnFrom(heap: seq<Node>, chain: seq<Ref>, ts: seq<Thread>, heap': seq<Node>, chain': seq<Ref>, i: nat, t: Thread)
    requires OwnOk(heap, chain, ts) && i < |ts|
    requires forall j: nat :: j != i && Own(ts, j).To? ==> Private(heap', chain', Own(ts, j).ref)
    requires OwnNode(t.pc).To? ==> Private(heap', chain', OwnNode(t.pc).ref)
    requires OwnNode(t.pc) == Nil || OwnNode(t.pc) == Own(ts, i) || OwnNode(t.pc) == To(|heap|)
    ensures OwnOk(heap', chain', ts[i := t])
  {
    var ts' := ts[i := t];
    assert forall j: nat :: Own(ts', j) == if j == i then OwnNode(t.pc) else Own(ts, j);
    assert forall j: nat :: Own(ts, j).To? ==> Own(ts, j).ref < |heap|;
  }

  lemma OwnKept(heap: seq<Node>, chain: seq<Ref>, ts: seq<Thread>, i: nat, t: Thread)
    requires OwnOk(heap, chain, ts) && i < |ts| && (OwnNode(t.pc) == Nil || OwnNode(t.pc) == Own(ts, i))
    ensures OwnOk(heap, chain, ts[i := t])
  {
    OwnFrom(heap, chain, ts, heap, chain, i, t);
  }

  lemma JustifiedStays(log: seq<Entry>, lens: seq<nat>, done: seq<Done>, log': seq<Entry>, lens': seq<nat>)
    requires AllJustified(log, lens, done) && log <= log' && lens <= lens'
    ensures AllJustified(log', lens', done)
  {
    forall x | 0 <= x < |done|
      ensures Justified(log', lens', done[x])
    {
      assert Justified(log, lens, done[x]);
      assert log'[..done[x].at] == log[..done[x].at];
    }
  }

  lemma TimeStays(log: seq<Entry>, lens: seq<nat>, log': seq<Entry>)
    requires TimeOk(log, lens) && log <= log'
    ensures TimeOk(log', lens + [|log'|])
  {
  }

  /** The bookkeeping of a step after which nobody has returned. */
  lemma HistoryStays(g: Hist, g': Hist, i: nat)
    requires TimeOk(g.log, g.lens) && AllJustified(g.log, g.lens, g.done) && Past(g.done, g.tracks)
    requires g'.done == g.done && g.log <= g'.log && g'.lens == g.lens + [|g'.log|]
    requires i < |g'.tracks| == |g.tracks| && g'.tracks[i].called >= g.tracks[i].called
    requires forall j :: 0 <= j < |g.tracks| && j != i ==> g'.tracks[j] == g.tracks[j]
    ensures TimeOk(g'.log, g'.lens) && AllJustified(g'.log, g'.lens, g'.done) && Past(g'.done, g'.tracks)
  {
    TimeStays(g.log, g.lens, g'.log);
    JustifiedStays(g.log, g.lens, g.done, g'.log, g'.lens);
  }

  /** The bookkeeping of a step without effect. */
  lemma HistoryLater(g: Hist)
    requires TimeOk(g.log, g.lens) && AllJustified(g.log, g.lens, g.done)
    ensures TimeOk(Later(g).log, Later(g).lens) && AllJustified(Later(g).log, Later(g).lens, g.done)
  {
    TimeStays(g.log, g.lens, g.log);
    JustifiedStays(g.log, g.lens, g.done, g.log, Later(g).lens);
  }

  /** The bookkeeping of a step that takes effect. */
  lemma HistoryEffect(g: Hist, i: nat, op: Op)
    requires TimeOk(g.log, g.lens) && AllJustified(g.log, g.lens, g.done) && Past(g.done, g.tracks) && i < |g.tracks|
    ensures var g' := Later(Effect(g, i, op));
            TimeOk(g'.log, g'.lens) && AllJustified(g'.log, g'.lens, g'.done) && Past(g'.done, g'.tracks)
  {
    HistoryStays(g, Later(Effect(g, i, op)), i);
  }

  /** The bookkeeping of a return. */
  lemma HistoryAppend(g: Hist, i: nat, op: Op)
    requires TimeOk(g.log, g.lens) && AllJustified(g.log, g.lens, g.done) && Past(g.done, g.tracks) && Ordered(g.done)
    requires i < |g.tracks| && g.tracks[i].called < |g.lens|
    requires Justified(g.log, g.lens, Done(i, op, g.tracks[i].called, g.tracks[i].mark, Now(g)))
    ensures var g' := Later(Finish(g, i, op));
            TimeOk(g'.log, g'.lens) && AllJustified(g'.log, g'.lens, g'.done) && Past(g'.done, g'.tracks) && Ordered(g'.done)
  {
    var g' := Later(Finish(g, i, op));
    HistoryStays(g, g'.(done := g.done), i);
    var d := Done(i, op, g.tracks[i].called, g.tracks[i].mark, Now(g));
    JustifiedStays(g.log, g.lens + [|g.log|], g.done, g'.log, g'.lens);
    assert Justified(g'.log, g'.lens, d);
    OrderedAppend(g.done, d);
  }

  lemma OrderedAppend(done: seq<Done>, d: Done)
    requires Ordered(done)
    requires forall x :: 0 <= x < |done| ==> done[x].returned < d.returned
    requires forall x :: 0 <= x < |done| && done[x].tid == d.tid ==> done[x].returned < d.called
    ensures Ordered(done + [d])
  {
  }

  // ---------------------------------------------------------------- steps that move one thread only

  /** A step that changes nothing shared keeps the invariant if the thread's own
      locals stay right, it holds no new node and it owes the counter as much as before. */
  lemma QuietStep(s: State, g: Hist, i: nat, t: Thread, k: Track)
    requires Inv(s, g) && i < |s.threads|
    requires OwnNode(t.pc) == Nil || OwnNode(t.pc) == OwnNode(s.threads[i].pc)
    requires Lag(t) == Lag(s.threads[i])
    requires g.tracks[i].called <= k.called
    requires LocalOk(s, g, i, t.pc, k)
    ensures Inv(s.(threads := s.threads[i := t]), Later(Note(g, i, k)))
  {
    var s' := s.(threads := s.threads[i := t]);
    var g' := Later(Note(g, i, k));
    LagSumUpdate(s.threads, i, t);
    LocalStays(s, g, s', g', i, i, t.pc, k);
    LocalsFrom(s, g, s', g', i);
    assert Own(s.threads, i) == OwnNode(s.threads[i].pc);
    OwnKept(s.heap, g.chain, s.threads, i, t);
    HistoryStays(g, g', i);
  }

  ghost predicate Quiet(s: State, pc: Pc) {
    match pc
    case EnqLink(_, tl) => At(s.heap, tl).next.To?
    case EnqSwing(_, _) => false
    case EnqHelp(_, _, _) => false
    case EnqCount(_) => false
    case DeqRecheck(hd, tl, nx) => hd != s.head || hd != tl || nx.To?
    case DeqHelp(_, _) => false
    case DeqUnlink(hd, _, _) => hd != s.head
    case DeqCount(_) => false
    case _ => true
  }

  lemma QuietEnq(s: State, g: Hist, i: nat, pc: Pc, k: Track)
    requires Linked(s, g) && i < |s.threads| == |g.tracks| && g.lens != []
    requires s.threads[i].pc == pc && g.tracks[i] == k && LocalOk(s, g, i, pc, k) && Quiet(s, pc)
    requires pc.EnqLoadTail? || pc.EnqLoadNext? || pc.EnqRecheck? || pc.EnqLink?
    ensures LocalOk(s, g, i, Execute(s, i).threads[i].pc, Watch(s, g, i).tracks[i])
  {
    if pc.EnqLoadNext? { NextOnChain(s, g, k.tailPos); }
  }

  lemma QuietDeq(s: State, g: Hist, i: nat, pc: Pc, k: Track)
    requires Linked(s, g) && i < |s.threads| == |g.tracks| && g.lens != []
    requires s.threads[i].pc == pc && g.tracks[i] == k && LocalOk(s, g, i, pc, k) && Quiet(s, pc)
    requires !pc.DeqLoadNext? && (pc.Idle? || pc.DrainCheck? || OwnNode(pc).Nil?)
    ensures LocalOk(s, g, i, Execute(s, i).threads[i].pc, Watch(s, g, i).tracks[i])
  {
    if pc.DeqReadValue? { assert At(s.heap, g.chain[k.headPos + 1]).value.Holds?; }
  }

  /** Line 74: a nil `next` is read only at a moment when the queue is empty. */
  lemma QuietLoadNext(s: State, g: Hist, i: nat, pc: Pc, k: Track)
    requires Linked(s, g) && i < |s.threads| == |g.tracks|
    requires LogOk(s.heap, g.chain, g.h, g.log) && TimeOk(g.log, g.lens)
    requires s.threads[i].pc == pc && g.tracks[i] == k && LocalOk(s, g, i, pc, k) && pc.DeqLoadNext?
    ensures LocalOk(s, g, i, Execute(s, i).threads[i].pc, Watch(s, g, i).tracks[i])
  {
    NextOnChain(s, g, k.headPos);
    assert g.log[..|g.log|] == g.log;
    assert Vals(s.heap, []) == [];
  }

  lemma QuietLocal(s: State, g: Hist, i: nat, pc: Pc, k: Track)
    requires Linked(s, g) && i < |s.threads| == |g.tracks|
    requires LogOk(s.heap, g.chain, g.h, g.log) && TimeOk(g.log, g.lens)
    requires s.threads[i].pc == pc && g.tracks[i] == k && LocalOk(s, g, i, pc, k) && Quiet(s, pc)
    ensures LocalOk(s, g, i, Execute(s, i).threads[i].pc, Watch(s, g, i).tracks[i])
  {
    if pc.DeqLoadNext? {
      QuietLoadNext(s, g, i, pc, k);
    } else if OwnNode(pc).Nil? {
      QuietDeq(s, g, i, pc, k);
    } else {
      QuietEnq(s, g, i, pc, k);
    }
  }

  lemma QuietShape(s: State, g: Hist, i: nat)
    requires i < |s.threads| == |g.tracks| && g.lens != [] && Quiet(s, s.threads[i].pc)
    requires g.tracks[i].called < |g.lens|
    ensures var s', g' := Execute(s, i), Watch(s, g, i);
            && s' == s.(threads := s.threads[i := s'.threads[i]]) && g' == Note(g, i, g'.tracks[i])
            && (OwnNode(s'.threads[i].pc) == Nil || OwnNode(s'.threads[i].pc) == OwnNode(s.threads[i].pc))
            && Lag(s'.threads[i]) == Lag(s.threads[i]) && g.tracks[i].called <= g'.tracks[i].called
  {
  }

  lemma QuietTick(s: State, g: Hist, i: nat)
    requires Inv(s, g) && i < |s.threads| && Quiet(s, s.threads[i].pc)
    ensures Inv(Execute(s, i), Later(Watch(s, g, i)))
  {
    QuietLocal(s, g, i, s.threads[i].pc, g.tracks[i]);
    QuietShape(s, g, i);
    QuietStep(s, g, i, Execute(s, i).threads[i], Watch(s, g, i).tracks[i]);
  }

  // ---------------------------------------------------------------- steps that change shared memory

  lemma Allocate(s: State, g: Hist, i: nat, v: int)
    requires Inv(s, g) && i < |s.threads| && s.threads[i].pc.Idle?
    ensures Inv(Step(s, CallEnqueue(i, v)), Record(s, g, CallEnqueue(i, v)))
  {
    AllocateStep(s, g, i, s.threads[i].(pc := EnqLoadTail(|s.heap|)), v);
  }

  lemma AllocateStep(s: State, g: Hist, i: nat, t: Thread, v: int)
    requires Inv(s, g) && i < |s.threads| && Lag(s.threads[i]) == 0 && t.pc == EnqLoadTail(|s.heap|)
    ensures Inv(s.(threads := s.threads[i := t], heap := s.heap + [Node(Holds(v), Nil)]), Later(Begin(g, i)))
  {
    LagSumUpdate(s.threads, i, t);
    AllocateChain(s, g, v);
    AllocateOwn(s, g, i, t, v);
    AllocateLocals(s, g, i, t, v);
    HistoryStays(g, Later(Begin(g, i)), i);
  }

  lemma AllocateLocals(s: State, g: Hist, i: nat, t: Thread, v: int)
    requires LocalsOk(s, g) && g.lens != [] && i < |s.threads| && t.pc == EnqLoadTail(|s.heap|)
    ensures LocalsOk(s.(threads := s.threads[i := t], heap := s.heap + [Node(Holds(v), Nil)]), Later(Begin(g, i)))
  {
    LocalsFrom(s, g, s.(threads := s.threads[i := t], heap := s.heap + [Node(Holds(v), Nil)]), Later(Begin(g, i)), i);
  }

  lemma AllocateChain(s: State, g: Hist, v: int)
    requires Linked(s, g) && LogOk(s.heap, g.chain, g.h, g.log)
    ensures var heap' := s.heap + [Node(Holds(v), Nil)];
            && ChainOk(heap', s.head, s.tail, g.chain, g.h, g.t) && LogOk(heap', g.chain, g.h, g.log)
  {
    var heap' := s.heap + [Node(Holds(v), Nil)];
    assert forall x :: 0 <= x < |g.chain| ==> At(heap', g.chain[x]) == At(s.heap, g.chain[x]);
    AllocateVals(s.heap, g.chain[g.h + 1..], v);
  }

  lemma AllocateVals(heap: seq<Node>, refs: seq<Ref>, v: int)
    requires forall x :: 0 <= x < |refs| ==> refs[x] < |heap|
    ensures Vals(heap + [Node(Holds(v), Nil)], refs) == Vals(heap, refs)
  {
  }

  lemma AllocateOwn(s: State, g: Hist, i: nat, t: Thread, v: int)
    requires Linked(s, g) && OwnOk(s.heap, g.chain, s.threads) && i < |s.threads| && t.pc == EnqLoadTail(|s.heap|)
    ensures OwnOk(s.heap + [Node(Holds(v), Nil)], g.chain, s.threads[i := t])
  {
    var heap' := s.heap + [Node(Holds(v), Nil)];
    assert forall n: Ref :: Private(s.heap, g.chain, n) ==> Private(heap', g.chain, n);
    assert |s.heap| !in g.chain;
    OwnFrom(s.heap, g.chain, s.threads, heap', g.chain, i, t);
  }

  /** Line 56 succeeds only on the last node, which is then also the tail. */
  lemma LinkTick(s: State, g: Hist, i: nat)
    requires Inv(s, g) && i < |s.threads| && s.threads[i].pc.EnqLink?
    requires At(s.heap, s.threads[i].pc.tail).next.Nil?
    ensures Inv(Execute(s, i), Later(Watch(s, g, i)))
  {
    var n, tl := s.threads[i].pc.node, s.threads[i].pc.tail;
    LinkFacts(s, g, i);
    LinkShape(s, g, i);
    LinkStep(s, g, i, s.threads[i].(pc := EnqSwing(n, tl)), n, tl);
  }

  lemma LinkFacts(s: State, g: Hist, i: nat)
    requires Linked(s, g) && LocalsOk(s, g) && i < |s.threads| && s.threads[i].pc.EnqLink?
    requires At(s.heap, s.threads[i].pc.tail).next.Nil?
    ensures s.threads[i].pc.tail == s.tail && g.t == g.tracks[i].tailPos == |g.chain| - 1 && g.tracks[i].called < |g.lens|
  {
    assert LocalOk(s, g, i, s.threads[i].pc, g.tracks[i]);
    NextOnChain(s, g, g.tracks[i].tailPos);
  }

  lemma LinkShape(s: State, g: Hist, i: nat)
    requires i < |s.threads| == |g.tracks| && g.lens != [] && s.threads[i].pc.EnqLink?
    requires At(s.heap, s.threads[i].pc.tail).next.Nil?
    ensures var n, tl := s.threads[i].pc.node, s.threads[i].pc.tail;
            && Execute(s, i) == s.(threads := s.threads[i := s.threads[i].(pc := EnqSwing(n, tl))], heap := SetNext(s.heap, tl, To(n)))
            && Watch(s, g, i) == Effect(g, i, Enq(Val(s.heap, n))).(chain := g.chain + [n])
            && Own(s.threads, i) == To(n) && Lag(s.threads[i]) == 0
  {
  }

  lemma LinkStep(s: State, g: Hist, i: nat, t: Thread, n: Ref, tl: Ref)
    requires Inv(s, g) && i < |s.threads| && t.pc == EnqSwing(n, tl) && Own(s.threads, i) == To(n)
    requires Lag(s.threads[i]) == 0 && tl == s.tail
    requires g.t == g.tracks[i].tailPos == |g.chain| - 1 && g.tracks[i].called < |g.lens|
    ensures Inv(s.(threads := s.threads[i := t], heap := SetNext(s.heap, tl, To(n))),
                Later(Effect(g, i, Enq(Val(s.heap, n))).(chain := g.chain + [n])))
  {
    LinkShared(s, g, i, t, n);
    LinkLocals(s, g, i, t, n, tl);
    HistoryEffect(g, i, Enq(Val(s.heap, n)));
  }

  lemma LinkShared(s: State, g: Hist, i: nat, t: Thread, n: Ref)
    requires Linked(s, g) && LogOk(s.heap, g.chain, g.h, g.log) && OwnOk(s.heap, g.chain, s.threads)
    requires CountOk(s.size, s.threads, |g.chain| - 1 - g.h) && g.t == |g.chain| - 1
    requires i < |s.threads| && t.pc == EnqSwing(n, s.tail) && Own(s.threads, i) == To(n) && Lag(s.threads[i]) == 0
    ensures var heap' := SetNext(s.heap, s.tail, To(n));
            && ChainOk(heap', s.head, s.tail, g.chain + [n], g.h, g.t)
            && LogOk(heap', g.chain + [n], g.h, g.log + [Entry(i, Enq(Val(s.heap, n)))])
            && OwnOk(heap', g.chain + [n], s.threads[i := t])
            && CountOk(s.size, s.threads[i := t], |g.chain + [n]| - 1 - g.h)
  {
    LinkChain(s.heap, s.head, s.tail, g.chain, g.h, g.t, n);
    LinkLog(s.heap, g.chain, g.h, g.log, s.tail, n, i);
    LinkOwn(s.heap, g.chain, s.threads, i, t, s.tail, n);
    LagSumUpdate(s.threads, i, t);
  }

  lemma LinkLocals(s: State, g: Hist, i: nat, t: Thread, n: Ref, tl: Ref)
    requires LocalsOk(s, g) && TimeOk(g.log, g.lens) && i < |s.threads| && t.pc == EnqSwing(n, tl) && n < |s.heap|
    requires g.tracks[i].tailPos == |g.chain| - 1 && OnChain(g, g.tracks[i].tailPos, tl)
    ensures LocalsOk(s.(threads := s.threads[i := t], heap := SetNext(s.heap, tl, To(n))),
                     Later(Effect(g, i, Enq(Val(s.heap, n))).(chain := g.chain + [n])))
  {
    assert LocalOk(s, g, i, s.threads[i].pc, g.tracks[i]);
    LocalsFrom(s, g, s.(threads := s.threads[i := t], heap := SetNext(s.heap, tl, To(n))),
               Later(Effect(g, i, Enq(Val(s.heap, n))).(chain := g.chain + [n])), i);
  }

  lemma LinkChain(heap: seq<Node>, head: Ref, tl: Ref, chain: seq<Ref>, h: nat, t: nat, n: Ref)
    requires ChainOk(heap, head, tl, chain, h, t) && t == |chain| - 1 && Private(heap, chain, n)
    ensures ChainOk(SetNext(heap, tl, To(n)), head, tl, chain + [n], h, t)
  {
    var heap', chain' := SetNext(heap, tl, To(n)), chain + [n];
    assert forall r: Ref :: r != tl ==> At(heap', r) == At(heap, r);
    assert forall j :: 0 <= j < |chain| - 1 ==> chain[j] != tl;
    forall j | 0 <= j < |chain'| - 1
      ensures At(heap', chain'[j]).next == To(chain'[j + 1])
    {
      if j < |chain| - 1 { assert At(heap, chain[j]).next == To(chain[j + 1]); }
    }
  }

  lemma LinkLog(heap: seq<Node>, chain: seq<Ref>, h: nat, log: seq<Entry>, tl: Ref, n: Ref, i: nat)
    requires LogOk(heap, chain, h, log)
    ensures LogOk(SetNext(heap, tl, To(n)), chain + [n], h, log + [Entry(i, Enq(Val(heap, n)))])
  {
    var heap' := SetNext(heap, tl, To(n));
    ReplayAppend(log, Entry(i, Enq(Val(heap, n))));
    assert (chain + [n])[h + 1..] == chain[h + 1..] + [n];
    LinkVals(heap, chain[h + 1..], tl, n);
  }

  lemma LinkVals(heap: seq<Node>, refs: seq<Ref>, tl: Ref, n: Ref)
    ensures Vals(SetNext(heap, tl, To(n)), refs + [n]) == Vals(heap, refs) + [Val(heap, n)]
  {
    assert forall r: Ref :: Val(SetNext(heap, tl, To(n)), r) == Val(heap, r);
  }

  lemma LinkOwn(heap: seq<Node>, chain: seq<Ref>, ts: seq<Thread>, i: nat, t: Thread, tl: Ref, n: Ref)
    requires OwnOk(heap, chain, ts) && i < |ts| && Own(ts, i) == To(n) && OwnNode(t.pc) == Nil && tl in chain
    ensures OwnOk(SetNext(heap, tl, To(n)), chain + [n], ts[i := t])
  {
    OwnFrom(heap, chain, ts, SetNext(heap, tl, To(n)), chain + [n], i, t);
  }

  /** The tail moves to its successor. */
  lemma SwingStep(s: State, g: Hist, i: nat, t: Thread, nx: Ref)
    requires Inv(s, g) && i < |s.threads|
    requires OwnNode(t.pc) == Nil || OwnNode(t.pc) == Own(s.threads, i)
    requires Lag(t) == Lag(s.threads[i]) && LocalOk(s, g, i, t.pc, g.tracks[i])
    requires OnChain(g, g.tracks[i].tailPos, s.tail) && Follows(g, g.tracks[i].tailPos, nx)
    ensures Inv(s.(threads := s.threads[i := t], tail := nx), Later(g.(t := g.t + 1)))
  {
    LagSumUpdate(s.threads, i, t);
    SwingChain(s, g, g.tracks[i].tailPos);
    OwnKept(s.heap, g.chain, s.threads, i, t);
    SwingLocals(s, g, i, t, nx);
    HistoryLater(g);
  }

  lemma SwingLocals(s: State, g: Hist, i: nat, t: Thread, nx: Ref)
    requires LocalsOk(s, g) && i < |s.threads| && LocalOk(s, g, i, t.pc, g.tracks[i])
    ensures LocalsOk(s.(threads := s.threads[i := t], tail := nx), Later(g.(t := g.t + 1)))
  {
    var s', g' := s.(threads := s.threads[i := t], tail := nx), Later(g.(t := g.t + 1));
    LocalStays(s, g, s', g', i, i, t.pc, g.tracks[i]);
    LocalsFrom(s, g, s', g', i);
  }

  lemma SwingChain(s: State, g: Hist, pos: nat)
    requires Linked(s, g) && pos + 1 < |g.chain| && s.tail == g.chain[pos]
    ensures pos == g.t && ChainOk(s.heap, s.head, g.chain[pos + 1], g.chain, g.h, g.t + 1)
  {
  }

  lemma SwingShape(s: State, g: Hist, i: nat)
    requires i < |s.threads| == |g.tracks| && g.lens != [] && LocalOk(s, g, i, s.threads[i].pc, g.tracks[i])
    requires s.threads[i].pc.EnqSwing? || s.threads[i].pc.EnqHelp? || s.threads[i].pc.DeqHelp?
    ensures var pc, s', g' := s.threads[i].pc, Execute(s, i), Watch(s, g, i);
            var t, nx := s'.threads[i], if pc.EnqSwing? then pc.node else pc.seen;
            && s' == s.(threads := s.threads[i := t], tail := if s.tail == pc.tail then nx else s.tail)
            && g' == g.(t := if s.tail == pc.tail then g.t + 1 else g.t)
            && (OwnNode(t.pc) == Nil || OwnNode(t.pc) == Own(s.threads, i)) && Lag(t) == Lag(s.threads[i])
            && LocalOk(s, g, i, t.pc, g.tracks[i])
            && OnChain(g, g.tracks[i].tailPos, pc.tail) && Follows(g, g.tracks[i].tailPos, nx)
  {
  }

  /** Lines 57, 63 and 83: the tail moves to its successor, or somebody moved it already. */
  lemma SwingTick(s: State, g: Hist, i: nat)
    requires Inv(s, g) && i < |s.threads|
    requires s.threads[i].pc.EnqSwing? || s.threads[i].pc.EnqHelp? || s.threads[i].pc.DeqHelp?
    ensures Inv(Execute(s, i), Later(Watch(s, g, i)))
  {
    SwingShape(s, g, i);
    var t, pc := Execute(s, i).threads[i], s.threads[i].pc;
    if s.tail == pc.tail {
      SwingStep(s, g, i, t, if pc.EnqSwing? then pc.node else pc.seen);
    } else {
      QuietStep(s, g, i, t, g.tracks[i]);
      assert Note(g, i, g.tracks[i]) == g;
    }
  }

  /** Line 86 succeeds only if the head has not moved, so it takes the oldest value. */
  lemma UnlinkTick(s: State, g: Hist, i: nat)
    requires Inv(s, g) && i < |s.threads| && s.threads[i].pc.DeqUnlink? && s.threads[i].pc.head == s.head
    ensures Inv(Execute(s, i), Later(Watch(s, g, i)))
  {
    UnlinkFacts(s, g, i);
    var v, nx := s.threads[i].pc.value, s.threads[i].pc.seen;
    UnlinkShape(s, g, i);
    UnlinkStep(s, g, i, s.threads[i].(pc := DeqCount(v)), nx, v);
  }

  lemma UnlinkFacts(s: State, g: Hist, i: nat)
    requires LocalsOk(s, g) && i < |s.threads| && s.threads[i].pc.DeqUnlink? && s.threads[i].pc.head == s.head
    ensures var k, pc := g.tracks[i], s.threads[i].pc;
            && k.headPos < g.t && k.called < |g.lens|
            && OnChain(g, k.headPos, s.head) && Follows(g, k.headPos, pc.seen) && Val(s.heap, pc.seen) == pc.value
  {
    assert LocalOk(s, g, i, s.threads[i].pc, g.tracks[i]);
  }

  lemma UnlinkShape(s: State, g: Hist, i: nat)
    requires i < |s.threads| == |g.tracks| && g.lens != [] && s.threads[i].pc.DeqUnlink? && s.threads[i].pc.head == s.head
    ensures var v := s.threads[i].pc.value;
            && Execute(s, i) == s.(threads := s.threads[i := s.threads[i].(pc := DeqCount(v))], head := s.threads[i].pc.seen)
            && Watch(s, g, i) == Effect(g, i, Deq(v)).(h := g.h + 1)
  {
  }

  lemma UnlinkStep(s: State, g: Hist, i: nat, t: Thread, nx: Ref, v: int)
    requires Inv(s, g) && i < |s.threads| && t.pc == DeqCount(v) && Lag(s.threads[i]) == 0
    requires g.tracks[i].headPos < g.t && g.tracks[i].called < |g.lens|
    requires OnChain(g, g.tracks[i].headPos, s.head) && Follows(g, g.tracks[i].headPos, nx) && Val(s.heap, nx) == v
    ensures Inv(s.(threads := s.threads[i := t], head := nx), Later(Effect(g, i, Deq(v)).(h := g.h + 1)))
  {
    UnlinkShared(s, g, i, t, nx, v);
    UnlinkLocals(s, g, i, t, nx, v);
    HistoryEffect(g, i, Deq(v));
  }

  lemma UnlinkShared(s: State, g: Hist, i: nat, t: Thread, nx: Ref, v: int)
    requires Linked(s, g) && LogOk(s.heap, g.chain, g.h, g.log) && OwnOk(s.heap, g.chain, s.threads)
    requires CountOk(s.size, s.threads, |g.chain| - 1 - g.h) && i < |s.threads| == |g.tracks|
    requires t.pc == DeqCount(v) && Lag(s.threads[i]) == 0 && g.tracks[i].headPos < g.t
    requires OnChain(g, g.tracks[i].headPos, s.head) && Follows(g, g.tracks[i].headPos, nx) && Val(s.heap, nx) == v
    ensures ChainOk(s.heap, nx, s.tail, g.chain, g.h + 1, g.t)
    ensures LogOk(s.heap, g.chain, g.h + 1, g.log + [Entry(i, Deq(v))])
    ensures OwnOk(s.heap, g.chain, s.threads[i := t])
    ensures CountOk(s.size, s.threads[i := t], |g.chain| - 1 - (g.h + 1))
  {
    UnlinkChain(s, g, g.tracks[i].headPos, v, i);
    LagSumUpdate(s.threads, i, t);
    OwnKept(s.heap, g.chain, s.threads, i, t);
  }

  lemma UnlinkLocals(s: State, g: Hist, i: nat, t: Thread, nx: Ref, v: int)
    requires LocalsOk(s, g) && TimeOk(g.log, g.lens) && i < |s.threads| && t.pc == DeqCount(v)
    ensures LocalsOk(s.(threads := s.threads[i := t], head := nx), Later(Effect(g, i, Deq(v)).(h := g.h + 1)))
  {
    assert LocalOk(s, g, i, s.threads[i].pc, g.tracks[i]);
    LocalsFrom(s, g, s.(threads := s.threads[i := t], head := nx), Later(Effect(g, i, Deq(v)).(h := g.h + 1)), i);
  }

  lemma UnlinkChain(s: State, g: Hist, pos: nat, v: int, i: nat)
    requires Linked(s, g) && LogOk(s.heap, g.chain, g.h, g.log)
    requires pos < g.t && s.head == g.chain[pos] && Val(s.heap, g.chain[pos + 1]) == v
    ensures pos == g.h && ChainOk(s.heap, g.chain[pos + 1], s.tail, g.chain, g.h + 1, g.t)
    ensures LogOk(s.heap, g.chain, g.h + 1, g.log + [Entry(i, Deq(v))])
  {
    assert pos == g.h;
    UnlinkLog(s.heap, g.chain, g.h, g.log, v, i);
  }

  lemma UnlinkLog(heap: seq<Node>, chain: seq<Ref>, h: nat, log: seq<Entry>, v: int, i: nat)
    requires LogOk(heap, chain, h, log) && h + 1 < |chain| && Val(heap, chain[h + 1]) == v
    ensures LogOk(heap, chain, h + 1, log + [Entry(i, Deq(v))])
  {
    ReplayAppend(log, Entry(i, Deq(v)));
    var q := Vals(heap, chain[h + 1..]);
    assert q[1..] == Vals(heap, chain[h + 2..]);
  }

  lemma ReturnStep(s: State, g: Hist, i: nat, t: Thread, op: Op)
    requires Inv(s, g) && i < |s.threads| && (t.pc == Idle || t.pc == DrainCheck)
    requires Justified(g.log, g.lens, Done(i, op, g.tracks[i].called, g.tracks[i].mark, Now(g)))
    ensures Inv(s.(threads := s.threads[i := t], size := s.size + Lag(s.threads[i])), Later(Finish(g, i, op)))
  {
    var s' := s.(threads := s.threads[i := t], size := s.size + Lag(s.threads[i]));
    var g' := Later(Finish(g, i, op));
    LagSumUpdate(s.threads, i, t);
    HistoryAppend(g, i, op);
    OwnKept(s.heap, g.chain, s.threads, i, t);
    LocalsFrom(s, g, s', g', i);
  }

  /** What the call of a thread about to return amounts to. */
  function Result(s: State, pc: Pc): Op {
    match pc
    case EnqCount(n) => Enq(Val(s.heap, n))
    case DeqCount(v) => Deq(v)
    case _ => DeqEmpty
  }

  lemma ReturnShape(s: State, g: Hist, i: nat)
    requires i < |s.threads| == |g.tracks| && TimeOk(g.log, g.lens) && LocalOk(s, g, i, s.threads[i].pc, g.tracks[i])
    requires var pc := s.threads[i].pc; pc.EnqCount? || pc.DeqCount? || (pc.DeqRecheck? && !Quiet(s, pc))
    ensures var t, op := Execute(s, i).threads[i], Result(s, s.threads[i].pc);
            && (t.pc == Idle || t.pc == DrainCheck)
            && Execute(s, i) == s.(threads := s.threads[i := t], size := s.size + Lag(s.threads[i]))
            && Watch(s, g, i) == Finish(g, i, op)
            && Justified(g.log, g.lens, Done(i, op, g.tracks[i].called, g.tracks[i].mark, Now(g)))
  {
  }

  /** The three ways to return: lines 58-60, 80 and 87-89. */
  lemma ReturnTick(s: State, g: Hist, i: nat)
    requires Inv(s, g) && i < |s.threads|
    requires var pc := s.threads[i].pc; pc.EnqCount? || pc.DeqCount? || (pc.DeqRecheck? && !Quiet(s, pc))
    ensures Inv(Execute(s, i), Later(Watch(s, g, i)))
  {
    ReturnShape(s, g, i);
    ReturnStep(s, g, i, Execute(s, i).threads[i], Result(s, s.threads[i].pc));
  }

  // ---------------------------------------------------------------- every step

  lemma TickInv(s: State, g: Hist, i: nat)
    requires Inv(s, g) && i < |s.threads|
    ensures Inv(Execute(s, i), Later(Watch(s, g, i)))
  {
    var pc := s.threads[i].pc;
    if Quiet(s, pc) {
      QuietTick(s, g, i);
    } else if pc.EnqLink? {
      LinkTick(s, g, i);
    } else if pc.DeqUnlink? {
      UnlinkTick(s, g, i);
    } else if pc.EnqCount? || pc.DeqCount? || pc.DeqRecheck? {
      ReturnTick(s, g, i);
    } else {
      SwingTick(s, g, i);
    }
  }

  lemma StutterInv(s: State, g: Hist)
    requires Inv(s, g)
    ensures Inv(s, Later(g))
  {
    var g' := Later(g);
    HistoryLater(g);
    forall j | 0 <= j < |s.threads|
      ensures LocalOk(s, g', j, s.threads[j].pc, g'.tracks[j])
    {
      LocalStays(s, g, s, g', 0, j, s.threads[j].pc, g.tracks[j]);
    }
  }

  lemma CallInv(s: State, g: Hist, a: Action)
    requires Inv(s, g) && a.tid < |s.threads| && s.threads[a.tid].pc.Idle? && !a.Tick?
    ensures Inv(Step(s, a), Record(s, g, a))
  {
    if a.CallEnqueue? {
      Allocate(s, g, a.tid, a.v);
    } else {
      assert LocalOk(s, g, a.tid, Idle, g.tracks[a.tid]);
      QuietStep(s, g, a.tid, Step(s, a).threads[a.tid], Begin(g, a.tid).tracks[a.tid]);
    }
  }

  lemma StepInv(s: State, g: Hist, a: Action)
    requires Inv(s, g)
    ensures Inv(Step(s, a), Record(s, g, a))
  {
    if a.tid >= |s.threads| || (!a.Tick? && !s.threads[a.tid].pc.Idle?) {
      StutterInv(s, g);
    } else if a.Tick? {
      TickInv(s, g, a.tid);
    } else {
      CallInv(s, g, a);
    }
  }
}
