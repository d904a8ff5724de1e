/** The stack refines an atomic LIFO stack, for any number of threads and any interleaving. */
module TreiberStackTheorems {
  import opened Sequences
  import opened TreiberStack

  // ---------------------------------------------------------------- the sequential stack

  datatype Op = Push(v: int) | Pop(v: int) | PopEmpty

  datatype Entry = Entry(tid: nat, op: Op)

  datatype Outcome = Illegal | Legal(q: seq<int>)

  function Apply(o: Outcome, op: Op): Outcome {
    match o
    case Illegal => Illegal
    case Legal(q) =>
      match op
      case Push(v) => Legal([v] + q)
      case Pop(v) => if q != [] && q[0] == v then Legal(q[1..]) else Illegal
      case PopEmpty => if q == [] then Legal([]) else Illegal
  }

  function Replay(log: seq<Entry>): Outcome {
    if log == [] then Legal([])
    else Apply(Replay(log[..|log| - 1]), log[|log| - 1].op)
  }

  lemma ReplayAppend(log: seq<Entry>, e: Entry)
    ensures Replay(log + [e]) == Apply(Replay(log), e.op)
  {
    assert (log + [e])[..|log|] == log;
  }

  /** A returned call, invoked in step `called` and returned in step `returned` of the run: it
      took effect at log entry `at`, when the log had grown from `since` entries at the
      invocation to `until` entries at the return. */
  datatype Done = Done(tid: nat, op: Op, called: nat, since: nat, at: nat, until: nat, returned: nat)

  ghost predicate Justified(log: seq<Entry>, d: Done) {
    d.since <= d.at < d.until <= |log| && log[d.at] == Entry(d.tid, d.op)
  }

  // ---------------------------------------------------------------- history and invariant

  datatype Track = Track(called: nat, since: nat, mark: nat)

  /** `live` lists the nodes on the stack, top first; `dead` those popped from it. `now` counts
      the steps and `laps` how often the counter of the stack wrapped around. */
  datatype Hist = Hist(
    live: seq<Ref>, dead: set<Ref>, log: seq<Entry>, tracks: seq<Track>, done: seq<Done>, now: nat, laps: int)

  function InitHist(threads: nat): Hist {
    Hist([], {}, [], seq(threads, _ => Track(0, 0, 0)), [], 0, 0)
  }

  function Effect(g: Hist, i: nat, op: Op): Hist
    requires i < |g.tracks|
  {
    g.(log := g.log + [Entry(i, op)], tracks := g.tracks[i := g.tracks[i].(mark := |g.log|)])
  }

  /** The return of thread `i`; its next call starts from the log as it is now. */
  function Finish(g: Hist, i: nat, op: Op): Hist
    requires i < |g.tracks|
  {
    var k := g.tracks[i];
    g.(done := g.done + [Done(i, op, k.called, k.since, k.mark, |g.log|, g.now)],
       tracks := g.tracks[i := k.(since := |g.log|)])
  }

  function Later(g: Hist): Hist {
    g.(now := g.now + 1)
  }

  function Record(s: State, g: Hist, a: Action): Hist
    requires |g.tracks| == |s.threads|
  {
    Later(if a.tid >= |s.threads| then g
          else if a.Tick? then Watch(s, g, a.tid)
          else if s.threads[a.tid].Idle? then Begin(g, a.tid)
          else g)
  }

  function Begin(g: Hist, i: nat): Hist
    requires i < |g.tracks|
  {
    g.(tracks := g.tracks[i := g.tracks[i].(called := g.now, since := |g.log|)])
  }

  function Watch(s: State, g: Hist, i: nat): Hist
    requires i < |g.tracks| == |s.threads|
  {
    match s.threads[i]
    case PushCas(n, tp) =>
      if s.top == tp then Effect(g, i, Push(At(s.heap, n).value)).(live := [n] + g.live) else g
    case PushDone(n) => Finish(g, i, Push(At(s.heap, n).value)).(laps := if s.len + 1 == WORD then g.laps - 1 else g.laps)
    case PopLoad => if s.top.Nil? then Finish(Effect(g, i, PopEmpty), i, PopEmpty) else g
    case PopCas(tp, nx) =>
      if s.top == To(tp) && g.live != []
      then Effect(g, i, Pop(At(s.heap, tp).value)).(live := g.live[1..], dead := g.dead + {tp}) else g
    case PopDone(tp) => Finish(g, i, Pop(At(s.heap, tp).value)).(laps := if s.len == 0 then g.laps + 1 else g.laps)
    case _ => g
  }

  /** The node of a push that has not been published yet. */
  function OwnNode(pc: Pc): Ptr {
    match pc
    case PushLoad(n) => To(n)
    case PushStore(n, _) => To(n)
    case PushCas(n, _) => To(n)
    case _ => Nil
  }

  function Own(ts: seq<Pc>, i: nat): Ptr {
    if i < |ts| then OwnNode(ts[i]) else Nil
  }

  /** The pointer from position `i` of a list to the next position. */
  function Link(live: seq<Ref>, i: nat): Ptr {
    if i < |live| then To(live[i]) else Nil
  }

  ghost predicate ChainOk(heap: seq<Node>, top: Ptr, live: seq<Ref>, dead: set<Ref>) {
    && top == Link(live, 0)
    && (forall i, j :: 0 <= i < j < |live| ==> live[i] != live[j])
    && (forall i :: 0 <= i < |live| ==> live[i] < |heap| && live[i] !in dead)
    && (forall r :: r in dead ==> r < |heap|)
    && (forall i {:trigger At(heap, live[i])} :: 0 <= i < |live| ==> At(heap, live[i]).next == Link(live, i + 1))
  }

  ghost predicate OwnOk(heap: seq<Node>, live: seq<Ref>, dead: set<Ref>, ts: seq<Pc>) {
    && (forall i: nat :: Own(ts, i).To? ==>
          Own(ts, i).ref < |heap| && Own(ts, i).ref !in live && Own(ts, i).ref !in dead)
    && (forall i: nat, j: nat :: i != j && Own(ts, i).To? ==> Own(ts, i) != Own(ts, j))
  }

  ghost predicate LogOk(heap: seq<Node>, live: seq<Ref>, log: seq<Entry>) {
    Replay(log) == Legal(Vals(heap, live))
  }

  ghost predicate Published(g: Hist, r: Ref) {
    r in g.live || r in g.dead
  }

  ghost predicate Marked(g: Hist, i: nat, k: Track, op: Op) {
    k.since <= k.mark < |g.log| && g.log[k.mark] == Entry(i, op)
  }

  ghost predicate LocalOk(s: State, g: Hist, i: nat, pc: Pc, k: Track) {
    && k.since <= |g.log|
    && match pc
       case PushCas(n, tp) => At(s.heap, n).next == tp
       case PushDone(n) => Published(g, n) && Marked(g, i, k, Push(At(s.heap, n).value))
       case PopNext(tp) => Published(g, tp)
       case PopCas(tp, nx) => Published(g, tp) && At(s.heap, tp).next == nx
       case PopDone(tp) => Published(g, tp) && Marked(g, i, k, Pop(At(s.heap, tp).value))
       case _ => true
  }

  ghost predicate LocalsOk(s: State, g: Hist) {
    && |g.tracks| == |s.threads|
    && forall i :: 0 <= i < |s.threads| ==> LocalOk(s, g, i, s.threads[i], g.tracks[i])
  }

  /** Every returned call is justified, and the calls of one thread follow one another. */
  ghost predicate DoneOk(log: seq<Entry>, done: seq<Done>, tracks: seq<Track>) {
    && (forall x :: 0 <= x < |done| ==> Justified(log, done[x]))
    && (forall x :: 0 <= x < |done| ==> done[x].tid < |tracks| && done[x].until <= tracks[done[x].tid].since)
    && (forall x, y :: 0 <= x < y < |done| && done[x].tid == done[y].tid ==> done[x].until <= done[y].since)
  }

  /** What returned before a call began was logged before the call began. */
  ghost predicate OrderOk(done: seq<Done>, tracks: seq<Track>, now: nat) {
    && (forall x :: 0 <= x < |done| ==> done[x].called <= done[x].returned < now)
    && (forall i :: 0 <= i < |tracks| ==> tracks[i].called <= now)
    && (forall x, y {:trigger done[x].returned, done[y].called} ::
          0 <= x < |done| && 0 <= y < |done| && done[x].returned < done[y].called ==> done[x].until <= done[y].since)
    && (forall x, i {:trigger done[x].returned, tracks[i].called} ::
          0 <= x < |done| && 0 <= i < |tracks| && done[x].returned < tracks[i].called ==> done[x].until <= tracks[i].since)
  }

  /** The counter, corrected by what the threads in flight owe it, is the real length, up to
      wrapping around. */
  ghost predicate CountOk(len: nat, ts: seq<Pc>, length: int, laps: int) {
    len < WORD && len + LagSum(ts) == length + laps * WORD
  }

  ghost predicate Inv(s: State, g: Hist) {
    && ChainOk(s.heap, s.top, g.live, g.dead) && OwnOk(s.heap, g.live, g.dead, s.threads)
    && LogOk(s.heap, g.live, g.log) && LocalsOk(s, g) && DoneOk(g.log, g.done, g.tracks)
    && OrderOk(g.done, g.tracks, g.now) && CountOk(s.len, s.threads, |g.live|, g.laps)
  }

  // ---------------------------------------------------------------- frames

  /** Published nodes and logged operations are never touched, and only thread `i` moved. */
  ghost predicate Onward(s: State, g: Hist, s': State, g': Hist, i: nat) {
    && |s'.threads| == |s.threads| == |g.tracks| == |g'.tracks| && i < |s.threads|
    && (forall r :: Published(g, r) ==> Published(g', r) && At(s'.heap, r) == At(s.heap, r))
    && (forall j: nat :: j != i && Own(s.threads, j).To? ==>
          At(s'.heap, Own(s.threads, j).ref) == At(s.heap, Own(s.threads, j).ref))
    && g.log <= g'.log
    && (forall j :: 0 <= j < |s.threads| && j != i ==> s'.threads[j] == s.threads[j] && g'.tracks[j] == g.tracks[j])
  }

  lemma LocalsFrom(s: State, g: Hist, s': State, g': Hist, i: nat)
    requires LocalsOk(s, g) && Onward(s, g, s', g', i)
    requires LocalOk(s', g', i, s'.threads[i], g'.tracks[i])
    ensures LocalsOk(s', g')
  {
    forall j | 0 <= j < |s.threads| && j != i
      ensures LocalOk(s', g', j, s'.threads[j], g'.tracks[j])
    {
      assert LocalOk(s, g, j, s.threads[j], g.tracks[j]);
      assert Own(s.threads, j) == OwnNode(s.threads[j]);
    }
  }

  lemma OwnFrom(heap: seq<Node>, live: seq<Ref>, dead: set<Ref>, ts: seq<Pc>,
                heap': seq<Node>, live': seq<Ref>, dead': set<Ref>, i: nat, pc: Pc)
    requires OwnOk(heap, live, dead, ts) && i < |ts| && |heap| <= |heap'|
    requires OwnNode(pc) == Nil || OwnNode(pc) == Own(ts, i) || OwnNode(pc) == To(|heap|)
    requires OwnNode(pc).To? ==> OwnNode(pc).ref < |heap'| && OwnNode(pc).ref !in live' && OwnNode(pc).ref !in dead'
    requires forall r :: (r in live' || r in dead') ==> r in live || r in dead || To(r) == Own(ts, i)
    ensures OwnOk(heap', live', dead', ts[i := pc])
  {
    var ts' := ts[i := pc];
    assert forall j: nat :: Own(ts', j) == if j == i then OwnNode(pc) else Own(ts, j);
    assert forall j: nat :: Own(ts, j).To? ==> Own(ts, j).ref < |heap|;
  }

  lemma {:induction false} LagSumUpdate(ts: seq<Pc>, i: nat, pc: Pc)
    requires i < |ts|
    ensures LagSum(ts[i := pc]) == LagSum(ts) - Lag(ts[i]) + Lag(pc)
  {
    var n := |ts| - 1;
    if i < n {
      LagSumUpdate(ts[..n], i, pc);
      assert ts[i := pc][..n] == ts[..n][i := pc];
    } else {
      assert ts[i := pc][..n] == ts[..n];
    }
  }

  lemma {:induction false} LagSumIdle(ts: seq<Pc>)
    requires forall i :: 0 <= i < |ts| ==> ts[i].Idle?
    ensures LagSum(ts) == 0
  {
    if ts != [] { LagSumIdle(ts[..|ts| - 1]); }
  }

  lemma OrderAppend(done: seq<Done>, tracks: seq<Track>, now: nat, d: Done, i: nat, k: Track)
    requires OrderOk(done, tracks, now) && i < |tracks| && k.called == tracks[i].called && tracks[i].since <= k.since
    requires d.called == tracks[i].called && d.since == tracks[i].since && d.returned == now
    ensures OrderOk(done + [d], tracks[i := k], now + 1)
  {
  }

  lemma OrderBegin(log: seq<Entry>, done: seq<Done>, tracks: seq<Track>, now: nat, i: nat, k: Track)
    requires OrderOk(done, tracks, now) && DoneOk(log, done, tracks) && i < |tracks| && k.called == now && k.since == |log|
    ensures OrderOk(done, tracks[i := k], now + 1)
  {
    assert forall x :: 0 <= x < |done| ==> Justified(log, done[x]);
  }

  lemma DoneAppend(log: seq<Entry>, done: seq<Done>, tracks: seq<Track>, d: Done, k: Track)
    requires DoneOk(log, done, tracks) && d.tid < |tracks|
    requires Justified(log, d) && d.since == tracks[d.tid].since && d.until == k.since
    ensures DoneOk(log, done + [d], tracks[d.tid := k])
  {
    var done' := done + [d];
    assert forall x :: 0 <= x < |done| ==> done'[x] == done[x];
  }

  // ---------------------------------------------------------------- steps

  lemma InitInv(n: nat)
    ensures Inv(Init(n), InitHist(n))
  {
    LagSumIdle(Init(n).threads);
  }

  /** A step that only moves thread `i`. */
  lemma QuietStep(s: State, g: Hist, i: nat, pc: Pc)
    requires Inv(s, g) && i < |s.threads| && LocalOk(s, g, i, pc, g.tracks[i])
    requires OwnNode(pc) == Nil || OwnNode(pc) == OwnNode(s.threads[i])
    requires Lag(pc) == Lag(s.threads[i])
    ensures Inv(Goto(s, i, pc), g)
  {
    LagSumUpdate(s.threads, i, pc);
    assert Own(s.threads, i) == OwnNode(s.threads[i]);
    OwnFrom(s.heap, g.live, g.dead, s.threads, s.heap, g.live, g.dead, i, pc);
    LocalsFrom(s, g, Goto(s, i, pc), g, i);
  }

  lemma CallStep(s: State, g: Hist, a: Action)
    requires Inv(s, g) && a.tid < |s.threads| && s.threads[a.tid].Idle? && !a.Tick?
    ensures Inv(Step(s, a), Record(s, g, a))
  {
    var node := if a.CallPush? then [Node(a.v, Nil)] else [];
    var pc := if a.CallPush? then PushLoad(|s.heap|) else PopLoad;
    CallShared(s, g, a.tid, node, pc);
    CallLocals(s, g, a.tid, node, pc);
    BeginHistory(g, a.tid);
    assert s.heap + [] == s.heap;
  }

  lemma CallShared(s: State, g: Hist, i: nat, node: seq<Node>, pc: Pc)
    requires ChainOk(s.heap, s.top, g.live, g.dead) && OwnOk(s.heap, g.live, g.dead, s.threads)
    requires LogOk(s.heap, g.live, g.log) && CountOk(s.len, s.threads, |g.live|, g.laps) && i < |s.threads| && s.threads[i].Idle?
    requires (pc == PopLoad && node == []) || (pc == PushLoad(|s.heap|) && |node| == 1)
    ensures var heap' := s.heap + node;
            && ChainOk(heap', s.top, g.live, g.dead) && OwnOk(heap', g.live, g.dead, s.threads[i := pc])
            && LogOk(heap', g.live, g.log) && CountOk(s.len, s.threads[i := pc], |g.live|, g.laps)
  {
    var heap' := s.heap + node;
    LagSumUpdate(s.threads, i, pc);
    assert forall r: Ref :: r < |s.heap| ==> At(heap', r) == At(s.heap, r);
    assert Vals(heap', g.live) == Vals(s.heap, g.live);
    OwnFrom(s.heap, g.live, g.dead, s.threads, heap', g.live, g.dead, i, pc);
  }

  lemma CallLocals(s: State, g: Hist, i: nat, node: seq<Node>, pc: Pc)
    requires ChainOk(s.heap, s.top, g.live, g.dead) && OwnOk(s.heap, g.live, g.dead, s.threads) && LocalsOk(s, g)
    requires i < |s.threads| && (pc == PopLoad || pc == PushLoad(|s.heap|))
    ensures LocalsOk(s.(heap := s.heap + node, threads := s.threads[i := pc]), Later(Begin(g, i)))
  {
    var s' := s.(heap := s.heap + node, threads := s.threads[i := pc]);
    assert forall r: Ref :: r < |s.heap| ==> At(s'.heap, r) == At(s.heap, r);
    LocalsFrom(s, g, s', Later(Begin(g, i)), i);
  }

  lemma BeginHistory(g: Hist, i: nat)
    requires DoneOk(g.log, g.done, g.tracks) && OrderOk(g.done, g.tracks, g.now) && i < |g.tracks|
    ensures var g' := Later(Begin(g, i)); DoneOk(g'.log, g'.done, g'.tracks) && OrderOk(g'.done, g'.tracks, g'.now)
  {
    assert forall x :: 0 <= x < |g.done| ==> Justified(g.log, g.done[x]);
    OrderBegin(g.log, g.done, g.tracks, g.now, i, Begin(g, i).tracks[i]);
  }

  /** Line 68 writes a node that no other thread can reach. */
  lemma StoreStep(s: State, g: Hist, i: nat)
    requires Inv(s, g) && i < |s.threads| && s.threads[i].PushStore?
    ensures Inv(Execute(s, i), g)
  {
    var s', n := Execute(s, i), s.threads[i].item;
    LagSumUpdate(s.threads, i, s'.threads[i]);
    assert Own(s.threads, i) == To(n);
    assert forall r: Ref :: r != n ==> At(s'.heap, r) == At(s.heap, r);
    assert Vals(s'.heap, g.live) == Vals(s.heap, g.live);
    OwnFrom(s.heap, g.live, g.dead, s.threads, s'.heap, g.live, g.dead, i, s'.threads[i]);
    assert LocalOk(s, g, i, s.threads[i], g.tracks[i]);
    LocalsFrom(s, g, s', g, i);
  }

  lemma PublishStep(s: State, g: Hist, i: nat)
    requires Inv(s, g) && i < |s.threads| && s.threads[i].PushCas? && s.top == s.threads[i].seen
    ensures Inv(Execute(s, i), Watch(s, g, i))
  {
    var n := s.threads[i].item;
    LagSumUpdate(s.threads, i, PushDone(n));
    assert LocalOk(s, g, i, s.threads[i], g.tracks[i]);
    assert Own(s.threads, i) == To(n);
    PublishChain(s.heap, s.top, g.live, g.dead, n);
    PublishLog(s.heap, g.live, g.log, n, i);
    PublishOwn(s.heap, g.live, g.dead, s.threads, i, n);
    PublishLocals(s, g, i, n);
    EffectHistory(g, i, Push(At(s.heap, n).value));
  }

  lemma PublishOwn(heap: seq<Node>, live: seq<Ref>, dead: set<Ref>, ts: seq<Pc>, i: nat, n: Ref)
    requires OwnOk(heap, live, dead, ts) && i < |ts| && Own(ts, i) == To(n)
    ensures OwnOk(heap, [n] + live, dead, ts[i := PushDone(n)])
  {
    OwnFrom(heap, live, dead, ts, heap, [n] + live, dead, i, PushDone(n));
  }

  lemma PublishLocals(s: State, g: Hist, i: nat, n: Ref)
    requires LocalsOk(s, g) && i < |s.threads| && s.threads[i].PushCas? && s.threads[i].item == n && s.top == s.threads[i].seen
    ensures LocalsOk(Execute(s, i), Watch(s, g, i))
  {
    assert LocalOk(s, g, i, s.threads[i], g.tracks[i]);
    LocalsFrom(s, g, Execute(s, i), Watch(s, g, i), i);
  }

  /** The bookkeeping of a step that takes effect. */
  lemma EffectHistory(g: Hist, i: nat, op: Op)
    requires DoneOk(g.log, g.done, g.tracks) && OrderOk(g.done, g.tracks, g.now) && i < |g.tracks|
    ensures var g' := Effect(g, i, op); DoneOk(g'.log, g'.done, g'.tracks) && OrderOk(g'.done, g'.tracks, g'.now)
  {
    var g' := Effect(g, i, op);
    assert forall x :: 0 <= x < |g.done| ==> Justified(g.log, g.done[x]);
    assert forall j :: 0 <= j < |g.tracks| ==> g'.tracks[j].called == g.tracks[j].called && g'.tracks[j].since == g.tracks[j].since;
  }

  lemma PublishChain(heap: seq<Node>, top: Ptr, live: seq<Ref>, dead: set<Ref>, n: Ref)
    requires ChainOk(heap, top, live, dead)
    requires n < |heap| && n !in live && n !in dead && At(heap, n).next == top
    ensures ChainOk(heap, To(n), [n] + live, dead)
  {
    var live' := [n] + live;
    forall x, y | 0 <= x < y < |live'|
      ensures live'[x] != live'[y]
    {
      assert live'[y] == live[y - 1];
    }
    forall x | 0 <= x < |live'|
      ensures At(heap, live'[x]).next == Link(live', x + 1)
    {
      if x > 0 { assert live'[x] == live[x - 1]; }
    }
  }

  lemma PublishLog(heap: seq<Node>, live: seq<Ref>, log: seq<Entry>, n: Ref, i: nat)
    requires LogOk(heap, live, log)
    ensures LogOk(heap, [n] + live, log + [Entry(i, Push(At(heap, n).value))])
  {
    ReplayAppend(log, Entry(i, Push(At(heap, n).value)));
    assert Vals(heap, [n] + live) == [At(heap, n).value] + Vals(heap, live);
  }

  /** Line 51 succeeds only while the loaded node is still on top; its `next` has not
      changed since it was read, so the new top is the true remainder of the stack. */
  lemma UnlinkStep(s: State, g: Hist, i: nat)
    requires Inv(s, g) && i < |s.threads| && s.threads[i].PopCas? && s.top == To(s.threads[i].node)
    ensures Inv(Execute(s, i), Watch(s, g, i))
  {
    var tp := s.threads[i].node;
    LagSumUpdate(s.threads, i, PopDone(tp));
    UnlinkFacts(s, g, i);
    UnlinkShape(s, g, i);
    UnlinkChain(s.heap, s.top, g.live, g.dead, g.log, i);
    UnlinkOwn(s.heap, g.live, g.dead, s.threads, i, tp);
    UnlinkLocals(s, g, i, tp);
    EffectHistory(g, i, Pop(At(s.heap, tp).value));
  }

  lemma UnlinkFacts(s: State, g: Hist, i: nat)
    requires ChainOk(s.heap, s.top, g.live, g.dead) && LocalsOk(s, g) && i < |s.threads|
    requires s.threads[i].PopCas? && s.top == To(s.threads[i].node)
    ensures g.live != [] && g.live[0] == s.threads[i].node && s.threads[i].next == At(s.heap, s.threads[i].node).next
  {
    assert LocalOk(s, g, i, s.threads[i], g.tracks[i]);
  }

  lemma UnlinkShape(s: State, g: Hist, i: nat)
    requires i < |s.threads| == |g.tracks| && s.threads[i].PopCas? && s.top == To(s.threads[i].node) && g.live != []
    ensures var tp := s.threads[i].node;
            && Execute(s, i) == s.(threads := s.threads[i := PopDone(tp)], top := s.threads[i].next)
            && Watch(s, g, i) == Effect(g, i, Pop(At(s.heap, tp).value)).(live := g.live[1..], dead := g.dead + {tp})
  {
  }

  lemma UnlinkOwn(heap: seq<Node>, live: seq<Ref>, dead: set<Ref>, ts: seq<Pc>, i: nat, tp: Ref)
    requires OwnOk(heap, live, dead, ts) && i < |ts| && live != [] && live[0] == tp
    ensures OwnOk(heap, live[1..], dead + {tp}, ts[i := PopDone(tp)])
  {
    assert live == [tp] + live[1..];
    OwnFrom(heap, live, dead, ts, heap, live[1..], dead + {tp}, i, PopDone(tp));
  }

  lemma UnlinkLocals(s: State, g: Hist, i: nat, tp: Ref)
    requires LocalsOk(s, g) && i < |s.threads| && s.threads[i].PopCas? && s.threads[i].node == tp
    requires s.top == To(tp) && g.live != [] && g.live[0] == tp
    ensures LocalsOk(Execute(s, i), Watch(s, g, i))
  {
    assert LocalOk(s, g, i, s.threads[i], g.tracks[i]);
    assert g.live == [tp] + g.live[1..];
    LocalsFrom(s, g, Execute(s, i), Watch(s, g, i), i);
  }

  lemma UnlinkChain(heap: seq<Node>, top: Ptr, live: seq<Ref>, dead: set<Ref>, log: seq<Entry>, i: nat)
    requires ChainOk(heap, top, live, dead) && LogOk(heap, live, log) && top.To?
    ensures live != [] && top.ref == live[0]
    ensures ChainOk(heap, At(heap, top.ref).next, live[1..], dead + {top.ref})
    ensures LogOk(heap, live[1..], log + [Entry(i, Pop(At(heap, top.ref).value))])
  {
    UnlinkLog(heap, live, log, i);
    forall j | 0 <= j < |live[1..]|
      ensures At(heap, live[1..][j]).next == Link(live[1..], j + 1)
    {
      assert At(heap, live[j + 1]).next == Link(live, j + 2);
    }
  }

  lemma UnlinkLog(heap: seq<Node>, live: seq<Ref>, log: seq<Entry>, i: nat)
    requires LogOk(heap, live, log) && live != []
    ensures LogOk(heap, live[1..], log + [Entry(i, Pop(At(heap, live[0]).value))])
  {
    ReplayAppend(log, Entry(i, Pop(At(heap, live[0]).value)));
    assert Vals(heap, live)[1..] == Vals(heap, live[1..]);
  }

  /** The counter after the return of thread `i`. */
  function Counted(len: nat, lag: int): nat {
    if lag > 0 then Up(len) else if lag < 0 then Down(len) else len
  }

  function Lapped(len: nat, lag: int, laps: int): int {
    if lag > 0 && len + 1 == WORD then laps - 1 else if lag < 0 && len == 0 then laps + 1 else laps
  }

  lemma CountReturn(len: nat, ts: seq<Pc>, length: int, laps: int, i: nat)
    requires CountOk(len, ts, length, laps) && i < |ts|
    ensures CountOk(Counted(len, Lag(ts[i])), ts[i := Idle], length, Lapped(len, Lag(ts[i]), laps))
  {
    LagSumUpdate(ts, i, Idle);
  }

  lemma ReturnStep(s: State, g: Hist, i: nat, op: Op)
    requires Inv(s, g) && i < |s.threads| && Marked(g, i, g.tracks[i], op)
    ensures var lag := Lag(s.threads[i]);
            Inv(Goto(s, i, Idle).(len := Counted(s.len, lag)), Later(Finish(g, i, op).(laps := Lapped(s.len, lag, g.laps))))
  {
    var k := g.tracks[i];
    var d := Done(i, op, k.called, k.since, k.mark, |g.log|, g.now);
    DoneAppend(g.log, g.done, g.tracks, d, k.(since := |g.log|));
    OrderAppend(g.done, g.tracks, g.now, d, i, k.(since := |g.log|));
    CountReturn(s.len, s.threads, |g.live|, g.laps, i);
    OwnFrom(s.heap, g.live, g.dead, s.threads, s.heap, g.live, g.dead, i, Idle);
    ReturnLocals(s, g, i, op);
  }

  lemma ReturnLocals(s: State, g: Hist, i: nat, op: Op)
    requires LocalsOk(s, g) && i < |s.threads|
    ensures var lag := Lag(s.threads[i]);
            LocalsOk(Goto(s, i, Idle).(len := Counted(s.len, lag)), Later(Finish(g, i, op).(laps := Lapped(s.len, lag, g.laps))))
  {
    var lag := Lag(s.threads[i]);
    LocalsFrom(s, g, Goto(s, i, Idle).(len := Counted(s.len, lag)), Later(Finish(g, i, op).(laps := Lapped(s.len, lag, g.laps))), i);
  }

  /** Line 44 reads nil exactly when the stack is empty. */
  lemma EmptyStep(s: State, g: Hist, i: nat)
    requires Inv(s, g) && i < |s.threads| && s.threads[i].PopLoad? && s.top.Nil?
    ensures Inv(Execute(s, i), Later(Watch(s, g, i)))
  {
    var g' := Effect(g, i, PopEmpty);
    assert LocalOk(s, g, i, s.threads[i], g.tracks[i]);
    ReplayAppend(g.log, Entry(i, PopEmpty));
    assert Vals(s.heap, []) == [];
    LocalsFrom(s, g, s, g', i);
    ReturnStep(s, g', i, PopEmpty);
  }

  lemma LaterInv(s: State, g: Hist)
    requires Inv(s, g)
    ensures Inv(s, Later(g))
  {
  }

  /** The steps after which nobody has returned. */
  lemma InnerTick(s: State, g: Hist, i: nat)
    requires Inv(s, g) && i < |s.threads| && !s.threads[i].PushDone? && !s.threads[i].PopDone?
    requires !(s.threads[i].PopLoad? && s.top.Nil?)
    ensures Inv(Execute(s, i), Watch(s, g, i))
  {
    assert LocalOk(s, g, i, s.threads[i], g.tracks[i]);
    match s.threads[i] {
      case Idle =>
      case PushLoad(n) => QuietStep(s, g, i, PushStore(n, s.top));
      case PushStore(_, _) => StoreStep(s, g, i);
      case PushCas(n, tp) => if s.top == tp { PublishStep(s, g, i); } else { QuietStep(s, g, i, PushLoad(n)); }
      case PopLoad => QuietStep(s, g, i, PopNext(s.top.ref));
      case PopNext(tp) => QuietStep(s, g, i, PopCas(tp, At(s.heap, tp).next));
      case PopCas(tp, _) => if s.top == To(tp) { UnlinkStep(s, g, i); } else { QuietStep(s, g, i, PopLoad); }
    }
  }

  lemma DoneStep(s: State, g: Hist, i: nat)
    requires Inv(s, g) && i < |s.threads| && (s.threads[i].PushDone? || s.threads[i].PopDone?)
    ensures Inv(Execute(s, i), Later(Watch(s, g, i)))
  {
    DoneFacts(s, g, i);
    DoneShape(s, g, i);
    ReturnStep(s, g, i, DoneOp(s, i));
  }

  /** What a thread that is about to return has done. */
  function DoneOp(s: State, i: nat): Op
    requires i < |s.threads|
  {
    match s.threads[i]
    case PushDone(n) => Push(At(s.heap, n).value)
    case PopDone(tp) => Pop(At(s.heap, tp).value)
    case _ => PopEmpty
  }

  lemma DoneFacts(s: State, g: Hist, i: nat)
    requires LocalsOk(s, g) && i < |s.threads| && (s.threads[i].PushDone? || s.threads[i].PopDone?)
    ensures Marked(g, i, g.tracks[i], DoneOp(s, i))
  {
    assert LocalOk(s, g, i, s.threads[i], g.tracks[i]);
  }

  lemma DoneShape(s: State, g: Hist, i: nat)
    requires i < |s.threads| == |g.tracks| && (s.threads[i].PushDone? || s.threads[i].PopDone?)
    ensures var lag := Lag(s.threads[i]);
            && Execute(s, i) == Goto(s, i, Idle).(len := Counted(s.len, lag))
            && Watch(s, g, i) == Finish(g, i, DoneOp(s, i)).(laps := Lapped(s.len, lag, g.laps))
  {
  }

  lemma TickInv(s: State, g: Hist, i: nat)
    requires Inv(s, g) && i < |s.threads|
    ensures Inv(Execute(s, i), Later(Watch(s, g, i)))
  {
    if s.threads[i].PushDone? || s.threads[i].PopDone? {
      DoneStep(s, g, i);
    } else if s.threads[i].PopLoad? && s.top.Nil? {
      EmptyStep(s, g, i);
    } else {
      InnerTick(s, g, i);
      LaterInv(Execute(s, i), Watch(s, g, i));
    }
  }

  lemma StepInv(s: State, g: Hist, a: Action)
    requires Inv(s, g)
    ensures Inv(Step(s, a), Record(s, g, a))
  {
    if a.tid >= |s.threads| || (!a.Tick? && !s.threads[a.tid].Idle?) {
      LaterInv(s, g);
    } else if a.Tick? {
      TickInv(s, g, a.tid);
    } else {
      CallStep(s, g, a);
    }
  }

  // ---------------------------------------------------------------- theorems

  /** The history of a run. */
  ghost function History(threads: nat, schedule: seq<Action>): (g: Hist)
    ensures |g.tracks| == |Run(threads, schedule).threads|
  {
    if schedule == [] then InitHist(threads)
    else
      var before, a := schedule[..|schedule| - 1], schedule[|schedule| - 1];
      Sizes(Run(threads, before), History(threads, before), a);
      Record(Run(threads, before), History(threads, before), a)
  }

  lemma Sizes(s: State, g: Hist, a: Action)
    requires |g.tracks| == |s.threads|
    ensures |Record(s, g, a).tracks| == |Step(s, a).threads|
  {
  }

  lemma {:induction false} RunInv(threads: nat, schedule: seq<Action>)
    ensures Inv(Run(threads, schedule), History(threads, schedule))
  {
    if schedule == [] {
      InitInv(threads);
    } else {
      var before, a := schedule[..|schedule| - 1], schedule[|schedule| - 1];
      RunInv(threads, before);
      StepInv(Run(threads, before), History(threads, before), a);
    }
  }

  lemma {:induction false} WalkIsLive(heap: seq<Node>, live: seq<Ref>, pos: nat, fuel: nat)
    requires pos <= |live| <= pos + fuel
    requires forall i {:trigger At(heap, live[i])} :: 0 <= i < |live| ==> At(heap, live[i]).next == Link(live, i + 1)
    ensures Walk(heap, Link(live, pos), fuel) == live[pos..]
    decreases fuel
  {
    if pos < |live| {
      WalkIsLive(heap, live, pos + 1, fuel - 1);
      assert live[pos..] == [live[pos]] + live[pos + 1..];
    }
  }

  /** The physical stack is what the logged operations describe. */
  lemma WalkFromTop(s: State, g: Hist)
    requires ChainOk(s.heap, s.top, g.live, g.dead)
    ensures Walk(s.heap, s.top, |s.heap|) == g.live
  {
    DistinctBelow(g.live, |s.heap|);
    WalkIsLive(s.heap, g.live, 0, |s.heap|);
  }

  lemma OwnEntry(log: seq<Entry>, done: seq<Done>, tracks: seq<Track>, x: int, y: int)
    requires DoneOk(log, done, tracks) && 0 <= x < y < |done|
    ensures done[x].at != done[y].at
  {
    assert Justified(log, done[x]) && Justified(log, done[y]);
  }

  /** Every run is linearizable: the log is a legal LIFO history ending in the physical
      stack, every returned call owns one entry of it, logged during the call, two returned
      calls never share an entry, and calls that did not overlap are logged in the order
      they happened. */
  lemma Linearizable(threads: nat, schedule: seq<Action>)
    ensures var s, g := Run(threads, schedule), History(threads, schedule);
            && Replay(g.log) == Legal(Stacked(s))
            && (forall x :: 0 <= x < |g.done| ==> Justified(g.log, g.done[x]))
            && (forall x, y :: 0 <= x < y < |g.done| ==> g.done[x].at != g.done[y].at)
            && (forall x, y :: 0 <= x < |g.done| && 0 <= y < |g.done| && g.done[x].returned < g.done[y].called ==>
                  g.done[x].at < g.done[y].at)
  {
    RunInv(threads, schedule);
    var s, g := Run(threads, schedule), History(threads, schedule);
    WalkFromTop(s, g);
    RealTime(g);
    forall x, y | 0 <= x < y < |g.done|
      ensures g.done[x].at != g.done[y].at
    {
      OwnEntry(g.log, g.done, g.tracks, x, y);
    }
  }

  lemma RealTime(g: Hist)
    requires DoneOk(g.log, g.done, g.tracks) && OrderOk(g.done, g.tracks, g.now)
    ensures forall x, y :: 0 <= x < |g.done| && 0 <= y < |g.done| && g.done[x].returned < g.done[y].called ==>
              g.done[x].at < g.done[y].at
  {
    assert forall x :: 0 <= x < |g.done| ==> Justified(g.log, g.done[x]);
  }

  lemma LastStep(threads: nat, schedule: seq<Action>)
    requires schedule != []
    ensures var before, a := schedule[..|schedule| - 1], schedule[|schedule| - 1];
            && Run(threads, schedule) == Step(Run(threads, before), a)
            && History(threads, schedule) == Record(Run(threads, before), History(threads, before), a)
  {
  }

  /** The 64-bit counter, plus the pushes not yet counted, minus the pops not yet counted, is
      the real length up to whole turns; with nothing in flight it is the length itself. */
  lemma CounterLag(threads: nat, schedule: seq<Action>)
    ensures var s := Run(threads, schedule);
            && s.len < WORD && s.len + LagSum(s.threads) == |Stacked(s)| + History(threads, schedule).laps * WORD
            && (LagSum(s.threads) == 0 && |Stacked(s)| < WORD ==> s.len == |Stacked(s)|)
  {
    RunInv(threads, schedule);
    CounterOf(Run(threads, schedule), History(threads, schedule));
  }

  lemma CounterOf(s: State, g: Hist)
    requires ChainOk(s.heap, s.top, g.live, g.dead) && CountOk(s.len, s.threads, |g.live|, g.laps)
    ensures s.len < WORD && s.len + LagSum(s.threads) == |Stacked(s)| + g.laps * WORD
    ensures LagSum(s.threads) == 0 && |Stacked(s)| < WORD ==> s.len == |Stacked(s)|
  {
    WalkFromTop(s, g);
  }

  lemma StepForward(s: State, g: Hist, a: Action)
    requires Inv(s, g)
    ensures var s', g' := Step(s, a), Record(s, g, a);
            && g.dead <= g'.dead
            && forall r :: Published(g, r) ==> Published(g', r) && At(s'.heap, r) == At(s.heap, r)
  {
    if a.Tick? && a.tid < |s.threads| {
      UnlinkedStaysPublished(s, g, a.tid);
      TickForward(s, g, a.tid);
    }
  }

  lemma UnlinkedStaysPublished(s: State, g: Hist, i: nat)
    requires ChainOk(s.heap, s.top, g.live, g.dead) && OwnOk(s.heap, g.live, g.dead, s.threads) && LocalsOk(s, g) && i < |s.threads|
    ensures s.threads[i].PopCas? && s.top == To(s.threads[i].node) ==> g.live != [] && g.live[0] == s.threads[i].node
    ensures s.threads[i].PushStore? ==> !Published(g, s.threads[i].item)
  {
    assert LocalOk(s, g, i, s.threads[i], g.tracks[i]);
    assert Own(s.threads, i) == OwnNode(s.threads[i]);
  }

  lemma TickForward(s: State, g: Hist, i: nat)
    requires i < |s.threads| == |g.tracks|
    requires s.threads[i].PopCas? && s.top == To(s.threads[i].node) ==> g.live != [] && g.live[0] == s.threads[i].node
    requires s.threads[i].PushStore? ==> !Published(g, s.threads[i].item)
    ensures var s', g' := Execute(s, i), Watch(s, g, i);
            && g.dead <= g'.dead
            && forall r :: Published(g, r) ==> Published(g', r) && At(s'.heap, r) == At(s.heap, r)
  {
    if s.threads[i].PopCas? && g.live != [] { assert g.live == [g.live[0]] + g.live[1..]; }
  }

  /** Whatever happens after `n` steps of a run: a node that has been published keeps its
      value and its `next`, and a node that has been popped never returns to the stack. */
  lemma {:induction false} PublishedIsFrozen(threads: nat, schedule: seq<Action>, n: nat)
    requires n <= |schedule|
    ensures var s, g := Run(threads, schedule[..n]), History(threads, schedule[..n]);
            var s', g' := Run(threads, schedule), History(threads, schedule);
            && (forall r :: Published(g, r) ==> Published(g', r) && At(s'.heap, r) == At(s.heap, r))
            && (forall r :: r in g.dead ==> r !in Walk(s'.heap, s'.top, |s'.heap|))
    decreases |schedule|
  {
    FrozenSoFar(threads, schedule, n);
    RunInv(threads, schedule);
    var s', g' := Run(threads, schedule), History(threads, schedule);
    WalkFromTop(s', g');
  }

  lemma {:induction false} FrozenSoFar(threads: nat, schedule: seq<Action>, n: nat)
    requires n <= |schedule|
    ensures var s, g := Run(threads, schedule[..n]), History(threads, schedule[..n]);
            var s', g' := Run(threads, schedule), History(threads, schedule);
            && g.dead <= g'.dead
            && (forall r :: Published(g, r) ==> Published(g', r) && At(s'.heap, r) == At(s.heap, r))
    decreases |schedule|
  {
    if n < |schedule| {
      var before := schedule[..|schedule| - 1];
      FrozenSoFar(threads, before, n);
      assert before[..n] == schedule[..n];
      LastStep(threads, schedule);
      RunInv(threads, before);
      StepForward(Run(threads, before), History(threads, before), schedule[|schedule| - 1]);
    } else {
      assert schedule[..n] == schedule;
    }
  }
}
