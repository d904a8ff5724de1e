/** No call on the queue waits for another thread: from every reachable state, whatever the other
    threads were doing when they stopped, a thread that runs alone returns within 15 steps. */
module MsQueueProgress {
  import opened QueueSpec
  import opened MsQueue
  import opened MsQueueInvariant
  import opened MsQueueTheorems
  import opened MsQueueCalls

  /** The steps an enqueue needs from the beginning: 6, and 4 more to help a tail that lags. */
  function EnqueueSteps(s: State): nat {
    if At(s.heap, s.tail).next.Nil? then 6 else 10
  }

  /** The same for a dequeue: 4 from an empty queue, else 7, and 5 more to help. */
  function DequeueSteps(s: State): nat {
    if s.head != s.tail then 7 else if At(s.heap, s.head).next.Nil? then 4 else 12
  }

  /** A bound on the steps a thread at `pc` still needs alone; what it has seen may be stale. */
  function Rank(s: State, pc: Pc): (n: nat)
    ensures n <= 15
  {
    var enq, deq := EnqueueSteps(s), DequeueSteps(s);
    match pc
    case EnqLoadTail(_) => enq
    case EnqLoadNext(_, tl) => if tl != s.tail then 2 + enq else enq - 1
    case EnqRecheck(_, tl, nx) =>
      if tl != s.tail then 1 + enq else if nx.To? then 8 else if At(s.heap, tl).next.Nil? then 4 else 2 + enq
    case EnqLink(_, tl) => if At(s.heap, tl).next.Nil? then 3 else 1 + enq
    case EnqSwing(_, _) => 2
    case EnqCount(_) => 1
    case EnqHelp(_, tl, _) => if s.tail == tl then 7 else 1 + enq
    case DeqLoadHead => deq
    case DeqLoadTail(hd) => if hd != s.head then 3 + deq else deq - 1
    case DeqLoadNext(hd, tl) =>
      if hd != s.head then 2 + deq else if hd != tl then 5 else if At(s.heap, hd).next.Nil? then 2 else 10
    case DeqRecheck(hd, tl, nx) => if hd != s.head then 1 + deq else if hd != tl then 4 else if nx.Nil? then 1 else 9
    case DeqHelp(tl, _) => if s.tail == tl then 8 else 1 + deq
    case DeqReadValue(hd, _) => if hd == s.head then 3 else 2 + deq
    case DeqUnlink(hd, _, _) => if hd == s.head then 2 else 1 + deq
    case DeqCount(_) => 1
    case _ => 0
  }

  /** What a thread has seen, as far as it matters for its progress. */
  ghost predicate Seen(s: State, pc: Pc) {
    match pc
    case EnqHelp(_, tl, nx) => tl == s.tail ==> At(s.heap, nx).next.Nil?
    case DeqHelp(tl, nx) => tl == s.tail ==> nx != s.head
    case DeqReadValue(_, nx) => nx.To? && At(s.heap, nx.ref).value.Holds?
    case Panicked => false
    case _ => true
  }

  lemma SeenByInv(s: State, g: Hist, i: nat)
    requires Inv(s, g) && i < |s.threads|
    ensures Seen(s, s.threads[i].pc)
  {
    assert LocalOk(s, g, i, s.threads[i].pc, g.tracks[i]);
    SeenOnChain(s, g, s.threads[i].pc, g.tracks[i], i);
  }

  lemma SeenOnChain(s: State, g: Hist, pc: Pc, k: Track, i: nat)
    requires ChainOk(s.heap, s.head, s.tail, g.chain, g.h, g.t) && EnqOk(s, g, i, pc, k) && DeqOk(s, g, i, pc, k)
    ensures Seen(s, pc)
  {
    if pc.EnqHelp? || pc.DeqHelp? {
      if pc.tail == s.tail { assert k.tailPos == g.t; }
    } else if pc.DeqReadValue? {
      assert At(s.heap, g.chain[k.headPos + 1]).value.Holds?;
    }
  }

  lemma EnqueueSinks(s: State, i: nat)
    requires i < |s.threads| && NodeOf(s.threads[i].pc).To? && Seen(s, s.threads[i].pc)
    ensures |Execute(s, i).threads| == |s.threads|
    ensures Inside(Execute(s, i), i) ==> Rank(Execute(s, i), Execute(s, i).threads[i].pc) < Rank(s, s.threads[i].pc)
  {
  }

  lemma DequeueSinks(s: State, i: nat)
    requires i < |s.threads| && InCall(s.threads[i]) && NodeOf(s.threads[i].pc).Nil? && Seen(s, s.threads[i].pc)
    ensures |Execute(s, i).threads| == |s.threads|
    ensures Inside(Execute(s, i), i) ==> Rank(Execute(s, i), Execute(s, i).threads[i].pc) < Rank(s, s.threads[i].pc)
  {
  }

  function Ticks(i: nat, n: nat): seq<Action> {
    seq(n, _ => Tick(i))
  }

  lemma OneTick(threads: nat, schedule: seq<Action>, i: nat)
    ensures Run(threads, schedule + [Tick(i)]) == Step(Run(threads, schedule), Tick(i))
  {
    assert (schedule + [Tick(i)])[..|schedule|] == schedule;
  }

  lemma TicksFollow(schedule: seq<Action>, i: nat, n: nat)
    ensures schedule + [Tick(i)] + Ticks(i, n) == schedule + Ticks(i, n + 1)
  {
  }

  /** After every run, thread `i` alone finishes the call it is in, in at most 15 steps. */
  lemma ReturnsAlone(threads: nat, schedule: seq<Action>, i: nat) returns (n: nat)
    requires Inside(Run(threads, schedule), i)
    ensures 0 < n <= Rank(Run(threads, schedule), Run(threads, schedule).threads[i].pc) <= 15
    ensures !Inside(Run(threads, schedule + Ticks(i, n)), i)
    decreases Rank(Run(threads, schedule), Run(threads, schedule).threads[i].pc)
  {
    var s := Run(threads, schedule);
    RunInv(threads, schedule);
    SeenByInv(s, History(threads, schedule), i);
    if NodeOf(s.threads[i].pc).To? { EnqueueSinks(s, i); } else { DequeueSinks(s, i); }
    OneTick(threads, schedule, i);
    if Inside(Execute(s, i), i) {
      n := ReturnsAlone(threads, schedule + [Tick(i)], i);
      TicksFollow(schedule, i, n);
      n := n + 1;
    } else {
      n := 1;
      assert Ticks(i, 1) == [Tick(i)];
      RankIsPositive(s, s.threads[i]);
    }
  }

  lemma RankIsPositive(s: State, t: Thread)
    requires InCall(t) && Seen(s, t.pc)
    ensures Rank(s, t.pc) > 0
  {
  }

  /** A call of an idle thread begins at once, and a drain loop with its first check. */
  lemma CallsBegin(threads: nat, schedule: seq<Action>, i: nat, v: int)
    requires i < |Run(threads, schedule).threads| && Run(threads, schedule).threads[i].pc.Idle?
    ensures var s := Run(threads, schedule);
            && Inside(Step(s, CallEnqueue(i, v)), i) && Inside(Step(s, CallDequeue(i)), i)
            && Step(s, CallDrain(i)).threads[i] == Thread(DrainCheck, true)
  {
  }
}
