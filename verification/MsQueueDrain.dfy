/** The loop that dequeues until `IsEmpty` (read_write_worker.go:61-66, consumer_worker.go:144-149)
    takes out everything there is. */
module MsQueueDrain {
  import opened QueueSpec
  import opened MsQueue
  import opened MsQueueInvariant
  import opened MsQueueTheorems
  import opened MsQueueCalls

  /** Thread `t` has linked a node and not returned yet. */
  predicate Linking(t: Thread) {
    t.pc.EnqSwing? || t.pc.EnqCount?
  }

  /** The enqueues that have put their element into the list and are still to return. */
  function Unfinished(threads: seq<Thread>): nat {
    if threads == [] then 0
    else Unfinished(threads[..|threads| - 1]) + if Linking(threads[|threads| - 1]) then 1 else 0
  }

  /** How many of the calls satisfy `enqueue` or, else, have taken an element out. */
  function Returns(calls: seq<Call>, enqueues: bool): nat {
    if calls == [] then 0
    else
      var op := calls[|calls| - 1].op;
      Returns(calls[..|calls| - 1], enqueues) + if (enqueues && op.Enq?) || (!enqueues && op.Deq?) then 1 else 0
  }

  lemma ReturnsNext(calls: seq<Call>, c: Call, enqueues: bool)
    ensures Returns(calls + [c], enqueues) == Returns(calls, enqueues) + if (enqueues && c.op.Enq?) || (!enqueues && c.op.Deq?) then 1 else 0
  {
    assert (calls + [c])[..|calls|] == calls;
  }

  // ---------------------------------------------------------------- the counter counts returned calls

  /** A step moves the counter exactly with the return of a call. */
  lemma CounterMoves(s: State, a: Action)
    ensures var s', i := Step(s, a), a.tid;
            s'.size == s.size + if Inside(s, i) && !Inside(s', i) then
                                  (if s.threads[i].pc.EnqCount? then 1 else if s.threads[i].pc.DeqCount? then -1 else 0)
                                else 0
  {
  }

  /** `queueSize` is the number of enqueues that have returned minus the number of dequeues that
      have returned an element. */
  lemma {:induction false} CounterCountsReturns(threads: nat, schedule: seq<Action>)
    ensures var calls := Calls(threads, schedule);
            Run(threads, schedule).size == Returns(calls, true) - Returns(calls, false)
  {
    if schedule != [] {
      var before, a := schedule[..|schedule| - 1], schedule[|schedule| - 1];
      CounterCountsReturns(threads, before);
      CountStep(before, a, Run(threads, before), Since(threads, before, a.tid), Calls(threads, before), Calls(threads, schedule));
    }
  }

  lemma CountStep(before: seq<Action>, a: Action, s: State, called: nat, calls: seq<Call>, calls': seq<Call>)
    requires s.size == Returns(calls, true) - Returns(calls, false)
    requires calls' == calls + if Inside(s, a.tid) && !Inside(Step(s, a), a.tid)
                               then [Call(a.tid, ReturnOf(before, called, s.threads[a.tid].pc), called, |before|)] else []
    ensures Step(s, a).size == Returns(calls', true) - Returns(calls', false)
  {
    CounterMoves(s, a);
    if Inside(s, a.tid) && !Inside(Step(s, a), a.tid) {
      var c := Call(a.tid, ReturnOf(before, called, s.threads[a.tid].pc), called, |before|);
      ReturnsNext(calls, c, true);
      ReturnsNext(calls, c, false);
    } else {
      assert calls' == calls;
    }
  }

  // ---------------------------------------------------------------- leaving the loop

  lemma {:induction false} LagIsUnfinished(ts: seq<Thread>)
    requires forall i :: 0 <= i < |ts| ==> !ts[i].pc.DeqCount?
    ensures LagSum(ts) == Unfinished(ts)
  {
    if ts != [] { LagIsUnfinished(ts[..|ts| - 1]); }
  }

  /** While the only consumer looks at `IsEmpty`, the list is as long as the counter says, apart
      from the enqueues that have not returned. */
  lemma AtTheCheck(threads: nat, schedule: seq<Action>, c: nat)
    requires OneConsumer(schedule, c)
    requires var s := Run(threads, schedule); c < |s.threads| && s.threads[c].pc.DrainCheck?
    ensures var s := Run(threads, schedule); |Queued(s)| == s.size + Unfinished(s.threads)
  {
    ConsumerRun(threads, schedule, c);
    CounterLag(threads, schedule);
    NobodyTakes(Run(threads, schedule), c);
    LagIsUnfinished(Run(threads, schedule).threads);
  }

  lemma NobodyTakes(s: State, c: nat)
    requires RolesOk(s, c) && c < |s.threads| && s.threads[c].pc.DrainCheck?
    ensures forall i :: 0 <= i < |s.threads| ==> !s.threads[i].pc.DeqCount?
  {
    forall i | 0 <= i < |s.threads|
      ensures !s.threads[i].pc.DeqCount?
    {
      assert RoleOk(s.threads[i], i == c, s.size);
    }
  }

  /** A thread in the loop is never idle. */
  lemma {:induction false} LoopIsNotIdle(threads: nat, schedule: seq<Action>, c: nat)
    requires c < |Run(threads, schedule).threads|
    ensures Run(threads, schedule).threads[c].draining ==> !Run(threads, schedule).threads[c].pc.Idle?
  {
    if schedule != [] {
      var before, a := schedule[..|schedule| - 1], schedule[|schedule| - 1];
      ThreadsStay(Run(threads, before), a);
      LoopIsNotIdle(threads, before, c);
      LoopStep(Run(threads, before), a, c);
    }
  }

  /** What any step does to a thread in the loop: it leaves it only from the check, and only if the
      counter is zero. */
  lemma LoopStep(s: State, a: Action, c: nat)
    requires c < |s.threads| && (s.threads[c].draining ==> !s.threads[c].pc.Idle?)
    ensures |Step(s, a).threads| == |s.threads|
    ensures var t, t' := s.threads[c], Step(s, a).threads[c];
            && (t'.draining ==> !t'.pc.Idle?)
            && (t.draining ==>
                  if a == Tick(c) && t.pc.DrainCheck? && s.size == 0 then t' == Thread(Idle, false)
                  else t'.draining && (a == Tick(c) && t.pc.DrainCheck? ==> t'.pc.DeqLoadHead?))
  {
    if a.Tick? && a.tid == c {
      LoopTick(s, c);
    } else {
      LoopOther(s, a, c);
    }
  }

  lemma LoopTick(s: State, c: nat)
    requires c < |s.threads| && (s.threads[c].draining ==> !s.threads[c].pc.Idle?)
    ensures |Execute(s, c).threads| == |s.threads|
    ensures var t, t' := s.threads[c], Execute(s, c).threads[c];
            && (t'.draining ==> !t'.pc.Idle?)
            && (t.draining ==>
                  if t.pc.DrainCheck? && s.size == 0 then t' == Thread(Idle, false)
                  else t'.draining && (t.pc.DrainCheck? ==> t'.pc.DeqLoadHead?))
  {
  }

  lemma LoopOther(s: State, a: Action, c: nat)
    requires c < |s.threads| && !(a.Tick? && a.tid == c) && (s.threads[c].draining ==> !s.threads[c].pc.Idle?)
    ensures |Step(s, a).threads| == |s.threads|
    ensures var t, t' := s.threads[c], Step(s, a).threads[c];
            (t'.draining ==> !t'.pc.Idle?) && (t.draining ==> t' == t)
  {
  }

  /** Over a step, a consumer in its loop leaves it exactly when, at the check, everything queued
      belongs to enqueues that have not returned; then as many elements have been taken out as
      enqueues have returned. In every other state the loop goes on, from the check with another
      dequeue. */
  ghost predicate Drains(s: State, s': State, a: Action, c: nat, calls: seq<Call>) {
    && c < |s.threads| && c < |s'.threads|
    && var t, t', checks := s.threads[c], s'.threads[c], a == Tick(c) && s.threads[c].pc.DrainCheck?;
       if checks && |Queued(s)| == Unfinished(s.threads) then
         t' == Thread(Idle, false) && Returns(calls, true) == Returns(calls, false)
       else
         && t'.draining && !t'.pc.Idle?
         && (checks ==> t'.pc.DeqLoadHead? && Returns(calls, true) > Returns(calls, false))
  }

  /** In every run with one consumer, whatever step comes next. */
  lemma DrainTakesAll(threads: nat, schedule: seq<Action>, c: nat, a: Action)
    requires OneConsumer(schedule, c) && c < |Run(threads, schedule).threads|
    requires Run(threads, schedule).threads[c].draining
    ensures Drains(Run(threads, schedule), Step(Run(threads, schedule), a), a, c, Calls(threads, schedule))
  {
    var s := Run(threads, schedule);
    LoopIsNotIdle(threads, schedule, c);
    LoopStep(s, a, c);
    CounterCountsReturns(threads, schedule);
    if s.threads[c].pc.DrainCheck? {
      AtTheCheck(threads, schedule, c);
      ConsumerRun(threads, schedule, c);
    }
  }
}
