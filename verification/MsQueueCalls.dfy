/** The history of a queue run tells the truth about the calls: it lists exactly the calls that
    have returned, with their arguments and results and the steps they were made and returned in. */
module MsQueueCalls {
  import opened QueueSpec
  import opened MsQueue
  import opened MsQueueInvariant
  import opened MsQueueTheorems

  // ---------------------------------------------------------------- calls, told from the machine alone

  predicate InCall(t: Thread) {
    !t.pc.Idle? && !t.pc.DrainCheck?
  }

  predicate Inside(s: State, i: nat) {
    i < |s.threads| && InCall(s.threads[i])
  }

  /** The step in which thread `i` last entered a call. */
  function Since(threads: nat, schedule: seq<Action>, i: nat): nat {
    if schedule == [] then 0
    else
      var before := schedule[..|schedule| - 1];
      if !Inside(Run(threads, before), i) && Inside(Run(threads, schedule), i) then |before| else Since(threads, before, i)
  }

  datatype Call = Call(tid: nat, op: Op, called: nat, returned: nat)

  /** The value that step `k` of the run puts into the queue. */
  function Argument(schedule: seq<Action>, k: nat): int {
    if k < |schedule| && schedule[k].CallEnqueue? then schedule[k].v else 0
  }

  /** What a call made in step `called` amounts to when it returns at `pc`. */
  function ReturnOf(schedule: seq<Action>, called: nat, pc: Pc): Op {
    match pc
    case EnqCount(_) => Enq(Argument(schedule, called))
    case DeqCount(v) => Deq(v)
    case _ => DeqEmpty
  }

  /** The calls that have returned, in the order of their returns. */
  function Calls(threads: nat, schedule: seq<Action>): seq<Call> {
    if schedule == [] then []
    else
      var before, i := schedule[..|schedule| - 1], schedule[|schedule| - 1].tid;
      var s, called := Run(threads, before), Since(threads, before, i);
      Calls(threads, before)
      + if Inside(s, i) && !Inside(Run(threads, schedule), i)
        then [Call(i, ReturnOf(before, called, s.threads[i].pc), called, |before|)] else []
  }

  function CallOf(d: Done): Call {
    Call(d.tid, d.op, d.called, d.returned)
  }

  // ---------------------------------------------------------------- one step

  /** The node of an enqueue. */
  function NodeOf(pc: Pc): Ptr {
    match pc
    case EnqLoadTail(n) => To(n)
    case EnqLoadNext(n, _) => To(n)
    case EnqRecheck(n, _, _) => To(n)
    case EnqLink(n, _) => To(n)
    case EnqSwing(n, _) => To(n)
    case EnqCount(n) => To(n)
    case EnqHelp(n, _, _) => To(n)
    case _ => Nil
  }

  /** Nodes keep their values. */
  ghost predicate Keeps(heap: seq<Node>, heap': seq<Node>) {
    |heap| <= |heap'| && forall r :: 0 <= r < |heap| ==> heap'[r].value == heap[r].value
  }

  /** How the history follows thread `i` over a step: it notes the moment a call begins, keeps
      it while the call lasts and records the call when it returns. */
  ghost predicate Follows(s: State, g: Hist, s': State, g': Hist, i: nat)
    requires i < |s.threads| == |g.tracks| && g.lens != []
  {
    && |s'.threads| == |g'.tracks| == |s.threads|
    && (forall j :: 0 <= j < |s.threads| && j != i ==> s'.threads[j] == s.threads[j] && g'.tracks[j] == g.tracks[j])
    && var pc, pc', now := s.threads[i].pc, s'.threads[i].pc, Now(g);
       if !InCall(s.threads[i]) then
         g'.done == g.done && (InCall(s'.threads[i]) ==> g'.tracks[i].called == now)
       else if InCall(s'.threads[i]) then
         g'.done == g.done && g'.tracks[i].called == g.tracks[i].called && NodeOf(pc') == NodeOf(pc)
       else
         g'.done == g.done + [Done(i, if pc.EnqCount? then Enq(Val(s.heap, pc.node)) else ReturnOf([], 0, pc),
                                   g.tracks[i].called, g.tracks[i].mark, now)]
  }

  lemma EnqFollows(s: State, g: Hist, i: nat)
    requires i < |s.threads| == |g.tracks| && g.lens != [] && NodeOf(s.threads[i].pc).To?
    ensures Follows(s, g, Execute(s, i), Watch(s, g, i), i) && Keeps(s.heap, Execute(s, i).heap)
  {
  }

  lemma DeqFollows(s: State, g: Hist, i: nat)
    requires i < |s.threads| == |g.tracks| && g.lens != [] && NodeOf(s.threads[i].pc).Nil?
    ensures Follows(s, g, Execute(s, i), Watch(s, g, i), i) && Keeps(s.heap, Execute(s, i).heap)
  {
    var pc := s.threads[i].pc;
    if pc.DeqRecheck? {
      RecheckFollows(s, g, i);
    } else if pc.DeqLoadHead? || pc.DeqLoadTail? || pc.DeqLoadNext? || pc.DeqHelp? {
      LoadFollows(s, g, i);
    }
  }

  lemma LoadFollows(s: State, g: Hist, i: nat)
    requires i < |s.threads| == |g.tracks| && g.lens != []
    requires var pc := s.threads[i].pc; pc.DeqLoadHead? || pc.DeqLoadTail? || pc.DeqLoadNext? || pc.DeqHelp?
    ensures Follows(s, g, Execute(s, i), Watch(s, g, i), i)
  {
  }

  lemma RecheckFollows(s: State, g: Hist, i: nat)
    requires i < |s.threads| == |g.tracks| && g.lens != [] && s.threads[i].pc.DeqRecheck?
    ensures Follows(s, g, Execute(s, i), Watch(s, g, i), i)
  {
  }

  lemma CallFollows(s: State, g: Hist, a: Action)
    requires a.tid < |s.threads| == |g.tracks| && g.lens != [] && !a.Tick?
    ensures Follows(s, g, Step(s, a), Record(s, g, a), a.tid) && Keeps(s.heap, Step(s, a).heap)
    ensures !Inside(s, a.tid) && Inside(Step(s, a), a.tid) ==>
              var node := NodeOf(Step(s, a).threads[a.tid].pc);
              if a.CallEnqueue? then node == To(|s.heap|) && Step(s, a).heap == s.heap + [Node(Holds(a.v), Nil)] else node == Nil
  {
  }

  lemma LaterFollows(s: State, g: Hist, s': State, g': Hist, i: nat)
    requires i < |s.threads| == |g.tracks| && g.lens != [] && Follows(s, g, s', g', i)
    ensures Follows(s, g, s', Later(g'), i)
  {
  }

  lemma StepFollows(s: State, g: Hist, a: Action)
    requires a.tid < |s.threads| == |g.tracks| && g.lens != []
    ensures Follows(s, g, Step(s, a), Record(s, g, a), a.tid) && Keeps(s.heap, Step(s, a).heap)
  {
    if !a.Tick? {
      CallFollows(s, g, a);
    } else {
      if NodeOf(s.threads[a.tid].pc).To? { EnqFollows(s, g, a.tid); } else { DeqFollows(s, g, a.tid); }
      LaterFollows(s, g, Execute(s, a.tid), Watch(s, g, a.tid), a.tid);
    }
  }

  // ---------------------------------------------------------------- every run

  ghost predicate Made(schedule: seq<Action>, k: nat, a: Action) {
    k < |schedule| && schedule[k] == a
  }

  /** Thread `i` is in the call its track says, and an enqueue in it carries its argument. */
  ghost predicate InThatCall(schedule: seq<Action>, s: State, called: nat, since: nat, i: nat) {
    Inside(s, i) ==>
      && called == since
      && var node := NodeOf(s.threads[i].pc);
         node.To? ==> node.ref < |s.heap| && Made(schedule, called, CallEnqueue(i, Val(s.heap, node.ref)))
  }

  ghost predicate Listed(done: seq<Done>, calls: seq<Call>) {
    |done| == |calls| && forall x :: 0 <= x < |done| ==> CallOf(done[x]) == calls[x]
  }

  ghost predicate AllInCalls(threads: nat, schedule: seq<Action>, s: State, g: Hist)
    requires |g.tracks| == |s.threads|
  {
    forall i: nat :: i < |s.threads| ==> InThatCall(schedule, s, g.tracks[i].called, Since(threads, schedule, i), i)
  }

  /** Over one step of thread `a.tid`, for any thread `j`. */
  lemma InCallStep(before: seq<Action>, a: Action, s: State, g: Hist, j: nat, since: nat, since': nat)
    requires a.tid < |s.threads| == |g.tracks| && |g.lens| == |before| + 1 && j < |s.threads|
    requires InThatCall(before, s, g.tracks[j].called, since, j)
    requires since' == if !Inside(s, j) && Inside(Step(s, a), j) then |before| else since
    ensures |Record(s, g, a).tracks| == |s.threads|
    ensures InThatCall(before + [a], Step(s, a), Record(s, g, a).tracks[j].called, since', j)
  {
    StepFollows(s, g, a);
    if j == a.tid && !Inside(s, j) && Inside(Step(s, a), j) { EnterStep(a, s, g); }
  }

  lemma EnterStep(a: Action, s: State, g: Hist)
    requires a.tid < |s.threads| == |g.tracks| && g.lens != [] && !Inside(s, a.tid) && Inside(Step(s, a), a.tid)
    ensures var s', node := Step(s, a), NodeOf(Step(s, a).threads[a.tid].pc);
            node.To? ==> node.ref < |s'.heap| && a == CallEnqueue(a.tid, Val(s'.heap, node.ref))
  {
    if !a.Tick? { CallFollows(s, g, a); }
  }

  lemma DoneStep(before: seq<Action>, a: Action, s: State, g: Hist, called: nat)
    requires a.tid < |s.threads| == |g.tracks| && |g.lens| == |before| + 1
    requires InThatCall(before, s, g.tracks[a.tid].called, called, a.tid)
    ensures var done, done' := g.done, Record(s, g, a).done;
            if Inside(s, a.tid) && !Inside(Step(s, a), a.tid)
            then
              && |done'| == |done| + 1 && done <= done'
              && CallOf(done'[|done|]) == Call(a.tid, ReturnOf(before, called, s.threads[a.tid].pc), called, |before|)
            else done' == done
  {
    StepFollows(s, g, a);
  }

  lemma LastStep(threads: nat, schedule: seq<Action>)
    requires schedule != []
    ensures var before, a := schedule[..|schedule| - 1], schedule[|schedule| - 1];
            && Run(threads, schedule) == Step(Run(threads, before), a)
            && History(threads, schedule) == Record(Run(threads, before), History(threads, before), a)
  {
  }

  /** The threads whose calls last know since when. */
  lemma {:induction false} RunInCalls(threads: nat, schedule: seq<Action>)
    ensures |History(threads, schedule).lens| == |schedule| + 1
    ensures AllInCalls(threads, schedule, Run(threads, schedule), History(threads, schedule))
  {
    if schedule != [] {
      var before, a := schedule[..|schedule| - 1], schedule[|schedule| - 1];
      RunInCalls(threads, before);
      NextInCalls(threads, before, a, schedule);
    }
  }

  lemma NextInCalls(threads: nat, before: seq<Action>, a: Action, schedule: seq<Action>)
    requires schedule == before + [a] && |History(threads, before).lens| == |before| + 1
    requires AllInCalls(threads, before, Run(threads, before), History(threads, before))
    ensures |History(threads, schedule).lens| == |schedule| + 1
    ensures AllInCalls(threads, schedule, Run(threads, schedule), History(threads, schedule))
  {
    var s, g := Run(threads, before), History(threads, before);
    assert schedule[..|schedule| - 1] == before;
    LastStep(threads, schedule);
    LensGrow(s, g, a);
    ThreadsStay(s, a);
    forall j: nat | j < |Run(threads, schedule).threads|
      ensures InThatCall(schedule, Run(threads, schedule), History(threads, schedule).tracks[j].called, Since(threads, schedule, j), j)
    {
      ThreadInCall(threads, before, a, schedule, j);
    }
  }

  lemma ThreadsStay(s: State, a: Action)
    ensures |Step(s, a).threads| == |s.threads|
  {
  }

  lemma ThreadInCall(threads: nat, before: seq<Action>, a: Action, schedule: seq<Action>, j: nat)
    requires schedule == before + [a] && |History(threads, before).lens| == |before| + 1 && j < |Run(threads, before).threads|
    requires InThatCall(before, Run(threads, before), History(threads, before).tracks[j].called, Since(threads, before, j), j)
    ensures j < |Run(threads, schedule).threads|
    ensures InThatCall(schedule, Run(threads, schedule), History(threads, schedule).tracks[j].called, Since(threads, schedule, j), j)
  {
    var s, g := Run(threads, before), History(threads, before);
    assert schedule[..|schedule| - 1] == before;
    LastStep(threads, schedule);
    if a.tid < |s.threads| {
      StepFollows(s, g, a);
      InCallStep(before, a, s, g, j, Since(threads, before, j), Since(threads, schedule, j));
    }
  }

  lemma LensGrow(s: State, g: Hist, a: Action)
    requires |g.tracks| == |s.threads| && g.lens != []
    ensures |Record(s, g, a).lens| == |g.lens| + 1
  {
  }

  lemma ListedStep(before: seq<Action>, a: Action, s: State, g: Hist, called: nat, calls: seq<Call>, calls': seq<Call>)
    requires |s.threads| == |g.tracks| && |g.lens| == |before| + 1 && Listed(g.done, calls)
    requires a.tid < |s.threads| ==> InThatCall(before, s, g.tracks[a.tid].called, called, a.tid)
    requires calls' == calls + if Inside(s, a.tid) && !Inside(Step(s, a), a.tid)
                               then [Call(a.tid, ReturnOf(before, called, s.threads[a.tid].pc), called, |before|)] else []
    ensures Listed(Record(s, g, a).done, calls')
  {
    if a.tid < |s.threads| { DoneStep(before, a, s, g, called); }
  }

  /** In every run the history lists exactly the calls that have returned, in the order of their
      returns, each with its thread, its argument or result, and the steps in which it was
      made and returned. */
  lemma {:induction false} HistoryIsCalls(threads: nat, schedule: seq<Action>)
    ensures Listed(History(threads, schedule).done, Calls(threads, schedule))
  {
    if schedule != [] {
      var before, a := schedule[..|schedule| - 1], schedule[|schedule| - 1];
      HistoryIsCalls(threads, before);
      RunInCalls(threads, before);
      LastStep(threads, schedule);
      ListedStep(before, a, Run(threads, before), History(threads, before), Since(threads, before, a.tid),
                 Calls(threads, before), Calls(threads, schedule));
    }
  }
}
