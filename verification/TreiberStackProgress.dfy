/** No call on the stack waits for another thread: from every reachable state a thread that runs
    alone returns within 6 steps. */
module TreiberStackProgress {
  import opened TreiberStack
  import opened TreiberStackTheorems
  import opened TreiberStackCalls

  /** The steps a pop needs from the beginning. */
  function PopSteps(s: State): nat {
    if s.top.Nil? then 1 else 4
  }

  /** A bound on the steps a thread at `pc` still needs alone; what it has seen may be stale. */
  function Rank(s: State, pc: Pc): (n: nat)
    ensures n <= 6
  {
    match pc
    case PushLoad(_) => 4
    case PushStore(_, seen) => if seen == s.top then 3 else 6
    case PushCas(_, seen) => if seen == s.top then 2 else 5
    case PushDone(_) => 1
    case PopLoad => PopSteps(s)
    case PopNext(node) => if s.top == To(node) then 3 else 2 + PopSteps(s)
    case PopCas(node, _) => if s.top == To(node) then 2 else 1 + PopSteps(s)
    case PopDone(_) => 1
    case Idle => 0
  }

  lemma Sinks(s: State, i: nat)
    requires Inside(s, i)
    ensures |Execute(s, i).threads| == |s.threads| && Rank(s, s.threads[i]) > 0
    ensures Rank(Execute(s, i), Execute(s, i).threads[i]) < Rank(s, s.threads[i])
  {
  }

  function Ticks(i: nat, n: nat): seq<Action> {
    seq(n, _ => Tick(i))
  }

  lemma OneTick(threads: nat, schedule: seq<Action>, i: nat)
    ensures Run(threads, schedule + [Tick(i)]) == Step(Run(threads, schedule), Tick(i))
  {
    assert (schedule + [Tick(i)])[..|schedule|] == schedule;
  }

  lemma TicksFollow(schedule: seq<Action>, i: nat, n: nat)
    ensures schedule + [Tick(i)] + Ticks(i, n) == schedule + Ticks(i, n + 1)
  {
  }

  /** After every run, thread `i` alone finishes the call it is in, in at most 6 steps. */
  lemma ReturnsAlone(threads: nat, schedule: seq<Action>, i: nat) returns (n: nat)
    requires Inside(Run(threads, schedule), i)
    ensures 0 < n <= Rank(Run(threads, schedule), Run(threads, schedule).threads[i]) <= 6
    ensures !Inside(Run(threads, schedule + Ticks(i, n)), i)
    decreases Rank(Run(threads, schedule), Run(threads, schedule).threads[i])
  {
    var s := Run(threads, schedule);
    Sinks(s, i);
    OneTick(threads, schedule, i);
    if Inside(Execute(s, i), i) {
      n := ReturnsAlone(threads, schedule + [Tick(i)], i);
      TicksFollow(schedule, i, n);
      n := n + 1;
    } else {
      n := 1;
      assert Ticks(i, 1) == [Tick(i)];
    }
  }

  /** A call of an idle thread begins at once. */
  lemma CallsBegin(threads: nat, schedule: seq<Action>, i: nat, v: int)
    requires i < |Run(threads, schedule).threads| && Run(threads, schedule).threads[i].Idle?
    ensures var s := Run(threads, schedule);
            Inside(Step(s, CallPush(i, v)), i) && Inside(Step(s, CallPop(i)), i)
  {
  }
}
