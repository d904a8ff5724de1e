/** The sequential FIFO queue, as a language of operation histories.

    A history is a sequence of operations tagged with the thread that performed
    them. `Replay` runs a history on an initially empty queue; it is `Illegal`
    as soon as an operation returns something a FIFO queue would not return. */
module QueueSpec {

  datatype Op = Enq(v: int) | Deq(v: int) | DeqEmpty

  datatype Entry = Entry(tid: nat, op: Op)

  datatype Outcome = Illegal | Legal(q: seq<int>)

  function Apply(o: Outcome, op: Op): Outcome {
    match o
    case Illegal => Illegal
    case Legal(q) =>
      match op
      case Enq(v) => Legal(q + [v])
      case Deq(v) => if q != [] && q[0] == v then Legal(q[1..]) else Illegal
      case DeqEmpty => if q == [] then Legal([]) else Illegal
  }

  function Replay(log: seq<Entry>): Outcome {
    if log == [] then Legal([])
    else Apply(Replay(log[..|log| - 1]), log[|log| - 1].op)
  }

  lemma ReplayAppend(log: seq<Entry>, e: Entry)
    ensures Replay(log + [e]) == Apply(Replay(log), e.op)
  {
    assert (log + [e])[..|log|] == log;
  }

  /** A call that has returned: invoked at time `called`, returned at time `returned`;
      `at` is the place in the log where it took effect. */
  datatype Done = Done(tid: nat, op: Op, called: nat, at: nat, returned: nat)

  /** `lens[c]` is the length of the log at time `c`. The call took effect between its
      invocation and its return: at a log entry of its own, or, for an empty dequeue,
      at a point where the queue was empty. */
  ghost predicate Justified(log: seq<Entry>, lens: seq<nat>, d: Done) {
    && d.called <= d.returned < |lens|
    && lens[d.called] <= d.at <= lens[d.returned] <= |log|
    && if d.op.DeqEmpty? then Replay(log[..d.at]) == Legal([])
       else d.at < lens[d.returned] && log[d.at] == Entry(d.tid, d.op)
  }

  /** The empty dequeues placed before log entry `k`, in the order they returned. */
  function EmptiesAt(done: seq<Done>, k: nat): seq<Entry> {
    if done == [] then []
    else
      var d := done[|done| - 1];
      EmptiesAt(done[..|done| - 1], k) + if d.op.DeqEmpty? && d.at == k then [Entry(d.tid, d.op)] else []
  }

  /** The linearization: the log with every empty dequeue inserted where it took effect. */
  function Weave(log: seq<Entry>, done: seq<Done>, k: nat): seq<Entry>
    requires k <= |log|
  {
    (if k == 0 then [] else Weave(log, done, k - 1) + [log[k - 1]]) + EmptiesAt(done, k)
  }

  lemma {:induction false} ReplayEmpties(pre: seq<Entry>, done: seq<Done>, k: nat)
    requires forall d :: d in done && d.op.DeqEmpty? && d.at == k ==> Replay(pre) == Legal([])
    ensures Replay(pre + EmptiesAt(done, k)) == Replay(pre)
  {
    if done == [] {
      assert pre + [] == pre;
    } else {
      var n := |done| - 1;
      ReplayEmpties(pre, done[..n], k);
      var before := pre + EmptiesAt(done[..n], k);
      if done[n].op.DeqEmpty? && done[n].at == k {
        assert done[n] in done;
        ReplayAppend(before, Entry(done[n].tid, done[n].op));
        assert pre + EmptiesAt(done, k) == before + [Entry(done[n].tid, done[n].op)];
      } else {
        assert pre + EmptiesAt(done, k) == before;
      }
    }
  }

  /** Inserting justified empty dequeues keeps the history legal and its result unchanged. */
  lemma {:induction false} WeaveIsLegal(log: seq<Entry>, lens: seq<nat>, done: seq<Done>, k: nat)
    requires k <= |log|
    requires forall d :: d in done ==> Justified(log, lens, d)
    ensures Replay(Weave(log, done, k)) == Replay(log[..k])
  {
    var pre := if k == 0 then [] else Weave(log, done, k - 1) + [log[k - 1]];
    if k > 0 {
      WeaveIsLegal(log, lens, done, k - 1);
      ReplayAppend(Weave(log, done, k - 1), log[k - 1]);
      assert log[..k] == log[..k - 1] + [log[k - 1]];
      ReplayAppend(log[..k - 1], log[k - 1]);
    }
    ReplayEmpties(pre, done, k);
  }

  /** The empty dequeues that took effect before the log had more than `k` entries. */
  function Empties(done: seq<Done>, k: nat): seq<Entry> {
    if done == [] then []
    else
      var d := done[|done| - 1];
      Empties(done[..|done| - 1], k) + if d.op.DeqEmpty? && d.at <= k then [Entry(d.tid, d.op)] else []
  }

  /** How often `e` occurs. */
  function Times(es: seq<Entry>, e: Entry): nat {
    if es == [] then 0 else Times(es[..|es| - 1], e) + if es[|es| - 1] == e then 1 else 0
  }

  lemma {:induction false} TimesJoin(a: seq<Entry>, b: seq<Entry>, e: Entry)
    ensures Times(a + b, e) == Times(a, e) + Times(b, e)
    decreases b
  {
    if b == [] {
      assert a + b == a;
    } else {
      assert (a + b)[..|a + b| - 1] == a + b[..|b| - 1];
      TimesJoin(a, b[..|b| - 1], e);
    }
  }

  lemma {:induction false} EmptiesNext(done: seq<Done>, k: nat, e: Entry)
    ensures Times(Empties(done, k), e) == (if k == 0 then 0 else Times(Empties(done, k - 1), e)) + Times(EmptiesAt(done, k), e)
  {
    if done != [] {
      var rest, d := done[..|done| - 1], done[|done| - 1];
      var x := Entry(d.tid, d.op);
      EmptiesNext(rest, k, e);
      TimesJoin(Empties(rest, k), if d.op.DeqEmpty? && d.at <= k then [x] else [], e);
      TimesJoin(EmptiesAt(rest, k), if d.op.DeqEmpty? && d.at == k then [x] else [], e);
      if k > 0 { TimesJoin(Empties(rest, k - 1), if d.op.DeqEmpty? && d.at <= k - 1 then [x] else [], e); }
    }
  }

  /** It consists of the log and of every empty dequeue, each once. */
  lemma {:induction false} WeaveHasAll(log: seq<Entry>, done: seq<Done>, k: nat, e: Entry)
    requires k <= |log|
    ensures Times(Weave(log, done, k), e) == Times(log[..k], e) + Times(Empties(done, k), e)
  {
    EmptiesNext(done, k, e);
    if k == 0 {
      assert Weave(log, done, k) == EmptiesAt(done, k);
    } else {
      WeaveHasAll(log, done, k - 1, e);
      TimesJoin(Weave(log, done, k - 1) + [log[k - 1]], EmptiesAt(done, k), e);
      TimesJoin(Weave(log, done, k - 1), [log[k - 1]], e);
      assert log[..k] == log[..k - 1] + [log[k - 1]];
      TimesJoin(log[..k - 1], [log[k - 1]], e);
    }
  }

  function Enqueued(log: seq<Entry>): seq<int> {
    if log == [] then []
    else
      var e := log[|log| - 1];
      Enqueued(log[..|log| - 1]) + if e.op.Enq? then [e.op.v] else []
  }

  function Dequeued(log: seq<Entry>): seq<int> {
    if log == [] then []
    else
      var e := log[|log| - 1];
      Dequeued(log[..|log| - 1]) + if e.op.Deq? then [e.op.v] else []
  }

  /** What was taken out, followed by what is still queued, is what was put in, in order. */
  lemma {:induction false} LegalIsFifo(log: seq<Entry>)
    requires Replay(log).Legal?
    ensures Enqueued(log) == Dequeued(log) + Replay(log).q
  {
    if log != [] {
      LegalIsFifo(log[..|log| - 1]);
    }
  }
}
