/** What is left unsent when a connection closes. A close is linked to the last write, and the
    worker does not write again whatever that write left over. */
module ConnClosing {
  import opened ByteRing
  import opened ConnProtocol
  import opened ConnInvariant
  import opened ConnSteps
  import opened ConnFrames
  import opened ConnTheorems
  import opened ConnProgress

  /** The bytes a result accounts for. */
  function Moved(res: int): nat {
    if res > 0 then res else 0
  }

  /** The entry before `n` is the write whose close is `n`. */
  ghost predicate WriteBefore(submitted: seq<Sqe>, n: nat) {
    0 < n <= |submitted| && submitted[n - 1].linked
  }

  /** A connection whose close is entry `n` has exactly what its linked write left over. */
  ghost predicate Rest(left: nat, n: nat, submitted: seq<Sqe>, answers: map<nat, int>) {
    if WriteBefore(submitted, n)
    then n - 1 in answers && left == submitted[n - 1].len - Moved(answers[n - 1])
    else left == 0
  }

  ghost predicate RestOk(c: Conn, submitted: seq<Sqe>, answers: map<nat, int>) {
    && (c.own.InClose? ==> Rest(|c.outbound.data|, c.own.idx, submitted, answers))
    && (c.own.Queued? && c.nextAsyncOp.CloseOp? ==> c.outbound.data == [])
  }

  ghost predicate AnswersOk(cq: seq<Cqe>, answers: map<nat, int>) {
    forall k :: 0 <= k < |cq| ==> cq[k].idx in answers && answers[cq[k].idx] == cq[k].res
  }

  ghost predicate AllRest(s: State) {
    AnswersOk(s.cq, s.answers) && forall f :: f in s.conns ==> RestOk(s.conns[f], s.submitted, s.answers)
  }

  // ---------------------------------------------------------------- frames

  /** Entries are only appended and results only added. */
  ghost predicate Grows(s: State, s': State) {
    s.submitted <= s'.submitted && s'.answers == s.answers && (s'.cq == s.cq || (s.cq != [] && s'.cq == s.cq[1..]))
  }

  ghost predicate Appends(s: State, s': State) {
    s.submitted <= s'.submitted && s'.answers == s.answers && s'.cq == s.cq
  }

  lemma RequestAppends(s: State, f: Fd, region: nat)
    requires Sound(s, f)
    ensures Appends(s, AddRead(s, f, region)) && Appends(s, AddWrite(s, f))
    ensures Appends(s, AddClose(s, f)) && Appends(s, AddWriteClose(s, f))
  {
  }

  lemma NextAppends(s: State, f: Fd, region: nat)
    requires Sound(s, f)
    ensures Appends(s, AddNext(s, f, region)) && Appends(s, AddAsync(s, f, region))
  {
    RequestAppends(s, f, region);
  }

  lemma AfterReadAppends(s: State, f: Fd, more: bool, env: Env)
    requires Sound(s, f)
    ensures Appends(s, AfterRead(s, f, more, env))
  {
    RequestAppends(s, f, env.region);
  }

  lemma ReadAppends(s: State, f: Fd, e: Cqe, env: Env)
    requires Sound(s, f)
    ensures Appends(s, HandleRead(s, f, e, env))
  {
    if e.res > 0 && |e.data| <= s.conns[f].inbound.Free() { AfterReadAppends(Fill(s, f, e.data), f, e.more, env); }
  }

  lemma HandleAppends(s: State, f: Fd, e: Cqe, kind: Kind, env: Env)
    requires Sound(s, f) && e.res >= 0
    ensures Appends(s, HandleConn(s, f, e, kind, env))
  {
    if s.conns[f].state.Reading? { ReadAppends(s, f, e, env); }
  }

  lemma DispatchGrows(s: State, env: Env)
    ensures Grows(s, Dispatch(s, env))
  {
    if s.cq != [] && s.worker.Ready? && s.cq[0].idx < |s.submitted| {
      var e := s.cq[0];
      var f := s.submitted[e.idx].fd;
      if Sound(s, f) && e.res >= 0 {
        HandleAppends(Settle(s.(cq := s.cq[1..]), f, e.idx), f, e, s.submitted[e.idx].kind, env);
      }
    }
  }

  lemma ReturnGrows(s: State, env: Env)
    ensures Grows(s, ReturnCallback(s, env))
  {
    if s.worker.Busy? && Sound(s, s.worker.fd) {
      NextAppends(Take(s.(worker := Ready), s.worker.fd, Nobody), s.worker.fd, env.region);
    }
  }

  lemma PopGrows(s: State, env: Env)
    ensures Grows(s, PopAsync(s, env))
  {
    if s.asyncOpQueue != [] && Sound(s, s.asyncOpQueue[0]) {
      NextAppends(Take(s.(asyncOpQueue := s.asyncOpQueue[1..]), s.asyncOpQueue[0], Nobody), s.asyncOpQueue[0], env.region);
    }
  }

  lemma OtherGrows(s: State, a: Action)
    requires !WorkerStep(a) && !a.AComplete?
    ensures Grows(s, Step(s, a))
  {
    match a {
      case AAccept(fd, inbound, outbound) => AcceptAppends(s, fd, inbound, outbound);
      case AStartTask(fd) => TaskAppends(s, fd);
      case AReturnTask(fd) => TaskAppends(s, fd);
      case AWrite(fd, bytes, region) => WriteAppends(s, fd, bytes, region);
      case ARead(fd, n) => UserReadAppends(s, fd, n);
      case AReadFrom(fd, chunks, junk, regions) => ReadFromAppends(s, fd, chunks, junk, regions);
      case AWriteTo(fd, n) => UserReadAppends(s, fd, n);
      case ADiscard(fd, n, _) => if n >= 0 { UserReadAppends(s, fd, n); }
      case AMisread(_, _, _) =>
      case AClose(_) =>
    }
  }

  lemma AcceptAppends(s: State, f: Fd, inbound: Region, outbound: Region)
    ensures Appends(s, AcceptConn(s, f, inbound, outbound))
  {
  }

  lemma TaskAppends(s: State, f: Fd)
    ensures Appends(s, StartTask(s, f)) && Appends(s, ReturnTask(s, f))
  {
  }

  lemma WriteAppends(s: State, f: Fd, bytes: seq<Byte>, region: nat)
    ensures Appends(s, UserWrite(s, f, bytes, region))
  {
  }

  lemma UserReadAppends(s: State, f: Fd, n: nat)
    ensures Appends(s, UserRead(s, f, n))
  {
  }

  lemma ReadFromAppends(s: State, f: Fd, chunks: seq<seq<Byte>>, junk: seq<Byte>, regions: seq<nat>)
    ensures Appends(s, UserReadFrom(s, f, chunks, junk, regions))
  {
  }

  lemma StepGrows(s: State, a: Action)
    requires !a.AComplete?
    ensures Grows(s, Step(s, a))
  {
    match a {
      case ADispatch(env) => DispatchGrows(s, env);
      case AReturn(env) => ReturnGrows(s, env);
      case APop(env) => PopGrows(s, env);
      case _ => OtherGrows(s, a);
    }
  }

  /** What was known stays known when entries are appended. */
  lemma RestStays(c: Conn, f: Fd, submitted: seq<Sqe>, inflight: set<nat>, answers: map<nat, int>, submitted': seq<Sqe>)
    requires ConnOk(c, f, submitted, inflight) && RestOk(c, submitted, answers) && submitted <= submitted'
    ensures RestOk(c, submitted', answers)
  {
  }

  // ---------------------------------------------------------------- the connection a step is about

  ghost predicate RestAfter(s: State, f: Fd) {
    f in s.conns ==> RestOk(s.conns[f], s.submitted, s.answers)
  }

  /** The last entry is never a linked one, so a close that follows it has no write before it. */
  lemma CloseRest(s: State, f: Fd)
    requires Sound(s, f) && LinkOk(s.submitted) && s.conns[f].outbound.data == []
    ensures RestAfter(AddClose(s, f), f)
  {
    assert forall n :: 0 <= n < |s.submitted| && s.submitted[n].linked ==> n + 1 < |s.submitted|;
  }

  lemma NextRest(s: State, f: Fd, region: nat)
    requires Sound(s, f) && LinkOk(s.submitted)
    ensures RestAfter(AddNext(s, f, region), f)
  {
    if s.conns[f].outbound.data == [] && s.conns[f].closed { CloseRest(s, f); }
  }

  lemma AsyncRest(s: State, f: Fd, region: nat)
    requires Sound(s, f) && LinkOk(s.submitted) && s.conns[f].own.Nobody?
    requires s.conns[f].nextAsyncOp.CloseOp? ==> s.conns[f].outbound.data == []
    ensures RestAfter(AddAsync(s, f, region), f)
  {
    if s.conns[f].nextAsyncOp.CloseOp? { CloseRest(s, f); }
  }

  lemma ReadRest(s: State, f: Fd, e: Cqe, env: Env)
    requires Sound(s, f) && s.conns[f].own.Nobody?
    ensures RestAfter(HandleRead(s, f, e, env), f)
  {
    if e.res > 0 && |e.data| <= s.conns[f].inbound.Free() { AfterReadRest(Fill(s, f, e.data), f, e.more, env); }
  }

  lemma AfterReadRest(s: State, f: Fd, more: bool, env: Env)
    requires Sound(s, f) && s.conns[f].own.Nobody?
    ensures RestAfter(AfterRead(s, f, more, env), f)
  {
  }

  /** The linked write has been answered, and the worker drops what it took. */
  lemma LastWriteRest(c: Conn, f: Fd, submitted: seq<Sqe>, inflight: set<nat>, answers: map<nat, int>, e: Cqe)
    requires ConnOk(c, f, submitted, inflight) && c.own == InSendClose(e.idx)
    requires e.idx in answers && answers[e.idx] == e.res && e.res <= |c.outbound.data|
    ensures RestOk(c.(own := InClose(e.idx + 1), outbound := Dropped(c.outbound, Moved(e.res))), submitted, answers)
  {
    assert EntryIs(submitted, e.idx, Sqe(Send, f, |c.outbound.data|, true));
  }

  /** The oldest completion and its connection, whose state is as given. */
  ghost predicate First(s: State, f: Fd, e: Cqe, c: Conn) {
    s.cq != [] && s.worker.Ready? && e == s.cq[0] && e.idx < |s.submitted| && e.res >= 0
    && s.submitted[e.idx].fd == f && Sound(s, f) && c == s.conns[f]
  }

  lemma ReadingRest(s: State, env: Env, f: Fd, e: Cqe, c: Conn)
    requires First(s, f, e, c) && c.state.Reading? && c.own == InRecv(e.idx)
    ensures RestAfter(Dispatch(s, env), f)
  {
    ReadRest(Settle(s.(cq := s.cq[1..]), f, e.idx), f, e, env);
  }

  lemma WritingRest(s: State, env: Env, f: Fd, e: Cqe, c: Conn)
    requires First(s, f, e, c) && c.state.Writing? && c.own == InSend(e.idx) && e.res <= |c.outbound.data|
    ensures RestAfter(Dispatch(s, env), f)
  {
    WriteShape(s.(cq := s.cq[1..]), f, e);
  }

  lemma ClosingRest(s: State, env: Env, f: Fd, e: Cqe, c: Conn)
    requires First(s, f, e, c) && c.state.Closing? && e.idx in s.answers && s.answers[e.idx] == e.res
    requires ConnOk(c, f, s.submitted, s.inflight)
    requires s.submitted[e.idx].kind.Close? || (s.submitted[e.idx].kind.Send? && c.own == InSendClose(e.idx))
    requires e.res <= |c.outbound.data| || s.submitted[e.idx].kind.Close?
    ensures RestAfter(Dispatch(s, env), f)
  {
    if s.submitted[e.idx].kind.Send? {
      LastWriteRest(c, f, s.submitted, s.inflight, s.answers, e);
      LastWriteShape(s.(cq := s.cq[1..]), f, e);
    }
  }

  lemma FailedRest(s: State, env: Env, f: Fd)
    requires s.cq != [] && s.worker.Ready? && s.cq[0].idx < |s.submitted| && s.cq[0].res < 0
    requires s.submitted[s.cq[0].idx].fd == f && Sound(s, f) && ConnOk(s.conns[f], f, s.submitted, s.inflight)
    requires RestOk(s.conns[f], s.submitted, s.answers) && AnswersOk(s.cq, s.answers)
    ensures RestAfter(Dispatch(s, env), f)
  {
    var e, c := s.cq[0], s.conns[f];
    if c.own == InSendClose(e.idx) {
      LastWriteRest(c, f, s.submitted, s.inflight, s.answers, e);
      assert Dropped(c.outbound, 0) == c.outbound;
    }
  }

  lemma DispatchRest(s: State, env: Env, f: Fd)
    requires Inv(s) && AllRest(s) && Touches(s, ADispatch(env), f)
    ensures RestAfter(Dispatch(s, env), f)
  {
    if s.worker.Ready? {
      FirstClaims(s);
      FirstAnswer(s);
      assert ConnOk(s.conns[f], f, s.submitted, s.inflight) && RestOk(s.conns[f], s.submitted, s.answers);
      if s.cq[0].res < 0 {
        FailedRest(s, env, f);
      } else {
        AnsweredRest(s, env, f);
      }
    }
  }

  lemma AnsweredRest(s: State, env: Env, f: Fd)
    requires Inv(s) && AnswersOk(s.cq, s.answers) && s.cq != [] && s.worker.Ready? && s.cq[0].res >= 0
    requires s.cq[0].idx < |s.submitted| && s.submitted[s.cq[0].idx].fd == f && f in s.conns
    ensures RestAfter(Dispatch(s, env), f)
  {
    FirstFits(s);
    assert ConnOk(s.conns[f], f, s.submitted, s.inflight);
    match s.conns[f].state {
      case Reading =>
        ReadFacts(s);
        ReadingRest(s, env, f, s.cq[0], s.conns[f]);
      case Writing =>
        WriteOwner(s);
        WritingRest(s, env, f, s.cq[0], s.conns[f]);
      case Closing => ClosingRest(s, env, f, s.cq[0], s.conns[f]);
    }
  }

  lemma ReturnRest(s: State, env: Env, f: Fd)
    requires Inv(s) && AllRest(s) && Touches(s, AReturn(env), f)
    ensures RestAfter(ReturnCallback(s, env), f)
  {
    BusyOwner(s);
    assert RestOk(s.conns[f], s.submitted, s.answers);
    ReturnedRest(s, env, f);
  }

  lemma ReturnedRest(s: State, env: Env, f: Fd)
    requires s.worker.Busy? && s.worker.fd == f && Sound(s, f) && LinkOk(s.submitted) && RestAfter(s, f)
    ensures RestAfter(ReturnCallback(s, env), f)
  {
    if !s.worker.event.OnLastWrite? && env.sqe { NextRest(Take(s.(worker := Ready), f, Nobody), f, env.region); }
  }

  lemma PopRest(s: State, env: Env, f: Fd)
    requires Inv(s) && AllRest(s) && Touches(s, APop(env), f)
    ensures RestAfter(PopAsync(s, env), f)
  {
    FromQueue(s);
    SoundOf(s, f);
    assert RestOk(s.conns[f], s.submitted, s.answers);
    PoppedRest(s, env, f);
  }

  lemma PoppedRest(s: State, env: Env, f: Fd)
    requires s.asyncOpQueue != [] && s.asyncOpQueue[0] == f && Sound(s, f) && LinkOk(s.submitted) && RestAfter(s, f)
    requires s.conns[f].own.Queued?
    ensures RestAfter(PopAsync(s, env), f)
  {
    if s.worker.Ready? && env.sqe { AsyncRest(Take(s.(asyncOpQueue := s.asyncOpQueue[1..]), f, Nobody), f, env.region); }
  }

  /** User calls do not reach a connection that is closed. */
  lemma OtherRest(s: State, a: Action, f: Fd)
    requires !WorkerStep(a) && !a.AComplete? && Touches(s, a, f) && RestAfter(s, f)
    requires f in s.conns ==> Sound(s, f) && OwnOk(s.conns[f], f, s.submitted)
    ensures RestAfter(Step(s, a), f)
  {
    if UserCall(a) { UserAlike(s, a, f); }
  }

  // ---------------------------------------------------------------- every step

  lemma GrownRest(s: State, a: Action, f: Fd)
    requires Inv(s) && AllRest(s) && !a.AComplete? && !Touches(s, a, f)
    ensures RestAfter(Step(s, a), f)
  {
    StepSame(s, a, f);
    StepGrows(s, a);
    if f in s.conns {
      assert ConnOk(s.conns[f], f, s.submitted, s.inflight) && RestOk(s.conns[f], s.submitted, s.answers);
      RestStays(s.conns[f], f, s.submitted, s.inflight, s.answers, Step(s, a).submitted);
    }
  }

  lemma TouchedRest(s: State, a: Action, f: Fd)
    requires Inv(s) && AllRest(s) && !a.AComplete? && Touches(s, a, f)
    ensures RestAfter(Step(s, a), f)
  {
    if a.ADispatch? {
      DispatchRest(s, a.env, f);
    } else if a.AReturn? {
      ReturnRest(s, a.env, f);
    } else if a.APop? {
      PopRest(s, a.env, f);
    } else {
      if f in s.conns { assert ConnOk(s.conns[f], f, s.submitted, s.inflight); }
      OtherRest(s, a, f);
    }
  }

  lemma StepRest(s: State, a: Action)
    requires Inv(s) && AllRest(s)
    ensures AllRest(Step(s, a))
  {
    if a.AComplete? {
      if Allowed(s, a.idx, a.res, a.data) { CompleteRest(s, a.idx, a.res, a.data, a.more); }
    } else {
      StepGrows(s, a);
      forall f | f in Step(s, a).conns
        ensures RestOk(Step(s, a).conns[f], Step(s, a).submitted, Step(s, a).answers)
      {
        if Touches(s, a, f) { TouchedRest(s, a, f); } else { GrownRest(s, a, f); }
      }
    }
  }

  /** A new answer is not about the write of a connection that waits for its close. */
  lemma CompleteRest(s: State, idx: nat, res: int, data: seq<Byte>, more: bool)
    requires Inv(s) && AllRest(s) && Allowed(s, idx, res, data)
    ensures AllRest(Complete(s, idx, res, data, more))
  {
    forall f | f in s.conns && s.conns[f].own.InClose?
      ensures Rest(|s.conns[f].outbound.data|, s.conns[f].own.idx, s.submitted, s.answers[idx := res])
    {
      assert RestOk(s.conns[f], s.submitted, s.answers);
      WriteWasAnswered(s, f, idx);
    }
    CompletedRest(s, idx, res, data, more);
  }

  lemma WriteWasAnswered(s: State, f: Fd, idx: nat)
    requires ConnsOk(s.conns, s.submitted, s.inflight) && OutOk(OwnersOf(s.conns), s.submitted, s.inflight, s.cq)
    requires LinkOk(s.submitted) && f in s.conns && s.conns[f].own.InClose? && idx in s.inflight
    ensures !(WriteBefore(s.submitted, s.conns[f].own.idx) && idx == s.conns[f].own.idx - 1)
  {
    var n := s.conns[f].own.idx;
    assert ConnOk(s.conns[f], f, s.submitted, s.inflight);
    assert Claimed(OwnersOf(s.conns), s.submitted, idx);
    if WriteBefore(s.submitted, n) { assert s.submitted[n - 1].fd == f; }
  }

  lemma CompletedRest(s: State, idx: nat, res: int, data: seq<Byte>, more: bool)
    requires Allowed(s, idx, res, data) && AllRest(s) && idx !in set k | 0 <= k < |s.cq| :: s.cq[k].idx
    requires forall f :: f in s.conns && s.conns[f].own.InClose? ==>
               Rest(|s.conns[f].outbound.data|, s.conns[f].own.idx, s.submitted, s.answers[idx := res])
    ensures AllRest(Complete(s, idx, res, data, more))
  {
    assert forall f :: f in s.conns ==> RestOk(s.conns[f], s.submitted, s.answers);
  }

  // ---------------------------------------------------------------- every run

  lemma {:induction false} RunRest(async: bool, page: nat, schedule: seq<Action>)
    requires page > 0
    ensures AllRest(Run(async, page, schedule))
  {
    if schedule != [] {
      RunRest(async, page, schedule[..|schedule| - 1]);
      RunInv(async, page, schedule[..|schedule| - 1]);
      StepRest(Run(async, page, schedule[..|schedule| - 1]), schedule[|schedule| - 1]);
    }
  }

  /** The next completion is that of the close of `fd`. */
  ghost predicate Closes(s: State, fd: Fd) {
    s.cq != [] && s.cq[0].idx < |s.submitted| && s.submitted[s.cq[0].idx].fd == fd && s.submitted[s.cq[0].idx].kind.Close?
  }

  /** All that was written has been sent exactly if close `n` has no write before it or that
      write moved all its bytes. */
  ghost predicate SentAllIff(c: Conn, n: nat, submitted: seq<Sqe>, answers: map<nat, int>) {
    && c.written == c.sent + c.outbound.data
    && (c.sent == c.written <==>
          (WriteBefore(submitted, n) ==> n - 1 in answers && Moved(answers[n - 1]) == submitted[n - 1].len))
  }

  /** The worker sees the completion of a close, and releases the connection. What a short or
      failed last write leaves over is dropped. */
  lemma SentAllExactlyIf(async: bool, page: nat, schedule: seq<Action>, fd: Fd)
    requires page > 0 && Orderly(async, page, schedule, fd) && Closes(Run(async, page, schedule), fd)
    ensures var s := Run(async, page, schedule);
            fd in s.conns && SentAllIff(s.conns[fd], s.cq[0].idx, s.submitted, s.answers)
  {
    RunInv(async, page, schedule);
    RunRest(async, page, schedule);
    CloseOwner(Run(async, page, schedule), fd);
    OrderlyIsUnspoiled(async, page, schedule, fd);
    CloseOf(Run(async, page, schedule), fd);
  }

  lemma CloseOwner(s: State, fd: Fd)
    requires Inv(s) && Closes(s, fd)
    ensures fd in s.conns && s.conns[fd].own == InClose(s.cq[0].idx)
  {
    FirstAnswer(s);
  }

  lemma CloseOf(s: State, fd: Fd)
    requires Inv(s) && AllRest(s) && s.cq != [] && fd in s.conns && !s.conns[fd].spoiled
    requires s.conns[fd].own == InClose(s.cq[0].idx)
    ensures SentAllIff(s.conns[fd], s.cq[0].idx, s.submitted, s.answers)
  {
    assert RestOk(s.conns[fd], s.submitted, s.answers) && ConnOk(s.conns[fd], fd, s.submitted, s.inflight);
    SentAll(s.conns[fd], fd, s.submitted, s.inflight, s.answers);
  }

  lemma SentAll(c: Conn, fd: Fd, submitted: seq<Sqe>, inflight: set<nat>, answers: map<nat, int>)
    requires ConnOk(c, fd, submitted, inflight) && RestOk(c, submitted, answers) && c.own.InClose? && !c.spoiled
    ensures SentAllIff(c, c.own.idx, submitted, answers)
  {
    FlowFacts(c);
    assert c.sent == c.written <==> |c.outbound.data| == 0;
  }
}
