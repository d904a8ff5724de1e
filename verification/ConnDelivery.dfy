/** What the worker makes of a completion: the bytes received reach the handler, the bytes sent
    leave the buffer, the end of the stream and a completed close release the connection. */
module ConnDelivery {
  import opened ByteRing
  import opened ConnProtocol
  import opened ConnInvariant
  import opened ConnSteps
  import opened ConnFrames
  import opened ConnTheorems
  import opened ConnProgress
  import opened ConnResponses

  ghost predicate SameHandlers(s: State, s': State) {
    s'.worker == s.worker && s'.tasks == s.tasks && s'.asyncOpQueue == s.asyncOpQueue
  }

  /** The handler runs, alone and with the bytes behind what was there before. */
  ghost predicate Delivers(s: State, s': State, fd: Fd, data: seq<Byte>) {
    && Quiet(s, s', fd) && Holders(s', fd) == 1
    && s'.conns[fd].inbound.data == s.conns[fd].inbound.data + data && s'.conns[fd].outbound == s.conns[fd].outbound
    && if s.async then fd in s'.tasks && s'.worker == Ready
       else s'.worker == Busy(fd, OnRead) && s'.conns[fd].mode.UserSpace?
  }

  /** The socket has more: one more receive, and no handler yet. */
  ghost predicate ReadsOn(s: State, s': State, fd: Fd, data: seq<Byte>) {
    && fd in s.conns && fd in s'.conns && s'.closes == s.closes && Holders(s', fd) == 0
    && s'.conns[fd].inbound.data == s.conns[fd].inbound.data + data && s'.conns[fd].outbound == s.conns[fd].outbound
    && s'.conns[fd].inbound.Free() >= MIN_READ
    && s'.submitted == s.submitted + [Sqe(Recv, fd, s'.conns[fd].inbound.Free(), false)]
  }

  /** What was sent leaves the buffer, and the handler is told. */
  ghost predicate Flushes(s: State, s': State, fd: Fd, res: int, event: Event) {
    && Quiet(s, s', fd) && 0 <= res <= |s.conns[fd].outbound.data|
    && s'.conns[fd].outbound.data == s.conns[fd].outbound.data[res..] && s'.conns[fd].inbound == s.conns[fd].inbound
    && s'.worker == Busy(fd, event) && s'.conns[fd].mode.UserSpace?
  }

  ghost predicate Ignores(s: State, s': State, fd: Fd) {
    && Quiet(s, s', fd) && SameHandlers(s, s')
    && s'.conns[fd].inbound == s.conns[fd].inbound && s'.conns[fd].outbound == s.conns[fd].outbound
  }

  ghost predicate Gone(s: State, s': State, fd: Fd) {
    Releases(s, s', fd) && SameHandlers(s, s')
  }

  ghost predicate ReceiveHandled(s: State, s': State, env: Env, fd: Fd, e: Cqe) {
    && fd in s.conns
    && if e.res == 0 then Gone(s, s', fd)
       else if !e.more || s.conns[fd].closed then Delivers(s, s', fd, e.data)
       else if env.sqe then ReadsOn(s, s', fd, e.data)
       else Gone(s, s', fd)
  }

  /** The oldest completion has been handled. */
  ghost predicate Handled(s: State, s': State, env: Env) {
    && s.cq != [] && s.cq[0].idx < |s.submitted| && s'.cq == s.cq[1..]
    && var e, q := s.cq[0], s.submitted[s.cq[0].idx];
       if e.res < 0 then Ignores(s, s', q.fd)
       else match q.kind
            case Recv => ReceiveHandled(s, s', env, q.fd, e)
            case Send => Flushes(s, s', q.fd, e.res, if q.linked then OnLastWrite else OnWrite)
            case Close => Gone(s, s', q.fd)
  }

  // ---------------------------------------------------------------- what the oldest completion finds

  /** The connection of a completion, in nobody's hands, has the state its kind calls for. */
  ghost predicate Awaits(s: State, fd: Fd, e: Cqe, q: Sqe) {
    && Sound(s, fd) && Holders(s, fd) == 0
    && (e.res >= 0 ==>
          var c := s.conns[fd];
          match q.kind
          case Recv => c.state.Reading? && |e.data| == e.res <= c.inbound.Free()
          case Send => e.res <= |c.outbound.data| && if q.linked then c.state.Closing? else c.state.Writing?
          case Close => c.state.Closing?)
  }

  lemma FirstAwaited(s: State)
    requires Inv(s) && s.cq != [] && s.worker.Ready?
    ensures s.cq[0].idx < |s.submitted|
    ensures Awaits(s, s.submitted[s.cq[0].idx].fd, s.cq[0], s.submitted[s.cq[0].idx])
  {
    FirstClaims(s);
    StateByKind(s);
    NoHolders(s);
    if s.cq[0].res >= 0 { FirstByKind(s); }
  }

  lemma NoHolders(s: State)
    requires Inv(s) && s.cq != []
    ensures s.cq[0].idx < |s.submitted| && Holders(s, s.submitted[s.cq[0].idx].fd) == 0
  {
    FirstClaims(s);
    var n := s.cq[0].idx;
    HoldersOf(OwnersOf(s.conns), s, s.submitted[n].fd);
  }

  lemma FirstByKind(s: State)
    requires Inv(s) && s.cq != [] && s.worker.Ready? && s.cq[0].res >= 0
    ensures s.cq[0].idx < |s.submitted|
    ensures var e, q := s.cq[0], s.submitted[s.cq[0].idx];
            && q.fd in s.conns
            && var c := s.conns[q.fd];
               match q.kind
               case Recv => c.state.Reading? && |e.data| == e.res <= c.inbound.Free()
               case Send => e.res <= |c.outbound.data| && if q.linked then c.state.Closing? else c.state.Writing?
               case Close => c.state.Closing?
  {
    assert Claimed(OwnersOf(s.conns), s.submitted, s.cq[0].idx);
    OwnerByKind(s, s.cq[0].idx);
    KindFacts(s, s.submitted[s.cq[0].idx].fd, s.cq[0]);
  }

  lemma KindFacts(s: State, fd: Fd, e: Cqe)
    requires ConnsOk(s.conns, s.submitted, s.inflight) && RepliesOk(s.conns, s.submitted, s.cq)
    requires s.cq != [] && e == s.cq[0] && e.res >= 0 && e.idx < |s.submitted| && s.submitted[e.idx].fd == fd && fd in s.conns
    requires var o := s.conns[fd].own;
             match s.submitted[e.idx].kind
             case Recv => o == InRecv(e.idx)
             case Send => o == InSend(e.idx) || o == InSendClose(e.idx)
             case Close => o == InClose(e.idx) || (e.idx > 0 && o == InSendClose(e.idx - 1))
    ensures var c, q := s.conns[fd], s.submitted[e.idx];
            match q.kind
            case Recv => c.state.Reading? && |e.data| == e.res <= c.inbound.Free()
            case Send => e.res <= |c.outbound.data| && if q.linked then c.state.Closing? else c.state.Writing?
            case Close => c.state.Closing?
  {
    assert ReplyOk(s.conns, s.submitted, e) && ConnOk(s.conns[fd], fd, s.submitted, s.inflight);
  }

  // ---------------------------------------------------------------- the step

  lemma AfterReadHandled(s: State, fd: Fd, more: bool, env: Env)
    requires Sound(s, fd) && s.worker.Ready? && Holders(s, fd) == 0
    ensures var s' := AfterRead(s, fd, more, env);
            if !more || s.conns[fd].closed then Delivers(s, s', fd, [])
            else if env.sqe then ReadsOn(s, s', fd, [])
            else Gone(s, s', fd)
  {
    assert s.conns[fd].inbound.data + [] == s.conns[fd].inbound.data;
    if (!more || s.conns[fd].closed) && s.async { assert (s.tasks + multiset{fd})[fd] == s.tasks[fd] + 1; }
  }

  lemma ReadHandled(s: State, fd: Fd, e: Cqe, env: Env)
    requires Sound(s, fd) && s.worker.Ready? && Holders(s, fd) == 0 && |e.data| == e.res <= s.conns[fd].inbound.Free()
    ensures ReceiveHandled(s, HandleRead(s, fd, e, env), env, fd, e)
  {
    if e.res > 0 { AfterReadHandled(Fill(s, fd, e.data), fd, e.more, env); }
  }

  /** Taking the completion off the queue changes nothing else that matters. */
  lemma SettledAlike(s: State, s1: State, s': State, env: Env, fd: Fd, e: Cqe, kind: Kind, event: Event)
    requires s.cq != [] && fd in s.conns && s1 == Settle(s.(cq := s.cq[1..]), fd, e.idx)
    ensures ReceiveHandled(s1, s', env, fd, e) ==> ReceiveHandled(s, s', env, fd, e)
    ensures Flushes(s1, s', fd, e.res, event) ==> Flushes(s, s', fd, e.res, event)
    ensures Gone(s1, s', fd) ==> Gone(s, s', fd)
  {
  }

  lemma DispatchHandled(s: State, env: Env, fd: Fd, e: Cqe, q: Sqe)
    requires s.cq != [] && s.worker.Ready? && e == s.cq[0] && e.idx < |s.submitted| && q == s.submitted[e.idx] && q.fd == fd
    requires Awaits(s, fd, e, q) && e.res >= 0
    ensures Handled(s, Dispatch(s, env), env)
  {
    var s1 := Settle(s.(cq := s.cq[1..]), fd, e.idx);
    AnsweredShape(s, env);
    SettledAlike(s, s1, Dispatch(s, env), env, fd, e, q.kind, if q.linked then OnLastWrite else OnWrite);
    match q.kind {
      case Recv =>
        ReadHandled(s1, fd, e, env);
        ReadKeepsQueue(s1, fd, e, env);
      case Send =>
      case Close =>
    }
  }

  lemma ReadKeepsQueue(s: State, fd: Fd, e: Cqe, env: Env)
    requires Sound(s, fd)
    ensures HandleRead(s, fd, e, env).cq == s.cq
  {
    if e.res > 0 && |e.data| <= s.conns[fd].inbound.Free() { AfterReadKeepsQueue(Fill(s, fd, e.data), fd, e.more, env); }
  }

  lemma AfterReadKeepsQueue(s: State, fd: Fd, more: bool, env: Env)
    requires Sound(s, fd)
    ensures AfterRead(s, fd, more, env).cq == s.cq
  {
  }

  lemma FailureIgnored(s: State, env: Env)
    requires s.cq != [] && s.worker.Ready? && s.cq[0].res < 0 && s.cq[0].idx < |s.submitted|
    requires Sound(s, s.submitted[s.cq[0].idx].fd)
    ensures Handled(s, Dispatch(s, env), env)
  {
  }

  /** In every run, the oldest completion: what was received is at the end of the inbound data and
      in the hands of the handler, unless the socket has more and the connection is open: then
      another receive follows. What was sent is gone from the outbound data and the handler is
      called. An end of stream or a completed close releases the connection. A failure changes
      nothing. */
  lemma DispatchResponds(async: bool, page: nat, schedule: seq<Action>, env: Env)
    requires page > 0 && Run(async, page, schedule).cq != [] && Run(async, page, schedule).worker.Ready?
    ensures var s := Run(async, page, schedule); Handled(s, Step(s, ADispatch(env)), env)
  {
    RunInv(async, page, schedule);
    DispatchStep(Run(async, page, schedule), env);
  }

  lemma DispatchStep(s: State, env: Env)
    requires Inv(s) && s.cq != [] && s.worker.Ready?
    ensures Handled(s, Step(s, ADispatch(env)), env)
  {
    FirstAwaited(s);
    if s.cq[0].res < 0 {
      FailureIgnored(s, env);
    } else {
      DispatchHandled(s, env, s.submitted[s.cq[0].idx].fd, s.cq[0], s.submitted[s.cq[0].idx]);
    }
  }

  // ---------------------------------------------------------------- reading only when nothing is left to send

  /** A connection that waits for bytes has none to send. */
  ghost predicate Flushed(s: State, fd: Fd) {
    fd in s.conns && s.conns[fd].own.InRecv? ==> s.conns[fd].outbound.data == []
  }

  /** No handler runs in a goroutine. */
  predicate Synchronous(s: State) {
    !s.async && s.tasks == multiset{} && s.asyncOpQueue == []
  }

  lemma NextSynchronous(s: State, fd: Fd, region: nat)
    requires Sound(s, fd) && Synchronous(s)
    ensures Synchronous(AddNext(s, fd, region)) && Flushed(AddNext(s, fd, region), fd)
  {
  }

  lemma AfterReadSynchronous(s: State, fd: Fd, more: bool, env: Env)
    requires Sound(s, fd) && Synchronous(s)
    ensures Synchronous(AfterRead(s, fd, more, env))
    ensures s.conns[fd].outbound.data == [] ==> Flushed(AfterRead(s, fd, more, env), fd)
  {
  }

  lemma ReadSynchronous(s: State, fd: Fd, e: Cqe, env: Env)
    requires Sound(s, fd) && Synchronous(s) && s.conns[fd].outbound.data == []
    ensures Synchronous(HandleRead(s, fd, e, env)) && Flushed(HandleRead(s, fd, e, env), fd)
  {
    if e.res > 0 && |e.data| <= s.conns[fd].inbound.Free() { AfterReadSynchronous(Fill(s, fd, e.data), fd, e.more, env); }
  }

  lemma HandleSynchronous(s: State, fd: Fd, e: Cqe, kind: Kind, env: Env)
    requires Sound(s, fd) && e.res >= 0 && Synchronous(s) && !s.conns[fd].own.InRecv?
    requires s.conns[fd].state.Reading? ==> s.conns[fd].outbound.data == []
    ensures Synchronous(HandleConn(s, fd, e, kind, env)) && Flushed(HandleConn(s, fd, e, kind, env), fd)
  {
    if s.conns[fd].state.Reading? { ReadSynchronous(s, fd, e, env); }
  }

  lemma DispatchSynchronous(s: State, env: Env, fd: Fd)
    requires Inv(s) && Synchronous(s) && s.cq != [] && s.cq[0].idx < |s.submitted| && s.submitted[s.cq[0].idx].fd == fd
    requires Flushed(s, fd)
    ensures Synchronous(Dispatch(s, env)) && Flushed(Dispatch(s, env), fd)
  {
    if s.worker.Ready? {
      FirstAwaited(s);
      FirstAnswer(s);
      AnsweredOwner(s, fd);
      Dispatching(s, env, fd, s.cq[0]);
    }
  }

  lemma AnsweredOwner(s: State, fd: Fd)
    requires Inv(s) && s.cq != [] && s.cq[0].idx < |s.submitted| && s.submitted[s.cq[0].idx].fd == fd && fd in s.conns
    ensures !Answered(s.conns[fd].own, s.cq[0].idx).InRecv?
    ensures s.conns[fd].state.Reading? ==> s.conns[fd].own.InRecv?
  {
    assert Claimed(OwnersOf(s.conns), s.submitted, s.cq[0].idx);
    OwnerByKind(s, s.cq[0].idx);
    assert ConnOk(s.conns[fd], fd, s.submitted, s.inflight);
  }

  lemma Dispatching(s: State, env: Env, fd: Fd, e: Cqe)
    requires Synchronous(s) && s.cq != [] && s.worker.Ready? && e == s.cq[0] && e.idx < |s.submitted| && s.submitted[e.idx].fd == fd
    requires Sound(s, fd) && Flushed(s, fd) && !Answered(s.conns[fd].own, e.idx).InRecv?
    requires s.conns[fd].state.Reading? ==> s.conns[fd].own.InRecv?
    ensures Synchronous(Dispatch(s, env)) && Flushed(Dispatch(s, env), fd)
  {
    if e.res >= 0 { HandleSynchronous(Settle(s.(cq := s.cq[1..]), fd, e.idx), fd, e, s.submitted[e.idx].kind, env); }
  }

  lemma ReturnSynchronous(s: State, env: Env)
    requires s.worker.Busy? && Sound(s, s.worker.fd) && Synchronous(s) && Flushed(s, s.worker.fd)
    ensures Synchronous(ReturnCallback(s, env)) && Flushed(ReturnCallback(s, env), s.worker.fd)
  {
    if !s.worker.event.OnLastWrite? && env.sqe {
      NextSynchronous(Take(s.(worker := Ready), s.worker.fd, Nobody), s.worker.fd, env.region);
    }
  }

  lemma WorkerSynchronous(s: State, a: Action)
    requires Inv(s) && WorkerStep(a) && Synchronous(s) && forall fd :: Flushed(s, fd)
    ensures Synchronous(Step(s, a)) && forall fd :: Touches(s, a, fd) ==> Flushed(Step(s, a), fd)
  {
    if a.ADispatch? {
      if s.cq != [] {
        FirstClaims(s);
        DispatchSynchronous(s, a.env, s.submitted[s.cq[0].idx].fd);
      }
    } else if a.AReturn? {
      if s.worker.Busy? {
        BusyOwner(s);
        ReturnSynchronous(s, a.env);
      }
    }
  }

  /** The other steps leave the rings of a waiting connection alone. */
  lemma OtherSynchronous(s: State, a: Action, fd: Fd)
    requires !WorkerStep(a) && Synchronous(s) && Touches(s, a, fd) && Flushed(s, fd)
    requires fd in s.conns && s.conns[fd].own.InRecv? ==> s.conns[fd].mode.KernelSpace?
    ensures Flushed(Step(s, a), fd)
  {
    if UserCall(a) { UserAlike(s, a, fd); }
  }

  lemma OtherHandlers(s: State, a: Action)
    requires !WorkerStep(a) && Synchronous(s)
    ensures Synchronous(Step(s, a))
  {
    match a {
      case AAccept(_, _, _) =>
      case AComplete(_, _, _, _) =>
      case AStartTask(_) =>
      case AReturnTask(_) =>
      case _ => UserHandlers(s, a);
    }
  }

  lemma UserHandlers(s: State, a: Action)
    requires UserCall(a)
    ensures Step(s, a).async == s.async && SameHandlers(s, Step(s, a))
  {
    match a {
      case AWrite(_, _, _) =>
      case ARead(_, _) =>
      case AReadFrom(fd, chunks, junk, regions) => ReadFromHandlers(s, fd, chunks, junk, regions);
      case AWriteTo(fd, n) => ReadHandlers(s, fd, n);
      case ADiscard(fd, n, _) => if n >= 0 { ReadHandlers(s, fd, n); }
      case AMisread(_, _, _) =>
      case AClose(_) =>
    }
  }

  lemma ReadHandlers(s: State, fd: Fd, n: nat)
    ensures UserRead(s, fd, n).async == s.async && SameHandlers(s, UserRead(s, fd, n))
  {
  }

  lemma ReadFromHandlers(s: State, fd: Fd, chunks: seq<seq<Byte>>, junk: seq<Byte>, regions: seq<nat>)
    ensures UserReadFrom(s, fd, chunks, junk, regions).async == s.async
    ensures SameHandlers(s, UserReadFrom(s, fd, chunks, junk, regions))
  {
  }

  lemma StepSynchronous(s: State, a: Action)
    requires Inv(s) && Synchronous(s) && forall fd :: Flushed(s, fd)
    ensures Synchronous(Step(s, a))
  {
    if WorkerStep(a) { WorkerSynchronous(s, a); } else { OtherHandlers(s, a); }
  }

  lemma StepFlushed(s: State, a: Action, fd: Fd)
    requires Inv(s) && Synchronous(s) && forall f :: Flushed(s, f)
    ensures Flushed(Step(s, a), fd)
  {
    if !Touches(s, a, fd) {
      StepSame(s, a, fd);
    } else if WorkerStep(a) {
      WorkerSynchronous(s, a);
    } else {
      TouchedSynchronous(s, a, fd);
    }
  }

  lemma TouchedSynchronous(s: State, a: Action, fd: Fd)
    requires ConnsOk(s.conns, s.submitted, s.inflight) && !WorkerStep(a) && Synchronous(s) && Touches(s, a, fd) && Flushed(s, fd)
    ensures Flushed(Step(s, a), fd)
  {
    if fd in s.conns { assert ConnOk(s.conns[fd], fd, s.submitted, s.inflight); }
    OtherSynchronous(s, a, fd);
  }

  lemma {:induction false} RunSynchronous(page: nat, schedule: seq<Action>)
    requires page > 0
    ensures Synchronous(Run(false, page, schedule)) && forall fd :: Flushed(Run(false, page, schedule), fd)
  {
    if schedule != [] {
      RunSynchronous(page, schedule[..|schedule| - 1]);
      RunInv(false, page, schedule[..|schedule| - 1]);
      var s, a := Run(false, page, schedule[..|schedule| - 1]), schedule[|schedule| - 1];
      StepSynchronous(s, a);
      forall fd ensures Flushed(Step(s, a), fd) { StepFlushed(s, a, fd); }
    }
  }

  /** In every run with synchronous handlers, while a receive of a connection is outstanding
      nothing waits to be sent on it: no reply is held back by a read. */
  lemma ReadsOnlyWhenFlushed(page: nat, schedule: seq<Action>, fd: Fd, n: nat)
    requires page > 0 && Outstanding(Run(false, page, schedule), fd, n)
    requires Run(false, page, schedule).submitted[n].kind.Recv?
    ensures var s := Run(false, page, schedule); fd in s.conns && s.conns[fd].outbound.data == []
  {
    RunInv(false, page, schedule);
    RunSynchronous(page, schedule);
    Waiting(Run(false, page, schedule), fd, n);
    assert Flushed(Run(false, page, schedule), fd);
  }

  lemma Waiting(s: State, fd: Fd, n: nat)
    requires Inv(s) && Outstanding(s, fd, n) && s.submitted[n].kind.Recv?
    ensures fd in s.conns && s.conns[fd].own == InRecv(n)
  {
    assert Claimed(OwnersOf(s.conns), s.submitted, n);
    OwnerByKind(s, n);
  }
}
