/** Which connections a worker loses: exactly those of which an entry failed, or for which no
    entry could be obtained when nothing else was responsible for them. */
module ConnProgress {
  import opened ByteRing
  import opened ConnProtocol
  import opened ConnInvariant
  import opened ConnSteps
  import opened ConnFrames
  import opened ConnTheorems

  /** Registered, and nobody will ever look at it again. */
  ghost predicate Orphan(s: State, fd: Fd) {
    fd in s.conns && s.conns[fd].own.Nobody?
  }

  /** Step `a` loses connection `fd`: the worker sees the failure of an entry of it that has no
      linked close to follow (worker.go:84-95), or cannot obtain an entry for a new connection
      (consumer_worker.go:151-154) or for one from the asynchronous queue
      (read_write_worker.go:63-69). */
  predicate Loses(s: State, a: Action, fd: Fd) {
    match a
    case ADispatch(_) =>
      && s.worker.Ready? && s.cq != [] && s.cq[0].idx < |s.submitted| && s.cq[0].res < 0
      && s.submitted[s.cq[0].idx].fd == fd && !s.submitted[s.cq[0].idx].linked
    case AReturn(env) => !env.sqe && s.worker == Busy(fd, OnAccept)
    case APop(env) => !env.sqe && s.worker.Ready? && s.asyncOpQueue != [] && s.asyncOpQueue[0] == fd
    case _ => false
  }

  // ---------------------------------------------------------------- what the handlers leave behind

  /** Registered and owned, or released. */
  ghost predicate Cared(s: State, f: Fd) {
    f in s.conns ==> !s.conns[f].own.Nobody?
  }

  lemma NextCares(s: State, f: Fd, region: nat)
    requires Sound(s, f)
    ensures Cared(AddNext(s, f, region), f)
  {
  }

  lemma AsyncCares(s: State, f: Fd, region: nat)
    requires Sound(s, f) && !s.conns[f].nextAsyncOp.NoOp?
    ensures Cared(AddAsync(s, f, region), f)
  {
  }

  lemma ReadCares(s: State, f: Fd, e: Cqe, env: Env)
    requires Sound(s, f) && |e.data| <= s.conns[f].inbound.Free()
    ensures Cared(HandleRead(s, f, e, env), f)
  {
    if e.res > 0 {
      var s1 := Fill(s, f, e.data);
      assert Sound(s1, f) && Cared(AfterRead(s1, f, e.more, env), f);
    }
  }

  lemma FlushCares(s: State, f: Fd, res: nat, event: Event)
    requires Sound(s, f) && res <= |s.conns[f].outbound.data| && (event.OnWrite? || !s.conns[f].own.Nobody?)
    ensures Cared(Flush(s, f, res, event), f)
  {
  }

  /** The oldest completion fits its connection. */
  ghost predicate Fits(s: State)
    requires s.cq != []
  {
    var e := s.cq[0];
    && e.idx < |s.submitted| && e.res >= 0
    && var q := s.submitted[e.idx];
       && Sound(s, q.fd)
       && var c := s.conns[q.fd];
          match c.state
          case Reading => |e.data| <= c.inbound.Free()
          case Writing => e.res <= |c.outbound.data|
          case Closing => q.kind.Close? || (q.kind.Send? && c.own == InSendClose(e.idx) && e.res <= |c.outbound.data|)
          case Invalid => false
  }

  lemma FirstFits(s: State)
    requires Inv(s) && s.cq != [] && s.cq[0].res >= 0 && s.worker.Ready?
    ensures Fits(s)
  {
    StateByKind(s);
    FirstAnswer(s);
    var q := s.submitted[s.cq[0].idx];
    if s.conns[q.fd].state.Reading? { ReadFacts(s); }
    if q.kind.Send? { FlushedInv(s, q.fd, s.cq[0]); }
    if q.kind.Send? && s.conns[q.fd].state.Closing? { LastWriteOwner(s); }
  }

  lemma DispatchCares(s: State, env: Env)
    requires s.cq != [] && s.worker.Ready? && Fits(s)
    ensures Cared(Dispatch(s, env), s.submitted[s.cq[0].idx].fd)
  {
    var e := s.cq[0];
    var q := s.submitted[e.idx];
    var s1 := Settle(s.(cq := s.cq[1..]), q.fd, e.idx);
    match s.conns[q.fd].state {
      case Reading => ReadCares(s1, q.fd, e, env);
      case Writing => FlushCares(s1, q.fd, e.res, OnWrite);
      case Closing => if q.kind.Send? { FlushCares(s1, q.fd, e.res, OnLastWrite); }
    }
  }

  // ---------------------------------------------------------------- the worker's steps

  lemma DispatchLoses(s: State, env: Env, fd: Fd)
    requires Inv(s) && Touches(s, ADispatch(env), fd)
    ensures !Orphan(s, fd) && (Orphan(Dispatch(s, env), fd) <==> Loses(s, ADispatch(env), fd))
  {
    FirstClaims(s);
    if s.worker.Ready? {
      if s.cq[0].res >= 0 {
        FirstFits(s);
        DispatchCares(s, env);
      } else {
        FailureLoses(s, env);
      }
    }
  }

  /** The oldest completion is of an entry its connection answers for. */
  lemma FirstClaims(s: State)
    requires Inv(s) && s.cq != []
    ensures s.cq[0].idx < |s.submitted|
    ensures var f := s.submitted[s.cq[0].idx].fd; Sound(s, f) && s.cq[0].idx in Claims(s.conns[f].own)
  {
    assert Claimed(OwnersOf(s.conns), s.submitted, s.cq[0].idx);
    SoundOf(s, s.submitted[s.cq[0].idx].fd);
  }

  /** A failed entry leaves its connection without owner unless it is linked to a close. */
  lemma FailureLoses(s: State, env: Env)
    requires Inv(s) && s.cq != [] && s.worker.Ready? && s.cq[0].res < 0
    ensures s.cq[0].idx < |s.submitted|
    ensures var q := s.submitted[s.cq[0].idx]; Orphan(Dispatch(s, env), q.fd) <==> !q.linked
  {
    FirstClaims(s);
    FirstAnswer(s);
    var n := s.cq[0].idx;
    var f := s.submitted[n].fd;
    OwnerByKind(s, n);
    assert ConnOk(s.conns[f], f, s.submitted, s.inflight);
    FailureShape(s, env);
  }

  lemma FailureShape(s: State, env: Env)
    requires s.cq != [] && s.worker.Ready? && s.cq[0].res < 0 && s.cq[0].idx < |s.submitted|
    requires Sound(s, s.submitted[s.cq[0].idx].fd)
    ensures var f := s.submitted[s.cq[0].idx].fd;
            f in Dispatch(s, env).conns && Dispatch(s, env).conns[f].own == Answered(s.conns[f].own, s.cq[0].idx)
  {
  }

  lemma ReturnLoses(s: State, env: Env, fd: Fd)
    requires Inv(s) && Touches(s, AReturn(env), fd)
    ensures !Orphan(s, fd) && (Orphan(ReturnCallback(s, env), fd) <==> Loses(s, AReturn(env), fd))
  {
    BusyOwner(s);
    SoundOf(s, fd);
    ReturnCares(s, env);
  }

  lemma ReturnCares(s: State, env: Env)
    requires s.worker.Busy? && Sound(s, s.worker.fd) && !s.conns[s.worker.fd].own.Nobody?
    ensures Orphan(ReturnCallback(s, env), s.worker.fd) <==> !env.sqe && s.worker.event.OnAccept?
  {
    var f := s.worker.fd;
    var s1 := Take(s.(worker := Ready), f, Nobody);
    if env.sqe && !s.worker.event.OnLastWrite? { NextCares(s1, f, env.region); }
  }

  lemma PopLoses(s: State, env: Env, fd: Fd)
    requires Inv(s) && Touches(s, APop(env), fd)
    ensures !Orphan(s, fd) && (Orphan(PopAsync(s, env), fd) <==> Loses(s, APop(env), fd))
  {
    FromQueue(s);
    SoundOf(s, fd);
    assert ConnOk(s.conns[fd], fd, s.submitted, s.inflight);
    PopCares(s, env);
  }

  lemma PopCares(s: State, env: Env)
    requires s.asyncOpQueue != [] && Sound(s, s.asyncOpQueue[0])
    requires var c := s.conns[s.asyncOpQueue[0]]; c.own.Queued? && !c.nextAsyncOp.NoOp?
    ensures Orphan(PopAsync(s, env), s.asyncOpQueue[0]) <==> !env.sqe && s.worker.Ready?
  {
    var f := s.asyncOpQueue[0];
    var s1 := Take(s.(asyncOpQueue := s.asyncOpQueue[1..]), f, Nobody);
    if env.sqe && s.worker.Ready? { AsyncCares(s1, f, env.region); }
  }

  // ---------------------------------------------------------------- every step

  /** The other steps change no owner but that of a returning task. */
  lemma OtherOwner(s: State, a: Action, fd: Fd)
    requires !WorkerStep(a) && Touches(s, a, fd) && (fd in s.tasks && fd in s.conns ==> s.conns[fd].own.Task?)
    ensures Orphan(Step(s, a), fd) <==> Orphan(s, fd)
  {
    if UserCall(a) { UserAlike(s, a, fd); }
  }

  lemma OrphanStep(s: State, a: Action, fd: Fd)
    requires Inv(s)
    ensures Orphan(Step(s, a), fd) <==> Orphan(s, fd) || Loses(s, a, fd)
  {
    if !Touches(s, a, fd) {
      StepSame(s, a, fd);
    } else {
      match a {
        case ADispatch(env) => DispatchLoses(s, env, fd);
        case AReturn(env) => ReturnLoses(s, env, fd);
        case APop(env) => PopLoses(s, env, fd);
        case _ => OtherLoses(s, a, fd);
      }
    }
  }

  lemma OtherLoses(s: State, a: Action, fd: Fd)
    requires TokensOk(OwnersOf(s.conns), s.worker, s.tasks, s.asyncOpQueue) && !WorkerStep(a) && Touches(s, a, fd)
    ensures Orphan(Step(s, a), fd) <==> Orphan(s, fd)
  {
    if fd in s.tasks { TokenTaskToQueue(OwnersOf(s.conns), s.worker, s.tasks, s.asyncOpQueue, fd); }
    OtherOwner(s, a, fd);
  }

  /** Some step of the run loses the connection of `fd`. */
  ghost predicate Lost(async: bool, page: nat, schedule: seq<Action>, fd: Fd) {
    && schedule != []
    && var before, a := schedule[..|schedule| - 1], schedule[|schedule| - 1];
       Lost(async, page, before, fd) || Loses(Run(async, page, before), a, fd)
  }

  lemma OrphanNext(async: bool, page: nat, schedule: seq<Action>, fd: Fd)
    requires page > 0 && schedule != []
    ensures var s, a := Run(async, page, schedule[..|schedule| - 1]), schedule[|schedule| - 1];
            Orphan(Run(async, page, schedule), fd) <==> Orphan(s, fd) || Loses(s, a, fd)
  {
    RunInv(async, page, schedule[..|schedule| - 1]);
    OrphanStep(Run(async, page, schedule[..|schedule| - 1]), schedule[|schedule| - 1], fd);
  }

  lemma {:induction false} OrphanRun(async: bool, page: nat, schedule: seq<Action>, fd: Fd)
    requires page > 0
    ensures Orphan(Run(async, page, schedule), fd) <==> Lost(async, page, schedule, fd)
  {
    if schedule != [] {
      OrphanRun(async, page, schedule[..|schedule| - 1], fd);
      OrphanNext(async, page, schedule, fd);
    }
  }

  /** In every run a connection is registered but in nobody's hands, in no handler or queue
      entry and with no entry outstanding, exactly if a step has lost it. Together with
      `OneOwner`: any other registered connection has exactly one owner. */
  lemma NeverLost(async: bool, page: nat, schedule: seq<Action>, fd: Fd)
    requires page > 0
    ensures var s := Run(async, page, schedule);
            (fd in s.conns && Holders(s, fd) == 0 && forall n :: !Outstanding(s, fd, n)) <==> Lost(async, page, schedule, fd)
  {
    OrphanRun(async, page, schedule, fd);
    RunInv(async, page, schedule);
    if fd in Run(async, page, schedule).conns { Ownerless(Run(async, page, schedule), fd); }
  }

  lemma Ownerless(s: State, fd: Fd)
    requires Inv(s) && fd in s.conns
    ensures s.conns[fd].own.Nobody? <==> Holders(s, fd) == 0 && forall n :: !Outstanding(s, fd, n)
  {
    var o := s.conns[fd].own;
    assert OwnersOf(s.conns)[fd] == o;
    if Claims(o) != {} {
      ClaimIsOutstanding(s, fd, o.idx);
    } else {
      forall n | Outstanding(s, fd, n) ensures false { OutstandingIsClaimed(s, fd, n); }
      HoldersByOwner(OwnersOf(s.conns), s, fd);
    }
  }

  lemma HoldersByOwner(owners: Owners, s: State, fd: Fd)
    requires TokensOk(owners, s.worker, s.tasks, s.asyncOpQueue) && fd in owners && Claims(owners[fd]) == {}
    ensures Holders(s, fd) == 0 <==> owners[fd].Nobody?
  {
  }
}
