/** What a step of the connection protocol leaves alone. */
module ConnFrames {
  import opened ByteRing
  import opened ConnProtocol

  /** A ring is put out of order only by a region of another size. */
  ghost predicate Later(c: Conn, c': Conn) {
    c.regions <= c'.regions && (c'.spoiled ==> c.spoiled || !Exact(c'.regions))
  }

  lemma ExactPrefix(regions: seq<Region>, regions': seq<Region>)
    requires regions <= regions' && Exact(regions')
    ensures Exact(regions)
  {
    assert forall k :: 0 <= k < |regions| ==> regions[k] == regions'[k];
  }

  lemma ObtainLater(c: Conn, regions: seq<Region>)
    ensures Later(c, Obtain(c, regions))
  {
    var c' := Obtain(c, regions);
    if Exact(c'.regions) { assert forall g :: g in regions ==> g in c'.regions; }
  }

  /** Nothing but the connection of `f` changes, and that is a later one or is released. */
  ghost predicate Only(s: State, s': State, f: Fd) {
    && s'.page == s.page
    && (forall g :: g != f && g in s'.conns ==> g in s.conns)
    && (forall g :: g != f && g in s.conns ==> g in s'.conns && s'.conns[g] == s.conns[g])
    && (f in s'.conns ==> f in s.conns && Later(s.conns[f], s'.conns[f]))
  }

  lemma Then(s: State, s1: State, s2: State, f: Fd)
    requires Only(s, s1, f) && Only(s1, s2, f)
    ensures Only(s, s2, f)
  {
    if f in s2.conns && Exact(s2.conns[f].regions) { ExactPrefix(s1.conns[f].regions, s2.conns[f].regions); }
  }

  lemma OnlyPut(s: State, f: Fd, c: Conn)
    requires f in s.conns && Later(s.conns[f], c)
    ensures Only(s, Put(s, f, c), f)
  {
  }

  // ---------------------------------------------------------------- requests

  lemma OnlyNext(s: State, f: Fd, region: nat)
    requires Sound(s, f)
    ensures Only(s, AddNext(s, f, region), f)
  {
    if s.conns[f].outbound.data == [] && !s.conns[f].closed { OnlyAddRead(s, f, region); }
  }

  lemma OnlyAsync(s: State, f: Fd, region: nat)
    requires Sound(s, f)
    ensures Only(s, AddAsync(s, f, region), f)
  {
    match s.conns[f].nextAsyncOp {
      case ReadOp => OnlyAddRead(s, f, region);
      case WriteOp => OnlyAddWrite(s, f);
      case _ =>
    }
  }

  lemma OnlyAddRead(s: State, f: Fd, region: nat)
    requires Sound(s, f)
    ensures Only(s, AddRead(s, f, region), f)
  {
    ObtainLater(s.conns[f], Answers(RoomyAsks(s.conns[f].inbound, s.page), [region]));
  }

  lemma OnlyAddWrite(s: State, f: Fd)
    requires Sound(s, f)
    ensures Only(s, AddWrite(s, f), f) && Only(s, AddWriteClose(s, f), f)
  {
  }

  lemma OnlyClose(s: State, f: Fd)
    requires f in s.conns
    ensures Only(s, CloseConn(s, f), f)
  {
  }

  // ---------------------------------------------------------------- completions

  lemma OnlyAfterRead(s: State, f: Fd, more: bool, env: Env)
    requires Sound(s, f)
    ensures Only(s, AfterRead(s, f, more, env), f)
  {
    OnlyClose(s, f);
    OnlyAddRead(s, f, env.region);
  }

  lemma OnlyRead(s: State, f: Fd, e: Cqe, env: Env)
    requires Sound(s, f)
    ensures Only(s, HandleRead(s, f, e, env), f)
  {
    OnlyClose(s, f);
    if e.res > 0 && |e.data| <= s.conns[f].inbound.Free() {
      var s1 := Fill(s, f, e.data);
      OnlyPut(s, f, s1.conns[f]);
      OnlyAfterRead(s1, f, e.more, env);
      Then(s, s1, AfterRead(s1, f, e.more, env), f);
    }
  }

  lemma OnlyFlush(s: State, f: Fd, res: nat, event: Event)
    requires Sound(s, f)
    ensures Only(s, Flush(s, f, res, event), f)
  {
  }

  lemma OnlyHandle(s: State, f: Fd, e: Cqe, kind: Kind, env: Env)
    requires Sound(s, f) && e.res >= 0
    ensures Only(s, HandleConn(s, f, e, kind, env), f)
  {
    match s.conns[f].state {
      case Reading => OnlyRead(s, f, e, env);
      case Writing => OnlyFlush(s, f, e.res, OnWrite);
      case Closing => if kind.Close? { OnlyClose(s, f); } else { OnlyFlush(s, f, e.res, OnLastWrite); }
      case Invalid =>
    }
  }

  lemma OnlyDispatch(s: State, env: Env)
    requires s.cq != [] && s.cq[0].idx < |s.submitted|
    ensures Only(s, Dispatch(s, env), s.submitted[s.cq[0].idx].fd)
  {
    var e := s.cq[0];
    var f := s.submitted[e.idx].fd;
    var s' := s.(cq := s.cq[1..]);
    if s.worker.Ready? && Sound(s, f) {
      var s1 := Settle(s', f, e.idx);
      OnlyPut(s', f, s1.conns[f]);
      if e.res >= 0 {
        OnlyHandle(s1, f, e, s.submitted[e.idx].kind, env);
        Then(s', s1, HandleConn(s1, f, e, s.submitted[e.idx].kind, env), f);
      }
    }
  }

  // ---------------------------------------------------------------- handlers

  lemma OnlyAfterEvent(s: State, f: Fd, event: Event, env: Env)
    requires Sound(s, f)
    ensures Only(s, AfterEvent(s, f, event, env), f)
  {
    if env.sqe { OnlyNext(s, f, env.region); } else { OnlyClose(s, f); }
  }

  lemma OnlyReturn(s: State, env: Env)
    requires s.worker.Busy?
    ensures Only(s, ReturnCallback(s, env), s.worker.fd)
  {
    var f := s.worker.fd;
    if Sound(s, f) && !s.worker.event.OnLastWrite? {
      var s1 := Take(s.(worker := Ready), f, Nobody);
      OnlyPut(s, f, s1.conns[f]);
      OnlyAfterEvent(s1, f, s.worker.event, env);
      Then(s, s1, AfterEvent(s1, f, s.worker.event, env), f);
    }
  }

  lemma OnlyPop(s: State, env: Env)
    requires s.asyncOpQueue != []
    ensures Only(s, PopAsync(s, env), s.asyncOpQueue[0])
  {
    var f := s.asyncOpQueue[0];
    if Sound(s, f) {
      var s1 := Take(s.(asyncOpQueue := s.asyncOpQueue[1..]), f, Nobody);
      OnlyPut(s, f, s1.conns[f]);
      OnlyAsync(s1, f, env.region);
      Then(s, s1, AddAsync(s1, f, env.region), f);
    }
  }

  // ---------------------------------------------------------------- every step

  /** Step `a` is about the connection of `f`. */
  ghost predicate Touches(s: State, a: Action, f: Fd) {
    match a
    case AComplete(idx, _, _, _) => idx < |s.submitted| && s.submitted[idx].fd == f
    case ADispatch(_) => s.cq != [] && s.cq[0].idx < |s.submitted| && s.submitted[s.cq[0].idx].fd == f
    case AReturn(_) => s.worker.Busy? && s.worker.fd == f
    case APop(_) => s.asyncOpQueue != [] && s.asyncOpQueue[0] == f
    case _ => a.fd == f
  }

  ghost predicate Same(s: State, s': State, f: Fd) {
    (f in s'.conns <==> f in s.conns) && (f in s.conns ==> s'.conns[f] == s.conns[f])
  }

  ghost predicate WorkerStep(a: Action) {
    a.ADispatch? || a.AReturn? || a.APop?
  }

  lemma WorkerSame(s: State, a: Action, f: Fd)
    requires WorkerStep(a) && !Touches(s, a, f)
    ensures Same(s, Step(s, a), f)
  {
    match a {
      case ADispatch(env) => if s.cq != [] && s.cq[0].idx < |s.submitted| { OnlyDispatch(s, env); }
      case AReturn(env) => if s.worker.Busy? { OnlyReturn(s, env); }
      case APop(env) => if s.asyncOpQueue != [] { OnlyPop(s, env); }
    }
  }

  lemma UserSame(s: State, a: Action, f: Fd)
    requires UserCall(a) && !Touches(s, a, f)
    ensures Same(s, Step(s, a), f)
  {
    match a {
      case AWrite(_, _, _) =>
      case ARead(_, _) =>
      case AReadFrom(fd, chunks, junk, regions) => ReadFromSame(s, fd, chunks, junk, regions, f);
      case AWriteTo(fd, n) => ReadSame(s, fd, n, f);
      case ADiscard(fd, n, _) => if n >= 0 { ReadSame(s, fd, n, f); }
      case AMisread(_, _, _) =>
      case AClose(_) =>
    }
  }

  lemma ReadSame(s: State, fd: Fd, n: nat, f: Fd)
    requires f != fd
    ensures Same(s, UserRead(s, fd, n), f)
  {
  }

  lemma ReadFromSame(s: State, fd: Fd, chunks: seq<seq<Byte>>, junk: seq<Byte>, regions: seq<nat>, f: Fd)
    requires f != fd
    ensures Same(s, UserReadFrom(s, fd, chunks, junk, regions), f)
  {
  }

  ghost predicate UserCall(a: Action) {
    a.AWrite? || a.ARead? || a.AReadFrom? || a.AWriteTo? || a.ADiscard? || a.AMisread? || a.AClose?
  }

  /** What a user call on `f` leaves alone: who has the connection and, unless such a call is
      allowed, its rings. */
  ghost predicate Alike(s: State, s': State, f: Fd) {
    && (f in s'.conns <==> f in s.conns)
    && (f in s.conns ==>
          && s'.conns[f].own == s.conns[f].own && s'.conns[f].nextAsyncOp == s.conns[f].nextAsyncOp
          && (UserOpAllowed(s.conns[f]) ||
              (s'.conns[f].inbound == s.conns[f].inbound && s'.conns[f].outbound == s.conns[f].outbound)))
  }

  lemma ReadAlike(s: State, f: Fd, n: nat)
    ensures Alike(s, UserRead(s, f, n), f)
  {
  }

  lemma ReadFromAlike(s: State, f: Fd, chunks: seq<seq<Byte>>, junk: seq<Byte>, regions: seq<nat>)
    ensures Alike(s, UserReadFrom(s, f, chunks, junk, regions), f)
  {
  }

  lemma UserAlike(s: State, a: Action, f: Fd)
    requires UserCall(a) && a.fd == f
    ensures Alike(s, Step(s, a), f)
  {
    match a {
      case AWrite(_, _, _) =>
      case ARead(_, n) => ReadAlike(s, f, n);
      case AReadFrom(_, chunks, junk, regions) => ReadFromAlike(s, f, chunks, junk, regions);
      case AWriteTo(_, n) => ReadAlike(s, f, n);
      case ADiscard(_, n, _) => if n >= 0 { ReadAlike(s, f, n); }
      case AMisread(_, _, _) =>
      case AClose(_) =>
    }
  }

  lemma OtherSame(s: State, a: Action, f: Fd)
    requires (a.AAccept? || a.AComplete? || a.AStartTask? || a.AReturnTask?) && !Touches(s, a, f)
    ensures Same(s, Step(s, a), f)
  {
  }

  /** A step leaves the connections alone that it is not about. */
  lemma StepSame(s: State, a: Action, f: Fd)
    requires !Touches(s, a, f)
    ensures Same(s, Step(s, a), f)
  {
    if WorkerStep(a) {
      WorkerSame(s, a, f);
    } else if a.AAccept? || a.AComplete? || a.AStartTask? || a.AReturnTask? {
      OtherSame(s, a, f);
    } else {
      UserSame(s, a, f);
    }
  }

  lemma StepPage(s: State, a: Action)
    ensures Step(s, a).page == s.page
  {
    match a {
      case ADispatch(env) => if s.cq != [] && s.cq[0].idx < |s.submitted| { OnlyDispatch(s, env); }
      case AReturn(env) => if s.worker.Busy? { OnlyReturn(s, env); }
      case APop(env) => if s.asyncOpQueue != [] { OnlyPop(s, env); }
      case _ =>
    }
  }
}
