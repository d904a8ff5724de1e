/** What holds in every run of a stream worker, with synchronous or asynchronous handlers. */
module ConnTheorems {
  import opened ByteRing
  import opened ConnProtocol
  import opened ConnInvariant
  import opened ConnSteps
  import opened ConnFrames

  lemma {:induction false} RunInv(async: bool, page: nat, schedule: seq<Action>)
    requires page > 0
    ensures Inv(Run(async, page, schedule))
  {
    if schedule == [] {
      InitInv(async, page);
    } else {
      RunInv(async, page, schedule[..|schedule| - 1]);
      StepInv(Run(async, page, schedule[..|schedule| - 1]), schedule[|schedule| - 1]);
    }
  }

  /** Entry `n` was submitted for `fd` and the worker has not seen its completion. */
  ghost predicate Outstanding(s: State, fd: Fd, n: nat) {
    EntryOf(s.submitted, n, fd) && (n in s.inflight || Answering(s.cq, n))
  }

  /** The handlers and queue entries a connection is in, the callback for the last write of a
      closing connection aside. */
  ghost function Holders(s: State, fd: Fd): nat {
    s.tasks[fd] + multiset(s.asyncOpQueue)[fd]
    + if s.worker.Busy? && s.worker.fd == fd && !s.worker.event.OnLastWrite? then 1 else 0
  }

  /** Entries `n` and `m` are a write and the close linked to it. */
  ghost predicate WriteAndClose(s: State, n: nat, m: nat) {
    m == n + 1 && m < |s.submitted| && s.submitted[n].kind.Send? && s.submitted[n].linked && s.submitted[m].kind.Close?
  }

  lemma OutstandingIsClaimed(s: State, fd: Fd, n: nat)
    requires Inv(s) && Outstanding(s, fd, n)
    ensures fd in s.conns && n in Claims(s.conns[fd].own)
  {
    assert Claimed(OwnersOf(s.conns), s.submitted, n);
  }

  /** In every reachable state a connection is in at most one place: in one handler or queue
      entry and then with no entry outstanding, or with one entry outstanding, or with a
      write and its linked close. A descriptor that is not registered is nowhere. While the
      callback for the last write runs, only the close is outstanding. */
  lemma OneOwner(async: bool, page: nat, schedule: seq<Action>, fd: Fd)
    requires page > 0
    ensures var s := Run(async, page, schedule);
            && Holders(s, fd) <= 1
            && (Holders(s, fd) == 1 ==> fd in s.conns && forall n :: !Outstanding(s, fd, n))
            && (forall n, m :: Outstanding(s, fd, n) && Outstanding(s, fd, m) && n < m ==> WriteAndClose(s, n, m))
            && (fd !in s.conns ==> Holders(s, fd) == 0 && forall n :: !Outstanding(s, fd, n))
            && (s.worker == Busy(fd, OnLastWrite) ==> forall n: nat :: Outstanding(s, fd, n) ==> s.submitted[n].kind.Close?)
  {
    RunInv(async, page, schedule);
    OwnerOf(Run(async, page, schedule), fd);
  }

  lemma OwnerOf(s: State, fd: Fd)
    requires Inv(s)
    ensures Holders(s, fd) <= 1
    ensures Holders(s, fd) == 1 ==> fd in s.conns && forall n :: !Outstanding(s, fd, n)
    ensures forall n, m :: Outstanding(s, fd, n) && Outstanding(s, fd, m) && n < m ==> WriteAndClose(s, n, m)
    ensures fd !in s.conns ==> Holders(s, fd) == 0 && forall n :: !Outstanding(s, fd, n)
    ensures s.worker == Busy(fd, OnLastWrite) ==> forall n: nat :: Outstanding(s, fd, n) ==> s.submitted[n].kind.Close?
  {
    HoldersOf(OwnersOf(s.conns), s, fd);
    forall n | Outstanding(s, fd, n)
      ensures fd in s.conns && n in Claims(s.conns[fd].own)
    {
      OutstandingIsClaimed(s, fd, n);
    }
    if fd in s.conns { assert ConnOk(s.conns[fd], fd, s.submitted, s.inflight); }
  }

  lemma HoldersOf(owners: Owners, s: State, fd: Fd)
    requires TokensOk(owners, s.worker, s.tasks, s.asyncOpQueue)
    ensures Holders(s, fd) <= 1
    ensures Holders(s, fd) == 1 ==> fd in owners && Claims(owners[fd]) == {}
    ensures fd !in owners ==> Holders(s, fd) == 0
    ensures s.worker == Busy(fd, OnLastWrite) ==> fd in owners && owners[fd].InClose?
  {
  }

  /** A user call that puts a ring of `fd` out of order: `ReadFrom` into an empty ring with a
      first read that delivers nothing, `WriteTo` from a full ring to a writer that takes
      nothing, `Discard` of a negative number unless the contents stay what they were. */
  ghost predicate Fails(s: State, a: Action, fd: Fd) {
    && Sound(s, fd) && UserOpAllowed(s.conns[fd])
    && var c := s.conns[fd];
       match a
       case AReadFrom(f, chunks, junk, _) => f == fd && Stuck(c.outbound, chunks) && |junk| == Roomy(c.outbound, s.page).cap
       case AWriteTo(f, n) => f == fd && n == 0 && |c.inbound.data| == c.inbound.cap > 0
       case ADiscard(f, n, left) => f == fd && n < 0 && MovedBack(c.inbound, left)
       case _ => false
  }

  /** No call of the run has done so, and every region that the rings of the connection have
      obtained had the size asked for. */
  ghost predicate Orderly(async: bool, page: nat, schedule: seq<Action>, fd: Fd) {
    && (forall k :: 0 <= k < |schedule| ==> !Fails(Run(async, page, schedule[..k]), schedule[k], fd))
    && var s := Run(async, page, schedule); fd in s.conns ==> Exact(s.conns[fd].regions)
  }

  /** Only such a call or such a region sets the flag. */
  ghost predicate Faultless(s: State, a: Action, fd: Fd) {
    var s' := Step(s, a);
    fd in s'.conns ==>
      if fd in s.conns then
        && s.conns[fd].regions <= s'.conns[fd].regions
        && (s'.conns[fd].spoiled ==> s.conns[fd].spoiled || Fails(s, a, fd) || !Exact(s'.conns[fd].regions))
      else s'.conns[fd].spoiled ==> !Exact(s'.conns[fd].regions)
  }

  lemma SpoiledStep(s: State, a: Action, fd: Fd)
    requires fd in s.conns ==> Sound(s, fd)
    ensures Faultless(s, a, fd)
  {
    if !Touches(s, a, fd) {
      StepSame(s, a, fd);
    } else {
      match a {
        case ADispatch(env) => OnlyDispatch(s, env);
        case AReturn(env) => OnlyReturn(s, env);
        case APop(env) => OnlyPop(s, env);
        case AAccept(_, inbound, outbound) => SpoiledByAccept(s, fd, inbound, outbound);
        case AWrite(_, bytes, region) => SpoiledByWrite(s, fd, bytes, region);
        case AReadFrom(_, chunks, junk, regions) => SpoiledByReadFrom(s, fd, chunks, junk, regions);
        case ARead(_, _) => SpoiledByDrop(s, a, fd);
        case AWriteTo(_, _) => SpoiledByDrop(s, a, fd);
        case ADiscard(_, _, _) => SpoiledByDrop(s, a, fd);
        case _ => SpoiledByOther(s, a, fd);
      }
    }
  }

  lemma SoundOf(s: State, fd: Fd)
    requires Inv(s) && fd in s.conns
    ensures Sound(s, fd)
  {
    assert ConnOk(s.conns[fd], fd, s.submitted, s.inflight);
  }

  lemma SpoiledByAccept(s: State, fd: Fd, inbound: Region, outbound: Region)
    ensures Faultless(s, AAccept(fd, inbound, outbound), fd)
  {
    assert [] + [inbound, outbound] == [inbound, outbound];
  }

  lemma SpoiledByWrite(s: State, fd: Fd, bytes: seq<Byte>, region: nat)
    ensures Faultless(s, AWrite(fd, bytes, region), fd)
  {
    if Sound(s, fd) { ObtainLater(s.conns[fd], Answers(WrittenAsks(s.conns[fd].outbound, bytes, s.page), [region])); }
  }

  lemma SpoiledByReadFrom(s: State, fd: Fd, chunks: seq<seq<Byte>>, junk: seq<Byte>, regions: seq<nat>)
    ensures Faultless(s, AReadFrom(fd, chunks, junk, regions), fd)
  {
    if Sound(s, fd) && !Stuck(s.conns[fd].outbound, chunks) {
      ObtainLater(s.conns[fd], Answers(ReadAsks(s.conns[fd].outbound, chunks, s.page), regions));
    }
  }

  lemma SpoiledByDrop(s: State, a: Action, fd: Fd)
    requires (a.ARead? || a.AWriteTo? || a.ADiscard?) && a.fd == fd && (fd in s.conns ==> Sound(s, fd))
    ensures Faultless(s, a, fd)
  {
    match a {
      case ARead(_, _) =>
      case AWriteTo(_, _) =>
      case ADiscard(_, _, _) =>
    }
  }

  lemma SpoiledByOther(s: State, a: Action, fd: Fd)
    requires a.AComplete? || a.AStartTask? || a.AReturnTask? || a.AMisread? || a.AClose?
    requires Touches(s, a, fd) && (fd in s.conns ==> Sound(s, fd))
    ensures Faultless(s, a, fd)
  {
    match a {
      case AComplete(_, _, _, _) =>
      case AStartTask(_) =>
      case AReturnTask(_) =>
      case AMisread(_, _, _) =>
      case AClose(_) =>
    }
  }

  lemma {:induction false} OrderlyIsUnspoiled(async: bool, page: nat, schedule: seq<Action>, fd: Fd)
    requires page > 0 && Orderly(async, page, schedule, fd) && fd in Run(async, page, schedule).conns
    ensures !Run(async, page, schedule).conns[fd].spoiled
  {
    if schedule != [] {
      var before, a := schedule[..|schedule| - 1], schedule[|schedule| - 1];
      assert forall k :: 0 <= k < |before| ==> before[..k] == schedule[..k] && before[k] == schedule[k];
      RunInv(async, page, before);
      var s, s' := Run(async, page, before), Run(async, page, schedule);
      if fd in s.conns { SoundOf(s, fd); }
      SpoiledStep(s, a, fd);
      if fd in s.conns {
        ExactPrefix(s.conns[fd].regions, s'.conns[fd].regions);
        OrderlyIsUnspoiled(async, page, before, fd);
      }
    }
  }

  /** Over every run with arbitrary short transfers in which no user call and no region of
      another size has put a ring of the connection out of order: what the kernel has sent is a prefix of what the user has
      written and what the user has consumed is a prefix of what the kernel has received, in
      order; and once the worker has seen all completions of a connection, nothing but the
      buffered bytes lies in between. */
  lemma StreamConservation(async: bool, page: nat, schedule: seq<Action>, fd: Fd)
    requires page > 0 && fd in Run(async, page, schedule).conns && Orderly(async, page, schedule, fd)
    ensures var s := Run(async, page, schedule);
            var c := s.conns[fd];
            && c.sent <= c.written && c.consumed + c.inbound.data <= c.received
            && ((forall n :: Outstanding(s, fd, n) ==> n in s.inflight) ==> Conserved(c))
  {
    RunInv(async, page, schedule);
    OrderlyIsUnspoiled(async, page, schedule, fd);
    var s := Run(async, page, schedule);
    var c := s.conns[fd];
    assert ConnOk(c, fd, s.submitted, s.inflight);
    FlowFacts(c);
    if forall n :: Outstanding(s, fd, n) ==> n in s.inflight { NothingPending(s, fd); }
  }

  /** Nothing but the buffered bytes lies between the two ends. */
  ghost predicate Conserved(c: Conn) {
    c.written == c.sent + c.outbound.data && c.received == c.consumed + c.inbound.data
  }

  lemma FlowFacts(c: Conn)
    requires FlowOk(c) && !c.spoiled
    ensures c.sent <= c.written && c.consumed + c.inbound.data <= c.received
    ensures c.taken == 0 ==> c.written == c.sent + c.outbound.data
    ensures c.arrived == [] ==> c.received == c.consumed + c.inbound.data
  {
    assert c.outbound.data[0..] == c.outbound.data;
  }

  /** The condition is needed: the first user call that fails it breaks conservation at once,
      in every run. */
  lemma FailureBreaksConservation(async: bool, page: nat, schedule: seq<Action>, a: Action, fd: Fd)
    requires page > 0 && Orderly(async, page, schedule, fd)
    requires Fails(Run(async, page, schedule), a, fd)
    ensures var s := Run(async, page, schedule);
            Conserved(s.conns[fd]) && fd in Step(s, a).conns && !Conserved(Step(s, a).conns[fd])
  {
    RunInv(async, page, schedule);
    OrderlyIsUnspoiled(async, page, schedule, fd);
    var s := Run(async, page, schedule);
    var c := s.conns[fd];
    assert ConnOk(c, fd, s.submitted, s.inflight);
    UserFlow(c, fd, s.submitted, s.inflight);
    if a.ADiscard? {
      assert c.consumed + a.left != c.consumed + c.inbound.data by { OtherTail(c.consumed, a.left, c.inbound.data); }
    } else if a.AReadFrom? {
      StuckIsLonger(c, a.chunks, a.junk, page);
      PageStays(async, page, schedule);
    }
  }

  lemma OtherTail(a: seq<Byte>, b: seq<Byte>, c: seq<Byte>)
    requires b != c
    ensures a + b != a + c
  {
    assert (a + b)[|a|..] == b && (a + c)[|a|..] == c;
  }

  lemma StuckIsLonger(c: Conn, chunks: seq<seq<Byte>>, junk: seq<Byte>, page: nat)
    requires page > 0 && chunks != [] && |c.written| == |c.sent| && |junk| >= MIN_READ
    ensures var (outbound, got) := ReadAll(Ring(junk, |junk|), chunks[1..], page);
            c.written + got != c.sent + outbound.data
  {
    var (outbound, got) := ReadAll(Ring(junk, |junk|), chunks[1..], page);
    assert |c.sent + outbound.data| == |c.written + got| + |junk|;
  }

  lemma {:induction false} PageStays(async: bool, page: nat, schedule: seq<Action>)
    ensures Run(async, page, schedule).page == page
  {
    if schedule != [] {
      PageStays(async, page, schedule[..|schedule| - 1]);
      StepPage(Run(async, page, schedule[..|schedule| - 1]), schedule[|schedule| - 1]);
    }
  }

  /** For instance: a handler that accepts a connection and lets it read from a reader at its
      end makes the worker send a ringful of bytes that nobody wrote. */
  lemma SendsWhatNobodyWrote(page: nat, fd: Fd, inbound: Region, outbound: Region, junk: seq<Byte>, env: Env)
    requires page > 0 && fd >= STDERR && |junk| == Roomy(Ring([], outbound.asked), page).cap && env.sqe
    ensures var s := Run(false, page, [AAccept(fd, inbound, outbound), AReadFrom(fd, [[]], junk, []), AReturn(env)]);
            && s.submitted == [Sqe(Send, fd, |junk|, false)] && |junk| >= MIN_READ
            && fd in s.conns && s.conns[fd].written == []
  {
    var a, b, c := AAccept(fd, inbound, outbound), AReadFrom(fd, [[]], junk, []), AReturn(env);
    assert [a, b, c][..2] == [a, b] && [a, b][..1] == [a] && [a][..0] == [];
    var s1 := Step(Init(false, page), a);
    assert Run(false, page, [a]) == s1;
    var s2 := Step(s1, b);
    assert Run(false, page, [a, b]) == s2;
    HoldsWhatNobodyWrote(s1, fd, junk);
    SendsWhatItHolds(s2, fd, env);
  }

  lemma HoldsWhatNobodyWrote(s: State, fd: Fd, junk: seq<Byte>)
    requires Sound(s, fd) && UserOpAllowed(s.conns[fd]) && s.conns[fd].outbound.data == []
    requires |junk| == Roomy(s.conns[fd].outbound, s.page).cap
    ensures var s', c := UserReadFrom(s, fd, [[]], junk, []), s.conns[fd];
            && s' == s.(conns := s'.conns) && Sound(s', fd)
            && s'.conns[fd].outbound.data == junk && s'.conns[fd].written == c.written && !s'.conns[fd].closed
  {
    assert ReadAll(Ring(junk, |junk|), [[]][1..], s.page) == (Ring(junk, |junk|), []);
  }

  lemma SendsWhatItHolds(s: State, fd: Fd, env: Env)
    requires Sound(s, fd) && s.worker == Busy(fd, OnAccept) && env.sqe && s.submitted == []
    requires s.conns[fd].outbound.data != [] && !s.conns[fd].closed
    ensures var s', c := ReturnCallback(s, env), s.conns[fd];
            s'.submitted == [Sqe(Send, fd, |c.outbound.data|, false)] && fd in s'.conns && s'.conns[fd].written == c.written
  {
  }

  lemma NothingPending(s: State, fd: Fd)
    requires Inv(s) && fd in s.conns && forall n :: Outstanding(s, fd, n) ==> n in s.inflight
    ensures s.conns[fd].taken == 0 && s.conns[fd].arrived == []
  {
    var c := s.conns[fd];
    assert ConnOk(c, fd, s.submitted, s.inflight);
    if c.taken != 0 || c.arrived != [] { ClaimIsOutstanding(s, fd, c.own.idx); }
  }

  lemma ClaimIsOutstanding(s: State, fd: Fd, n: nat)
    requires ClaimsOk(OwnersOf(s.conns), s.submitted, s.inflight, s.cq) && fd in s.conns && n in Claims(s.conns[fd].own)
    ensures Outstanding(s, fd, n)
  {
    assert n in Claims(OwnersOf(s.conns)[fd]);
  }

  /** No run reaches a panic of `AdvanceRead` or `AdvanceWrite`, a completion for a descriptor
      that is not registered, or a connection state the worker does not know; and the state
      of a connection always agrees with the kind of the completion it is dispatched on. */
  lemma NoFault(async: bool, page: nat, schedule: seq<Action>)
    requires page > 0
    ensures var s := Run(async, page, schedule);
            && !s.fault
            && (s.cq != [] ==>
                  && s.cq[0].idx < |s.submitted|
                  && var q := s.submitted[s.cq[0].idx];
                  && q.fd in s.conns
                  && match s.conns[q.fd].state
                     case Reading => q.kind.Recv?
                     case Writing => q.kind.Send?
                     case Closing => q.kind.Send? || q.kind.Close?
                     case Invalid => false)
  {
    RunInv(async, page, schedule);
    var s := Run(async, page, schedule);
    if s.cq != [] {
      FirstAnswer(s);
      StateByKind(s);
    }
  }

  /** A linked entry is always immediately followed by the close of the same descriptor. */
  lemma LinkedIsFollowedByClose(async: bool, page: nat, schedule: seq<Action>, n: nat)
    requires page > 0
    requires var s := Run(async, page, schedule); n < |s.submitted| && s.submitted[n].linked
    ensures var s := Run(async, page, schedule);
            && s.submitted[n].kind.Send? && n + 1 < |s.submitted|
            && s.submitted[n + 1] == Sqe(Close, s.submitted[n].fd, 0, false)
  {
    RunInv(async, page, schedule);
  }

  /** `OnClose` fires at most once per accepted connection; a connection is either still
      registered or closed; and every outstanding entry belongs to a connection for which
      `OnClose` has not fired. */
  lemma CloseOnce(async: bool, page: nat, schedule: seq<Action>)
    requires page > 0
    ensures var s := Run(async, page, schedule);
            && (forall j, k :: 0 <= j < k < |s.closes| ==> s.closes[j] != s.closes[k])
            && s.accepted == |s.conns| + |s.closes|
            && (forall fd, n :: Outstanding(s, fd, n) ==> fd in s.conns && s.conns[fd].id !in s.closes)
  {
    RunInv(async, page, schedule);
    var s := Run(async, page, schedule);
    forall fd, n | Outstanding(s, fd, n)
      ensures fd in s.conns && s.conns[fd].id !in s.closes
    {
      OutstandingIsClaimed(s, fd, n);
    }
  }

  // ---------------------------------------------------------------- buffers in the kernel's hands

  /** A user call on a connection in the kernel's hands does not touch its rings. */
  lemma UserCallHarmless(s: State, a: Action, fd: Fd)
    requires fd in s.conns && !UserOpAllowed(s.conns[fd]) && fd !in s.tasks
    requires !a.AComplete? && !a.AAccept? && !WorkerStep(a) && a.fd == fd
    ensures KeepsRings(s, Step(s, a), fd)
  {
    if UserCall(a) { UserAlike(s, a, fd); }
  }

  ghost predicate KeepsRings(s: State, s': State, fd: Fd) {
    fd in s.conns && fd in s'.conns && s'.conns[fd].inbound == s.conns[fd].inbound && s'.conns[fd].outbound == s.conns[fd].outbound
  }

  lemma InKernel(s: State, fd: Fd, n: nat)
    requires Inv(s) && n in s.inflight && EntryOf(s.submitted, n, fd) && !s.submitted[n].kind.Close?
    ensures fd in s.conns && Outstanding(s, fd, n) && !UserOpAllowed(s.conns[fd])
    ensures var o := s.conns[fd].own; o == InRecv(n) || o == InSend(n) || o == InSendClose(n)
  {
    assert Claimed(OwnersOf(s.conns), s.submitted, n);
    OwnerByKind(s, n);
    assert ConnOk(s.conns[fd], fd, s.submitted, s.inflight);
  }

  /** Completions, callbacks and queue entries cannot be those of a connection whose read or
      write stays in flight. */
  lemma WorkerElsewhere(s: State, fd: Fd, n: nat)
    requires Inv(s) && n in s.inflight && EntryOf(s.submitted, n, fd) && !s.submitted[n].kind.Close?
    ensures s.cq != [] ==> s.cq[0].idx < |s.submitted| && s.submitted[s.cq[0].idx].fd != fd
    ensures s.worker.Busy? ==> s.worker.fd != fd
    ensures s.asyncOpQueue != [] ==> s.asyncOpQueue[0] != fd
    ensures fd !in s.tasks
  {
    InKernel(s, fd, n);
    if s.cq != [] { FirstAnswer(s); }
    if fd in s.tasks { TokenTaskToQueue(OwnersOf(s.conns), s.worker, s.tasks, s.asyncOpQueue, fd); }
    if s.asyncOpQueue != [] { TokenFromQueue(OwnersOf(s.conns), s.worker, s.tasks, s.asyncOpQueue); }
  }

  /** While a receive or a send is in flight the connection stays registered and neither of
      its buffers is written, consumed, grown or given away; the entry asks for exactly the
      free space, or the data, that the buffer still has, so its result always fits. */
  lemma InFlightBuffersAreFrozen(async: bool, page: nat, schedule: seq<Action>, a: Action, fd: Fd, n: nat)
    requires page > 0
    requires var s := Run(async, page, schedule);
             && n in s.inflight && n in Step(s, a).inflight
             && n < |s.submitted| && s.submitted[n].fd == fd && !s.submitted[n].kind.Close?
    ensures var s := Run(async, page, schedule);
            var s' := Step(s, a);
            && fd in s.conns && fd in s'.conns
            && s'.conns[fd].inbound == s.conns[fd].inbound && s'.conns[fd].outbound == s.conns[fd].outbound
            && s.submitted[n].len == if s.submitted[n].kind.Recv? then s.conns[fd].inbound.Free()
                                     else |s.conns[fd].outbound.data|
  {
    RunInv(async, page, schedule);
    var s := Run(async, page, schedule);
    InKernel(s, fd, n);
    assert ConnOk(s.conns[fd], fd, s.submitted, s.inflight);
    Frozen(s, a, fd, n);
  }

  lemma Frozen(s: State, a: Action, fd: Fd, n: nat)
    requires Inv(s) && n in s.inflight && n in Step(s, a).inflight
    requires EntryOf(s.submitted, n, fd) && !s.submitted[n].kind.Close?
    ensures KeepsRings(s, Step(s, a), fd)
  {
    InKernel(s, fd, n);
    WorkerElsewhere(s, fd, n);
    if !Touches(s, a, fd) {
      StepSame(s, a, fd);
    } else {
      match a {
        case AComplete(idx, res, data, more) => CompleteKeepsRings(s, idx, res, data, more, fd);
        case AAccept(_, _, _) =>
        case _ => UserCallHarmless(s, a, fd);
      }
    }
  }

  lemma CompleteKeepsRings(s: State, idx: nat, res: int, data: seq<Byte>, more: bool, fd: Fd)
    requires fd in s.conns
    ensures KeepsRings(s, Complete(s, idx, res, data, more), fd)
  {
  }
}
