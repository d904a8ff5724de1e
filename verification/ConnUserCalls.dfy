/** What the steps of users and of the kernel do in every run, and which regions the rings of a
    connection are on record with. */
module ConnUserCalls {
  import opened ByteRing
  import opened ConnProtocol
  import opened ConnInvariant
  import opened ConnSteps
  import opened ConnFrames
  import opened ConnTheorems

  // ---------------------------------------------------------------- user calls

  /** Only the outbound side of the connection has changed. */
  ghost predicate OutboundOnly(c: Conn, c': Conn) {
    c' == c.(outbound := c'.outbound, written := c'.written, regions := c'.regions, spoiled := c'.spoiled)
  }

  /** `bytes` are appended to what is to be sent. */
  ghost predicate Appended(c: Conn, c': Conn, bytes: seq<Byte>) {
    OutboundOnly(c, c') && c'.outbound.data == c.outbound.data + bytes && c'.written == c.written + bytes
  }

  /** The first `n` bytes received, or all if there are fewer, have been consumed. */
  ghost predicate Consumed(c: Conn, c': Conn, n: nat) {
    var k := if n < |c.inbound.data| then n else |c.inbound.data|;
    && c' == c.(inbound := c'.inbound, consumed := c'.consumed) && c'.inbound.cap == c.inbound.cap
    && c'.consumed == c.consumed + c.inbound.data[..k] && c'.inbound.data == c.inbound.data[k..]
  }

  /** The inbound data has been replaced without being consumed. */
  ghost predicate Replaced(c: Conn, c': Conn, data: seq<Byte>) {
    c' == c.(inbound := Ring(data, c.inbound.cap), spoiled := true)
  }

  /** What the reader delivered follows `held` in the outbound ring. */
  ghost predicate ReadInto(c: Conn, c': Conn, held: Ring, chunks: seq<seq<Byte>>, page: nat) {
    && page > 0 && held.Ok() && OutboundOnly(c, c') && c.written <= c'.written
    && var got := c'.written[|c.written|..];
       Delivered(held, chunks, page, got) && c'.outbound.data == held.data + got
  }

  /** A user call on a connection that allows it. */
  ghost predicate Served(c: Conn, c': Conn, a: Action, page: nat) {
    && page > 0 && c.outbound.Ok()
    && match a
       case AWrite(_, bytes, _) => Appended(c, c', bytes)
       case ARead(_, n) => Consumed(c, c', n)
       case AReadFrom(_, chunks, junk, _) =>
         if chunks == [] then c' == c
         else if !Stuck(c.outbound, chunks) then ReadInto(c, c', c.outbound, chunks, page)
         else if |junk| == Roomy(c.outbound, page).cap then ReadInto(c, c', Ring(junk, |junk|), chunks[1..], page)
         else c' == c
       case AWriteTo(_, n) =>
         if n == 0 && |c.inbound.data| == c.inbound.cap > 0 then Replaced(c, c', []) else Consumed(c, c', n)
       case ADiscard(_, n, left) =>
         if n >= 0 then Consumed(c, c', n) else if MovedBack(c.inbound, left) then Replaced(c, c', left) else c' == c
       case AClose(_) => c' == c.(closed := true)
       case _ => true
  }

  lemma WriteServed(s: State, fd: Fd, bytes: seq<Byte>, region: nat)
    requires Sound(s, fd) && UserOpAllowed(s.conns[fd])
    ensures fd in UserWrite(s, fd, bytes, region).conns
    ensures Appended(s.conns[fd], UserWrite(s, fd, bytes, region).conns[fd], bytes)
  {
  }

  lemma ReadServed(s: State, fd: Fd, n: nat)
    requires Sound(s, fd) && UserOpAllowed(s.conns[fd])
    ensures fd in UserRead(s, fd, n).conns && Consumed(s.conns[fd], UserRead(s, fd, n).conns[fd], n)
  {
  }

  lemma ReadFromServed(s: State, fd: Fd, chunks: seq<seq<Byte>>, junk: seq<Byte>, regions: seq<nat>)
    requires Sound(s, fd) && UserOpAllowed(s.conns[fd])
    ensures fd in UserReadFrom(s, fd, chunks, junk, regions).conns
    ensures Served(s.conns[fd], UserReadFrom(s, fd, chunks, junk, regions).conns[fd], AReadFrom(fd, chunks, junk, regions), s.page)
  {
    var c, c' := s.conns[fd], UserReadFrom(s, fd, chunks, junk, regions).conns[fd];
    if chunks != [] {
      if !Stuck(c.outbound, chunks) {
        GotFrom(c, c', c.outbound, chunks, s.page);
      } else if |junk| == Roomy(c.outbound, s.page).cap {
        GotFrom(c, c', Ring(junk, |junk|), chunks[1..], s.page);
      }
    }
  }

  lemma GotFrom(c: Conn, c': Conn, held: Ring, chunks: seq<seq<Byte>>, page: nat)
    requires page > 0 && held.Ok() && OutboundOnly(c, c')
    requires c'.outbound == ReadAll(held, chunks, page).0 && c'.written == c.written + ReadAll(held, chunks, page).1
    ensures ReadInto(c, c', held, chunks, page)
  {
    ReadAllDelivers(held, chunks, page);
    assert c'.written[|c.written|..] == ReadAll(held, chunks, page).1;
  }

  lemma WriteToServed(s: State, fd: Fd, n: nat)
    requires Sound(s, fd) && UserOpAllowed(s.conns[fd])
    ensures fd in UserWriteTo(s, fd, n).conns
    ensures Served(s.conns[fd], UserWriteTo(s, fd, n).conns[fd], AWriteTo(fd, n), s.page)
  {
    ReadServed(s, fd, n);
  }

  lemma DiscardServed(s: State, fd: Fd, n: int, left: seq<Byte>)
    requires Sound(s, fd) && UserOpAllowed(s.conns[fd])
    ensures fd in UserDiscard(s, fd, n, left).conns
    ensures Served(s.conns[fd], UserDiscard(s, fd, n, left).conns[fd], ADiscard(fd, n, left), s.page)
  {
    if n >= 0 { ReadServed(s, fd, n); }
  }

  lemma CallServed(s: State, a: Action)
    requires UserCall(a) && Sound(s, a.fd) && UserOpAllowed(s.conns[a.fd])
    ensures a.fd in Step(s, a).conns && Served(s.conns[a.fd], Step(s, a).conns[a.fd], a, s.page)
  {
    match a {
      case AWrite(fd, bytes, region) => WriteServed(s, fd, bytes, region);
      case ARead(fd, n) => ReadServed(s, fd, n);
      case AReadFrom(fd, chunks, junk, regions) => ReadFromServed(s, fd, chunks, junk, regions);
      case AWriteTo(fd, n) => WriteToServed(s, fd, n);
      case ADiscard(fd, n, left) => DiscardServed(s, fd, n, left);
      case AMisread(_, _, _) =>
      case AClose(_) =>
    }
  }

  lemma CallRefused(s: State, a: Action)
    requires UserCall(a) && !a.AClose? && (a.fd in s.conns ==> !UserOpAllowed(s.conns[a.fd]))
    ensures Step(s, a) == s
  {
    match a {
      case AWrite(_, _, _) =>
      case ARead(_, _) =>
      case AReadFrom(_, _, _, _) =>
      case AWriteTo(_, _) =>
      case ADiscard(_, _, _) =>
      case AMisread(_, _, _) =>
    }
  }

  /** In every run: a call on a connection that is neither closed nor in the kernel's hands moves
      exactly the bytes it is about, any other call but `Close` changes nothing, and `Close`
      marks the connection and does nothing else. */
  lemma UserCallResponds(async: bool, page: nat, schedule: seq<Action>, a: Action)
    requires page > 0 && UserCall(a)
    ensures var s := Run(async, page, schedule);
            if a.fd !in s.conns || (!UserOpAllowed(s.conns[a.fd]) && !a.AClose?) then Step(s, a) == s
            else a.fd in Step(s, a).conns && Served(s.conns[a.fd], Step(s, a).conns[a.fd], a, page)
  {
    RunInv(async, page, schedule);
    PageStays(async, page, schedule);
    CallStep(Run(async, page, schedule), a);
  }

  lemma CallStep(s: State, a: Action)
    requires Inv(s) && UserCall(a)
    ensures if a.fd !in s.conns || (!UserOpAllowed(s.conns[a.fd]) && !a.AClose?) then Step(s, a) == s
            else a.fd in Step(s, a).conns && Served(s.conns[a.fd], Step(s, a).conns[a.fd], a, s.page)
  {
    if a.fd in s.conns { SoundOf(s, a.fd); }
    if a.AClose? {
    } else if a.fd !in s.conns || !UserOpAllowed(s.conns[a.fd]) {
      CallRefused(s, a);
    } else {
      CallServed(s, a);
    }
  }

  // ---------------------------------------------------------------- the kernel

  /** A new connection: registered under the next number, in `OnAccept`, free to be used. */
  lemma AcceptResponds(s: State, fd: Fd, inbound: Region, outbound: Region)
    requires s.worker.Ready? && fd !in s.conns && fd >= STDERR
    ensures var s' := Step(s, AAccept(fd, inbound, outbound));
            && s'.worker == Busy(fd, OnAccept) && s'.accepted == s.accepted + 1
            && s'.submitted == s.submitted && s'.closes == s.closes
            && fd in s'.conns && s'.conns[fd].id == s.accepted && UserOpAllowed(s'.conns[fd])
            && s'.conns[fd].inbound == Ring([], inbound.asked) && s'.conns[fd].outbound == Ring([], outbound.asked)
            && s'.conns[fd].regions == [inbound, outbound]
  {
    assert [] + [inbound, outbound] == [inbound, outbound];
  }

  /** An answer of the kernel: it waits for the worker behind the others, and what it moved is
      what was received, or the first bytes of what was to be sent. */
  ghost predicate Moved(c: Conn, c': Conn, q: Sqe, res: int, data: seq<Byte>) {
    && c'.inbound == c.inbound && c'.outbound == c.outbound
    && c'.received == (if q.kind.Recv? then c.received + data else c.received)
    && (q.kind.Send? && res > 0 ==> res <= |c.outbound.data| && c'.sent == c.sent + c.outbound.data[..res])
    && (!q.kind.Send? || res <= 0 ==> c'.sent == c.sent)
  }

  lemma CompleteResponds(async: bool, page: nat, schedule: seq<Action>, idx: nat, res: int, data: seq<Byte>, more: bool)
    requires page > 0 && Allowed(Run(async, page, schedule), idx, res, data)
    ensures var s := Run(async, page, schedule);
            var s', q := Step(s, AComplete(idx, res, data, more)), s.submitted[idx];
            && s'.cq == s.cq + [Cqe(idx, res, data, more)] && idx !in s'.inflight
            && q.fd in s.conns && q.fd in s'.conns && Moved(s.conns[q.fd], s'.conns[q.fd], q, res, data)
  {
    RunInv(async, page, schedule);
    CompleteMoves(Run(async, page, schedule), idx, res, data, more);
  }

  lemma CompleteMoves(s: State, idx: nat, res: int, data: seq<Byte>, more: bool)
    requires Inv(s) && Allowed(s, idx, res, data)
    ensures var s', q := Complete(s, idx, res, data, more), s.submitted[idx];
            && s'.cq == s.cq + [Cqe(idx, res, data, more)] && idx !in s'.inflight
            && q.fd in s.conns && q.fd in s'.conns && Moved(s.conns[q.fd], s'.conns[q.fd], q, res, data)
  {
    assert Claimed(OwnersOf(s.conns), s.submitted, idx);
    OwnerByKind(s, idx);
    var q := s.submitted[idx];
    assert ConnOk(s.conns[q.fd], q.fd, s.submitted, s.inflight);
  }

  // ---------------------------------------------------------------- regions on record

  /** The ring moved at most once, to a region of its new size, for which `got` was obtained. */
  ghost predicate MovedOnce(regions: seq<Region>, regions': seq<Region>, cap: nat, cap': nat, got: nat) {
    regions' == regions + if cap' == cap then [] else [Region(cap', got)]
  }

  /** The ring moved from region to larger region, and the pool answered as given. */
  ghost predicate MovedOften(regions: seq<Region>, regions': seq<Region>, cap: nat, cap': nat, got: seq<nat>) {
    && regions <= regions'
    && var more := regions'[|regions|..];
       && (forall i, j :: 0 <= i < j < |more| ==> more[i].asked < more[j].asked)
       && (forall i :: 0 <= i < |more| ==> more[i].got == if i < |got| then got[i] else more[i].asked)
       && if more == [] then cap' == cap else cap < more[0].asked && more[|more| - 1].asked == cap'
  }

  /** A ring that changes its capacity has obtained a region of that size, and it is on record
      with what the pool answered; nothing else is. */
  ghost predicate Recorded(c: Conn, c': Conn, a: Action) {
    match a
    case ADispatch(env) => MovedOnce(c.regions, c'.regions, c.inbound.cap, c'.inbound.cap, env.region) && c'.outbound.cap == c.outbound.cap
    case AReturn(env) => MovedOnce(c.regions, c'.regions, c.inbound.cap, c'.inbound.cap, env.region) && c'.outbound.cap == c.outbound.cap
    case APop(env) => MovedOnce(c.regions, c'.regions, c.inbound.cap, c'.inbound.cap, env.region) && c'.outbound.cap == c.outbound.cap
    case AWrite(_, _, region) => MovedOnce(c.regions, c'.regions, c.outbound.cap, c'.outbound.cap, region) && c'.inbound.cap == c.inbound.cap
    case AReadFrom(_, _, _, got) => MovedOften(c.regions, c'.regions, c.outbound.cap, c'.outbound.cap, got) && c'.inbound.cap == c.inbound.cap
    case _ => c'.regions == c.regions && c'.inbound.cap == c.inbound.cap && c'.outbound.cap == c.outbound.cap
  }

  ghost predicate OnRecord(s: State, s': State, fd: Fd, region: nat) {
    fd in s.conns && fd in s'.conns ==>
      && MovedOnce(s.conns[fd].regions, s'.conns[fd].regions, s.conns[fd].inbound.cap, s'.conns[fd].inbound.cap, region)
      && s'.conns[fd].outbound.cap == s.conns[fd].outbound.cap
  }

  lemma AddReadRecords(s: State, fd: Fd, region: nat)
    requires Sound(s, fd)
    ensures OnRecord(s, AddRead(s, fd, region), fd, region)
  {
  }

  lemma NextRecords(s: State, fd: Fd, region: nat)
    requires Sound(s, fd)
    ensures OnRecord(s, AddNext(s, fd, region), fd, region)
  {
    if Reads(s.conns[fd]) { AddReadRecords(s, fd, region); } else { WriteRecords(s, fd, region); }
  }

  predicate Reads(c: Conn) {
    c.outbound.data == [] && !c.closed
  }

  lemma WriteRecords(s: State, fd: Fd, region: nat)
    requires Sound(s, fd)
    ensures OnRecord(s, AddWrite(s, fd), fd, region) && OnRecord(s, AddWriteClose(s, fd), fd, region)
    ensures OnRecord(s, AddClose(s, fd), fd, region)
  {
    assert s.conns[fd].regions + [] == s.conns[fd].regions;
  }

  lemma AsyncRecords(s: State, fd: Fd, region: nat)
    requires Sound(s, fd)
    ensures OnRecord(s, AddAsync(s, fd, region), fd, region)
  {
    if s.conns[fd].nextAsyncOp.ReadOp? { AddReadRecords(s, fd, region); } else { WriteRecords(s, fd, region); }
  }

  lemma AfterReadRecords(s: State, fd: Fd, more: bool, env: Env)
    requires Sound(s, fd)
    ensures OnRecord(s, AfterRead(s, fd, more, env), fd, env.region)
  {
    AddReadRecords(s, fd, env.region);
  }

  lemma ReadRecords(s: State, fd: Fd, e: Cqe, env: Env)
    requires Sound(s, fd)
    ensures OnRecord(s, HandleRead(s, fd, e, env), fd, env.region)
  {
    if e.res > 0 && |e.data| <= s.conns[fd].inbound.Free() { AfterReadRecords(Fill(s, fd, e.data), fd, e.more, env); }
  }

  lemma HandleRecords(s: State, fd: Fd, e: Cqe, kind: Kind, env: Env)
    requires Sound(s, fd) && e.res >= 0
    ensures OnRecord(s, HandleConn(s, fd, e, kind, env), fd, env.region)
  {
    match s.conns[fd].state {
      case Reading => ReadRecords(s, fd, e, env);
      case Writing => FlushRecords(s, fd, e.res, OnWrite, env.region);
      case Closing => FlushRecords(s, fd, e.res, OnLastWrite, env.region);
      case Invalid =>
    }
  }

  lemma FlushRecords(s: State, fd: Fd, res: nat, event: Event, region: nat)
    requires Sound(s, fd)
    ensures OnRecord(s, Flush(s, fd, res, event), fd, region)
  {
  }

  lemma DispatchRecords(s: State, env: Env, fd: Fd)
    requires Touches(s, ADispatch(env), fd)
    ensures OnRecord(s, Dispatch(s, env), fd, env.region)
  {
    if s.worker.Ready? && Sound(s, fd) && s.cq[0].res >= 0 {
      HandleRecords(Settle(s.(cq := s.cq[1..]), fd, s.cq[0].idx), fd, s.cq[0], s.submitted[s.cq[0].idx].kind, env);
    }
  }

  lemma ReturnRecords(s: State, env: Env)
    requires s.worker.Busy?
    ensures OnRecord(s, ReturnCallback(s, env), s.worker.fd, env.region)
  {
    var fd := s.worker.fd;
    if Sound(s, fd) && !s.worker.event.OnLastWrite? && env.sqe { NextRecords(Take(s.(worker := Ready), fd, Nobody), fd, env.region); }
  }

  lemma PopRecords(s: State, env: Env)
    requires s.asyncOpQueue != []
    ensures OnRecord(s, PopAsync(s, env), s.asyncOpQueue[0], env.region)
  {
    var fd := s.asyncOpQueue[0];
    if Sound(s, fd) && env.sqe { AsyncRecords(Take(s.(asyncOpQueue := s.asyncOpQueue[1..]), fd, Nobody), fd, env.region); }
  }

  lemma ReadFromRecords(s: State, fd: Fd, chunks: seq<seq<Byte>>, junk: seq<Byte>, regions: seq<nat>)
    requires Sound(s, fd)
    ensures fd in UserReadFrom(s, fd, chunks, junk, regions).conns
    ensures Recorded(s.conns[fd], UserReadFrom(s, fd, chunks, junk, regions).conns[fd], AReadFrom(fd, chunks, junk, regions))
  {
    if UserOpAllowed(s.conns[fd]) && chunks != [] {
      if Stuck(s.conns[fd].outbound, chunks) {
        StuckRecords(s, fd, chunks, junk, regions);
      } else {
        ReadyRecords(s, fd, chunks, junk, regions);
      }
    }
  }

  lemma ReadyRecords(s: State, fd: Fd, chunks: seq<seq<Byte>>, junk: seq<Byte>, regions: seq<nat>)
    requires Sound(s, fd) && UserOpAllowed(s.conns[fd]) && chunks != [] && !Stuck(s.conns[fd].outbound, chunks)
    ensures Recorded(s.conns[fd], UserReadFrom(s, fd, chunks, junk, regions).conns[fd], AReadFrom(fd, chunks, junk, regions))
  {
    var c := s.conns[fd];
    AsksGrow(c.outbound, chunks, s.page);
    AnswersRecord(c.regions, ReadAsks(c.outbound, chunks, s.page), regions, c.outbound.cap);
  }

  lemma StuckRecords(s: State, fd: Fd, chunks: seq<seq<Byte>>, junk: seq<Byte>, regions: seq<nat>)
    requires Sound(s, fd) && UserOpAllowed(s.conns[fd]) && Stuck(s.conns[fd].outbound, chunks)
    ensures Recorded(s.conns[fd], UserReadFrom(s, fd, chunks, junk, regions).conns[fd], AReadFrom(fd, chunks, junk, regions))
  {
    var c := s.conns[fd];
    if |junk| == Roomy(c.outbound, s.page).cap {
      StuckAsks(c.outbound, chunks, junk, s.page);
      AnswersRecord(c.regions, RoomyAsks(c.outbound, s.page) + ReadAsks(Ring(junk, |junk|), chunks[1..], s.page), regions, c.outbound.cap);
    } else {
      AnswersRecord(c.regions, [], regions, c.outbound.cap);
      assert c.regions + Answers([], regions) == c.regions;
    }
  }

  /** The sizes grow from `cap` on. */
  ghost predicate Growing(asked: seq<nat>, cap: nat) {
    (forall i, j :: 0 <= i < j < |asked| ==> asked[i] < asked[j]) && (asked != [] ==> cap < asked[0])
  }

  lemma StuckAsks(rb: Ring, chunks: seq<seq<Byte>>, junk: seq<Byte>, page: nat)
    requires page > 0 && rb.Ok() && chunks != [] && |junk| == Roomy(rb, page).cap
    ensures var asked, end := RoomyAsks(rb, page) + ReadAsks(Ring(junk, |junk|), chunks[1..], page),
                              ReadAll(Ring(junk, |junk|), chunks[1..], page).0.cap;
            Growing(asked, rb.cap) && end == if asked == [] then rb.cap else asked[|asked| - 1]
  {
    AsksGrow(Ring(junk, |junk|), chunks[1..], page);
  }

  lemma AnswersRecord(regions: seq<Region>, asked: seq<nat>, got: seq<nat>, cap: nat)
    requires Growing(asked, cap)
    ensures MovedOften(regions, regions + Answers(asked, got), cap, if asked == [] then cap else asked[|asked| - 1], got)
  {
    assert (regions + Answers(asked, got))[|regions|..] == Answers(asked, got);
  }

  lemma WrittenRecords(s: State, fd: Fd, bytes: seq<Byte>, region: nat)
    requires Sound(s, fd)
    ensures fd in UserWrite(s, fd, bytes, region).conns
    ensures Recorded(s.conns[fd], UserWrite(s, fd, bytes, region).conns[fd], AWrite(fd, bytes, region))
  {
    assert s.conns[fd].regions + [] == s.conns[fd].regions;
  }

  lemma TakenRecords(s: State, fd: Fd, n: nat, a: Action)
    requires fd in s.conns && (a.ARead? || a.AWriteTo? || a.ADiscard?)
    ensures fd in UserRead(s, fd, n).conns && Recorded(s.conns[fd], UserRead(s, fd, n).conns[fd], a)
  {
  }

  lemma UserRecords(s: State, a: Action)
    requires UserCall(a) && Sound(s, a.fd)
    ensures a.fd in Step(s, a).conns && Recorded(s.conns[a.fd], Step(s, a).conns[a.fd], a)
  {
    match a {
      case AWrite(fd, bytes, region) => WrittenRecords(s, fd, bytes, region);
      case ARead(fd, n) => TakenRecords(s, fd, n, a);
      case AReadFrom(fd, chunks, junk, regions) => ReadFromRecords(s, fd, chunks, junk, regions);
      case AWriteTo(fd, n) => TakenRecords(s, fd, n, a);
      case ADiscard(fd, n, _) => if n >= 0 { TakenRecords(s, fd, n, a); }
      case AMisread(_, _, _) =>
      case AClose(_) =>
    }
  }

  /** In every run and for every step: the capacities of the rings of a connection change exactly
      with the regions put on record, and these have the sizes that were obtained. */
  lemma RegionsAreOnRecord(async: bool, page: nat, schedule: seq<Action>, a: Action, fd: Fd)
    requires page > 0
    ensures var s := Run(async, page, schedule);
            fd in s.conns && fd in Step(s, a).conns ==>
              if Touches(s, a, fd) then Recorded(s.conns[fd], Step(s, a).conns[fd], a) else Step(s, a).conns[fd] == s.conns[fd]
  {
    RunInv(async, page, schedule);
    StepRecords(Run(async, page, schedule), a, fd);
  }

  lemma StepRecords(s: State, a: Action, fd: Fd)
    requires Inv(s)
    ensures fd in s.conns && fd in Step(s, a).conns ==>
              if Touches(s, a, fd) then Recorded(s.conns[fd], Step(s, a).conns[fd], a) else Step(s, a).conns[fd] == s.conns[fd]
  {
    if !Touches(s, a, fd) {
      StepSame(s, a, fd);
    } else if fd in s.conns {
      SoundOf(s, fd);
      TouchRecords(s, a, fd);
    }
  }

  lemma TouchRecords(s: State, a: Action, fd: Fd)
    requires Sound(s, fd) && Touches(s, a, fd)
    ensures fd in Step(s, a).conns ==> Recorded(s.conns[fd], Step(s, a).conns[fd], a)
  {
    match a {
      case ADispatch(env) => DispatchRecords(s, env, fd);
      case AReturn(env) => ReturnRecords(s, env);
      case APop(env) => PopRecords(s, env);
      case AAccept(_, _, _) =>
      case AComplete(_, _, _, _) =>
      case AStartTask(_) =>
      case AReturnTask(_) =>
      case _ => UserRecords(s, a);
    }
  }
}
