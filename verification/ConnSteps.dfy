/** Every step of the connection protocol keeps the invariant. */
module ConnSteps {
  import opened ByteRing
  import opened ConnProtocol
  import opened ConnInvariant

  lemma PutPut(s: State, f: Fd, c: Conn, c': Conn)
    ensures Put(Put(s, f, c), f, c') == Put(s, f, c')
  {
    assert s.conns[f := c][f := c'] == s.conns[f := c'];
  }

  // ---------------------------------------------------------------- passing a connection on

  lemma ToCallback(s: State, f: Fd, c: Conn, event: Event)
    requires Inv(s) && s.worker.Ready? && f in s.conns && s.conns[f].own.Nobody? && !event.OnLastWrite?
    requires c.own.Callback? && c.id == s.conns[f].id && ConnOk(c, f, s.submitted, s.inflight)
    ensures Inv(Put(s, f, c).(worker := Busy(f, event)))
  {
    TokenToCallback(OwnersOf(s.conns), s.tasks, s.asyncOpQueue, f, event);
    Pass(s, f, c, Busy(f, event), s.tasks, s.asyncOpQueue);
  }

  lemma TokenToCallback(owners: Owners, tasks: multiset<Fd>, queue: seq<Fd>, f: Fd, event: Event)
    requires TokensOk(owners, Ready, tasks, queue) && f in owners && owners[f].Nobody? && !event.OnLastWrite?
    ensures TokensOk(owners[f := Callback], Busy(f, event), tasks, queue)
  {
  }

  lemma ToTask(s: State, f: Fd, c: Conn)
    requires Inv(s) && f in s.conns && s.conns[f].own.Nobody?
    requires c.own.Task? && c.id == s.conns[f].id && ConnOk(c, f, s.submitted, s.inflight)
    ensures Inv(Put(s, f, c).(tasks := s.tasks + multiset{f}))
  {
    TokenToTask(OwnersOf(s.conns), s.worker, s.tasks, s.asyncOpQueue, f);
    Pass(s, f, c, s.worker, s.tasks + multiset{f}, s.asyncOpQueue);
  }

  lemma TokenToTask(owners: Owners, worker: Worker, tasks: multiset<Fd>, queue: seq<Fd>, f: Fd)
    requires TokensOk(owners, worker, tasks, queue) && f in owners && owners[f].Nobody?
    ensures TokensOk(owners[f := Task], worker, tasks + multiset{f}, queue)
  {
  }

  lemma TokenTaskToQueue(owners: Owners, worker: Worker, tasks: multiset<Fd>, queue: seq<Fd>, f: Fd)
    requires TokensOk(owners, worker, tasks, queue) && f in tasks
    ensures f in owners && owners[f].Task?
    ensures TokensOk(owners[f := Queued], worker, tasks - multiset{f}, queue + [f])
  {
    assert tasks[f] > 0;
    assert multiset(queue + [f]) == multiset(queue) + multiset{f};
  }

  lemma TokenFromQueue(owners: Owners, worker: Worker, tasks: multiset<Fd>, queue: seq<Fd>)
    requires TokensOk(owners, worker, tasks, queue) && queue != []
    ensures queue[0] in owners && owners[queue[0]].Queued?
    ensures TokensOk(owners[queue[0] := Nobody], worker, tasks, queue[1..])
  {
    assert queue == [queue[0]] + queue[1..];
    assert multiset(queue) == multiset{queue[0]} + multiset(queue[1..]);
    assert multiset(queue)[queue[0]] > 0;
  }

  lemma FromCallback(s: State, f: Fd)
    requires Inv(s) && s.worker.Busy? && s.worker.fd == f && f in s.conns && s.conns[f].own.Callback?
    ensures Inv(Take(s.(worker := Ready), f, Nobody))
  {
    assert ConnOk(s.conns[f], f, s.submitted, s.inflight);
    Owned(s.conns[f], f, s.submitted, s.inflight, Nobody);
    TokenFromCallback(OwnersOf(s.conns), s.worker, s.tasks, s.asyncOpQueue, f);
    Pass(s, f, s.conns[f].(own := Nobody), Ready, s.tasks, s.asyncOpQueue);
  }

  /** A connection that claims nothing changes hands. */
  lemma Owned(c: Conn, f: Fd, submitted: seq<Sqe>, inflight: set<nat>, o: Owner)
    requires ConnOk(c, f, submitted, inflight) && Claims(c.own) == {} && Claims(o) == {} && !o.Queued?
    ensures ConnOk(c.(own := o), f, submitted, inflight)
  {
  }

  lemma TokenFromCallback(owners: Owners, worker: Worker, tasks: multiset<Fd>, queue: seq<Fd>, f: Fd)
    requires TokensOk(owners, worker, tasks, queue) && worker.Busy? && worker.fd == f && f in owners && owners[f].Callback?
    ensures TokensOk(owners[f := Nobody], Ready, tasks, queue)
  {
  }

  lemma FromQueue(s: State)
    requires Inv(s) && s.asyncOpQueue != []
    ensures var f := s.asyncOpQueue[0];
            f in s.conns && s.conns[f].own.Queued? && Inv(Take(s.(asyncOpQueue := s.asyncOpQueue[1..]), f, Nobody))
  {
    var q := s.asyncOpQueue;
    TokenFromQueue(OwnersOf(s.conns), s.worker, s.tasks, q);
    assert ConnOk(s.conns[q[0]], q[0], s.submitted, s.inflight);
    Owned(s.conns[q[0]], q[0], s.submitted, s.inflight, Nobody);
    Pass(s, q[0], s.conns[q[0]].(own := Nobody), s.worker, s.tasks, q[1..]);
  }

  lemma ReturnTaskInv(s: State, f: Fd)
    requires Inv(s)
    ensures Inv(ReturnTask(s, f))
  {
    if f in s.tasks && f in s.conns && s.conns[f].mode.UserSpace? {
      TokenTaskToQueue(OwnersOf(s.conns), s.worker, s.tasks, s.asyncOpQueue, f);
      assert ConnOk(s.conns[f], f, s.submitted, s.inflight);
      QueuedOk(s.conns[f], f, s.submitted, s.inflight);
      Pass(s, f, Returned(s.conns[f]), s.worker, s.tasks - multiset{f}, s.asyncOpQueue + [f]);
      TaskShape(s, f);
    }
  }

  /** The connection of a task that has returned. */
  function Returned(c: Conn): Conn {
    c.(nextAsyncOp := if |c.outbound.data| > 0 then WriteOp else if c.closed then CloseOp else ReadOp, own := Queued)
  }

  lemma QueuedOk(c: Conn, f: Fd, submitted: seq<Sqe>, inflight: set<nat>)
    requires ConnOk(c, f, submitted, inflight) && c.own.Task?
    ensures ConnOk(Returned(c), f, submitted, inflight)
  {
  }

  lemma TaskShape(s: State, f: Fd)
    requires f in s.tasks && f in s.conns && s.conns[f].mode.UserSpace?
    ensures ReturnTask(s, f) == Put(s, f, Returned(s.conns[f])).(tasks := s.tasks - multiset{f}, asyncOpQueue := s.asyncOpQueue + [f])
  {
  }

  // ---------------------------------------------------------------- completions

  lemma AfterReadInv(s: State, f: Fd, more: bool, env: Env)
    requires Inv(s) && s.worker.Ready? && Sound(s, f) && s.conns[f].own.Nobody?
    ensures Inv(AfterRead(s, f, more, env))
  {
    var c := s.conns[f];
    assert ConnOk(c, f, s.submitted, s.inflight);
    if more && !c.closed {
      if env.sqe { AddReadInv(s, f, env.region); } else { Release(s, f); }
    } else if s.async {
      ToTask(s, f, c.(own := Task));
    } else {
      ToCallback(s, f, c.(own := Callback, mode := UserSpace), OnRead);
    }
  }

  /** A failed entry leaves the connection without owner, or with the close still to come. */
  lemma FailedInv(s: State)
    requires Inv(s) && s.cq != [] && s.worker.Ready? && s.cq[0].res < 0
    ensures var f := s.submitted[s.cq[0].idx].fd;
            f in s.conns && Inv(Settle(s.(cq := s.cq[1..]), f, s.cq[0].idx))
  {
    FirstAnswer(s);
    var e := s.cq[0];
    var f := s.submitted[e.idx].fd;
    OwnerByKind(s, e.idx);
    assert ReplyOk(s.conns, s.submitted, e) && ConnOk(s.conns[f], f, s.submitted, s.inflight);
    Settled(s, s.conns[f].(own := Answered(s.conns[f].own, e.idx)));
  }

  lemma ReadInv(s: State, env: Env)
    requires Inv(s) && s.cq != [] && s.worker.Ready? && s.cq[0].res >= 0
    requires var f := s.submitted[s.cq[0].idx].fd; Sound(s, f) && s.conns[f].state.Reading?
    ensures var e := s.cq[0];
            var f := s.submitted[e.idx].fd;
            Inv(HandleRead(Settle(s.(cq := s.cq[1..]), f, e.idx), f, e, env))
  {
    var e := s.cq[0];
    var f := s.submitted[e.idx].fd;
    var c, s' := s.conns[f], s.(cq := s.cq[1..]);
    ReadFacts(s);
    if e.res == 0 {
      EndInv(s);
    } else {
      Settled(s, Received(c, e.data));
      FillShape(s', f, e);
      AfterReadInv(Put(s', f, Received(c, e.data)), f, e.more, env);
    }
  }

  /** The end of the stream. */
  lemma EndInv(s: State)
    requires Inv(s) && s.cq != [] && s.worker.Ready? && s.cq[0].res == 0
    requires var f := s.submitted[s.cq[0].idx].fd; Sound(s, f) && s.conns[f].state.Reading?
    ensures var e := s.cq[0];
            var f := s.submitted[e.idx].fd;
            Inv(CloseConn(Settle(s.(cq := s.cq[1..]), f, e.idx), f))
  {
    var e := s.cq[0];
    var f := s.submitted[e.idx].fd;
    ReadFacts(s);
    Settled(s, s.conns[f].(own := Nobody));
    Release(Settle(s.(cq := s.cq[1..]), f, e.idx), f);
  }

  lemma FillShape(s: State, f: Fd, e: Cqe)
    requires Sound(s, f) && s.conns[f].own == InRecv(e.idx) && |e.data| <= s.conns[f].inbound.Free()
    ensures Fill(Settle(s, f, e.idx), f, e.data) == Put(s, f, Received(s.conns[f], e.data))
  {
    PutPut(s, f, s.conns[f].(own := Nobody), Received(s.conns[f], e.data));
  }

  /** The connection after the bytes it received have been accounted for. */
  function Received(c: Conn, data: seq<Byte>): Conn
    requires c.inbound.Ok() && |data| <= c.inbound.Free()
  {
    c.(own := Nobody, inbound := Filled(c.inbound, data), arrived := [])
  }

  lemma ReadFacts(s: State)
    requires Inv(s) && s.cq != [] && s.cq[0].res >= 0
    requires var f := s.submitted[s.cq[0].idx].fd; Sound(s, f) && s.conns[f].state.Reading?
    ensures var e := s.cq[0];
            var f := s.submitted[e.idx].fd;
            var c := s.conns[f];
            && c.own == InRecv(e.idx) && |e.data| <= c.inbound.Free()
            && (e.res == 0 ==> ConnOk(c.(own := Nobody), f, s.submitted, s.inflight))
            && ConnOk(Received(c, e.data), f, s.submitted, s.inflight)
  {
    var e := s.cq[0];
    FirstAnswer(s);
    OwnerByKind(s, e.idx);
    var f := s.submitted[e.idx].fd;
    var c := s.conns[f];
    assert ReplyOk(s.conns, s.submitted, e) && ConnOk(c, f, s.submitted, s.inflight);
    ReceivedOk(c, f, e.data, s.submitted, s.inflight);
  }

  lemma ReceivedOk(c: Conn, f: Fd, data: seq<Byte>, submitted: seq<Sqe>, inflight: set<nat>)
    requires ConnOk(c, f, submitted, inflight) && c.own.InRecv? && c.arrived == data && |data| <= c.inbound.Free()
    ensures ConnOk(Received(c, data), f, submitted, inflight)
  {
    assert c.consumed + c.inbound.data + data == c.consumed + (c.inbound.data + data) + [];
  }

  /** The connection after its write has been accounted for. */
  function Flushed(c: Conn, e: Cqe): Conn
    requires c.outbound.Ok() && 0 <= e.res <= |c.outbound.data|
  {
    c.(own := Answered(c.own, e.idx), outbound := Dropped(c.outbound, e.res), mode := UserSpace, taken := 0)
  }

  lemma FlushedInv(s: State, f: Fd, e: Cqe)
    requires Inv(s) && s.cq != [] && s.worker.Ready? && e == s.cq[0] && e.res >= 0 && e.idx < |s.submitted|
    requires f == s.submitted[e.idx].fd && f in s.conns && s.submitted[e.idx].kind.Send?
    ensures s.conns[f].outbound.Ok() && e.res <= |s.conns[f].outbound.data|
    ensures Inv(Put(s.(cq := s.cq[1..]), f, Flushed(s.conns[f], e)))
  {
    FirstAnswer(s);
    OwnerByKind(s, e.idx);
    var c := s.conns[f];
    assert ReplyOk(s.conns, s.submitted, e) && ConnOk(c, f, s.submitted, s.inflight);
    FlushedOk(c, f, s.submitted, s.inflight, e);
    Settled(s, Flushed(c, e));
  }

  lemma FlushedOk(c: Conn, f: Fd, submitted: seq<Sqe>, inflight: set<nat>, e: Cqe)
    requires ConnOk(c, f, submitted, inflight) && c.taken == e.res >= 0 && (c.own == InSend(e.idx) || c.own == InSendClose(e.idx))
    ensures e.res <= |c.outbound.data| && ConnOk(Flushed(c, e), f, submitted, inflight)
  {
    assert c.outbound.data[e.res..][0..] == c.outbound.data[e.res..];
  }

  lemma WriteInv(s: State)
    requires Inv(s) && s.cq != [] && s.worker.Ready? && s.cq[0].res >= 0
    requires var f := s.submitted[s.cq[0].idx].fd; Sound(s, f) && s.conns[f].state.Writing?
    ensures var e := s.cq[0];
            var f := s.submitted[e.idx].fd;
            Inv(Flush(Settle(s.(cq := s.cq[1..]), f, e.idx), f, e.res, OnWrite))
  {
    WriteOwner(s);
    var e, s' := s.cq[0], s.(cq := s.cq[1..]);
    var f := s.submitted[e.idx].fd;
    FlushedInv(s, f, e);
    CallbackAfter(s', f, Flushed(s.conns[f], e));
    WriteShape(s', f, e);
  }

  lemma WriteOwner(s: State)
    requires ConnsOk(s.conns, s.submitted, s.inflight) && OutOk(OwnersOf(s.conns), s.submitted, s.inflight, s.cq) && s.cq != []
    requires s.cq[0].idx < |s.submitted|
    requires var f := s.submitted[s.cq[0].idx].fd; f in s.conns && s.conns[f].state.Writing?
    ensures var q := s.submitted[s.cq[0].idx]; q.kind.Send? && s.conns[q.fd].own == InSend(s.cq[0].idx)
  {
    var f := s.submitted[s.cq[0].idx].fd;
    assert Claimed(OwnersOf(s.conns), s.submitted, s.cq[0].idx);
    OwnerByKind(s, s.cq[0].idx);
    assert ConnOk(s.conns[f], f, s.submitted, s.inflight);
  }

  lemma WriteShape(s: State, f: Fd, e: Cqe)
    requires Sound(s, f) && 0 <= e.res <= |s.conns[f].outbound.data| && s.conns[f].own == InSend(e.idx)
    ensures Flush(Settle(s, f, e.idx), f, e.res, OnWrite)
         == Put(s, f, Flushed(s.conns[f], e).(own := Callback)).(worker := Busy(f, OnWrite))
  {
    PutPut(s, f, s.conns[f].(own := Nobody), Flushed(s.conns[f], e).(own := Callback));
  }

  lemma CallbackAfter(s: State, f: Fd, c: Conn)
    requires Inv(Put(s, f, c)) && s.worker.Ready? && c.own.Nobody?
    ensures Inv(Put(s, f, c.(own := Callback)).(worker := Busy(f, OnWrite)))
  {
    PutGet(s, f, c);
    Owned(c, f, s.submitted, s.inflight, Callback);
    ToCallback(Put(s, f, c), f, c.(own := Callback), OnWrite);
    PutPut(s, f, c, c.(own := Callback));
  }

  lemma PutGet(s: State, f: Fd, c: Conn)
    requires ConnsOk(Put(s, f, c).conns, s.submitted, s.inflight)
    ensures ConnOk(c, f, s.submitted, s.inflight)
  {
    assert Put(s, f, c).conns[f] == c;
  }

  /** The write of a closing connection: its close is still to come. */
  lemma LastWriteInv(s: State, f: Fd, e: Cqe)
    requires Inv(s) && s.cq != [] && s.worker.Ready? && e == s.cq[0] && e.res >= 0 && e.idx < |s.submitted|
    requires f == s.submitted[e.idx].fd && Sound(s, f) && s.conns[f].state.Closing? && s.submitted[e.idx].kind.Send?
    ensures Inv(Flush(Settle(s.(cq := s.cq[1..]), f, e.idx), f, e.res, OnLastWrite))
  {
    LastWriteBusy(s, f, e);
    LastWriteShape(s.(cq := s.cq[1..]), f, e);
  }

  lemma LastWriteBusy(s: State, f: Fd, e: Cqe)
    requires Inv(s) && s.cq != [] && s.worker.Ready? && e == s.cq[0] && e.res >= 0 && e.idx < |s.submitted|
    requires f == s.submitted[e.idx].fd && Sound(s, f) && s.conns[f].state.Closing? && s.submitted[e.idx].kind.Send?
    ensures e.res <= |s.conns[f].outbound.data|
    ensures Inv(Put(s.(cq := s.cq[1..]), f, Flushed(s.conns[f], e)).(worker := Busy(f, OnLastWrite)))
  {
    FlushedInv(s, f, e);
    LastWriteOwner(s);
    LastWriteAfter(s.(cq := s.cq[1..]), f, Flushed(s.conns[f], e));
  }

  lemma LastWriteAfter(s: State, f: Fd, c: Conn)
    requires Inv(Put(s, f, c)) && s.worker.Ready? && c.own.InClose?
    ensures Inv(Put(s, f, c).(worker := Busy(f, OnLastWrite)))
  {
    assert Put(s, f, c).conns[f] == c;
    WorkerToLastWrite(Put(s, f, c), f);
  }

  lemma LastWriteShape(s: State, f: Fd, e: Cqe)
    requires Sound(s, f) && 0 <= e.res <= |s.conns[f].outbound.data|
    ensures Flush(Settle(s, f, e.idx), f, e.res, OnLastWrite)
         == Put(s, f, Flushed(s.conns[f], e)).(worker := Busy(f, OnLastWrite))
  {
    PutPut(s, f, Settle(s, f, e.idx).conns[f], Flushed(s.conns[f], e));
  }

  lemma LastWriteOwner(s: State)
    requires ConnsOk(s.conns, s.submitted, s.inflight) && OutOk(OwnersOf(s.conns), s.submitted, s.inflight, s.cq)
    requires s.cq != [] && s.cq[0].idx < |s.submitted|
    requires var q := s.submitted[s.cq[0].idx]; q.fd in s.conns && s.conns[q.fd].state.Closing? && q.kind.Send?
    ensures s.conns[s.submitted[s.cq[0].idx].fd].own == InSendClose(s.cq[0].idx)
  {
    var f := s.submitted[s.cq[0].idx].fd;
    OwnerByKind(s, s.cq[0].idx);
    assert ConnOk(s.conns[f], f, s.submitted, s.inflight);
  }

  lemma WorkerToLastWrite(s: State, f: Fd)
    requires Inv(s) && s.worker.Ready? && f in s.conns && s.conns[f].own.InClose?
    ensures Inv(s.(worker := Busy(f, OnLastWrite)))
  {
  }

  lemma CloseInv(s: State)
    requires Inv(s) && s.cq != [] && s.worker.Ready? && s.cq[0].res >= 0
    requires var q := s.submitted[s.cq[0].idx]; Sound(s, q.fd) && q.kind.Close?
    ensures var e := s.cq[0];
            var f := s.submitted[e.idx].fd;
            Inv(CloseConn(Settle(s.(cq := s.cq[1..]), f, e.idx), f))
  {
    FirstAnswer(s);
    var e := s.cq[0];
    var f := s.submitted[e.idx].fd;
    assert ConnOk(s.conns[f], f, s.submitted, s.inflight);
    Settled(s, s.conns[f].(own := Nobody));
    Release(Settle(s.(cq := s.cq[1..]), f, e.idx), f);
  }

  /** The state of the connection agrees with the kind of entry that was answered. */
  lemma StateByKind(s: State)
    requires Inv(s) && s.cq != []
    ensures s.cq[0].idx < |s.submitted|
    ensures var q := s.submitted[s.cq[0].idx];
            && Sound(s, q.fd)
            && match s.conns[q.fd].state
               case Reading => q.kind.Recv?
               case Writing => q.kind.Send?
               case Closing => q.kind.Send? || q.kind.Close?
               case Invalid => false
  {
    FirstAnswer(s);
    OwnerByKind(s, s.cq[0].idx);
    var f := s.submitted[s.cq[0].idx].fd;
    assert ConnOk(s.conns[f], f, s.submitted, s.inflight);
  }

  lemma DispatchInv(s: State, env: Env)
    requires Inv(s)
    ensures Inv(Dispatch(s, env))
  {
    if s.cq != [] && s.worker.Ready? {
      StateByKind(s);
      if s.cq[0].res < 0 { FailedInv(s); } else { AnsweredInv(s, env); }
    }
  }

  lemma AnsweredInv(s: State, env: Env)
    requires Inv(s) && s.cq != [] && s.worker.Ready? && s.cq[0].res >= 0
    ensures Inv(Dispatch(s, env))
  {
    StateByKind(s);
    var q := s.submitted[s.cq[0].idx];
    if s.conns[q.fd].state.Reading? {
      ReadInv(s, env);
    } else if s.conns[q.fd].state.Writing? {
      WriteInv(s);
    } else if q.kind.Close? {
      CloseInv(s);
    } else {
      LastWriteInv(s, q.fd, s.cq[0]);
    }
    AnsweredShape(s, env);
  }

  lemma AnsweredShape(s: State, env: Env)
    requires s.cq != [] && s.worker.Ready? && s.cq[0].res >= 0 && s.cq[0].idx < |s.submitted|
    requires Sound(s, s.submitted[s.cq[0].idx].fd)
    ensures var e, q := s.cq[0], s.submitted[s.cq[0].idx];
            var s1 := Settle(s.(cq := s.cq[1..]), q.fd, e.idx);
            Dispatch(s, env) == match s.conns[q.fd].state
                                case Reading => HandleRead(s1, q.fd, e, env)
                                case Writing => Flush(s1, q.fd, e.res, OnWrite)
                                case Closing =>
                                  if q.kind.Close? then CloseConn(s1, q.fd)
                                  else if q.kind.Send? then Flush(s1, q.fd, e.res, OnLastWrite)
                                  else s1
                                case Invalid => s1.(fault := true)
  {
  }

  // ---------------------------------------------------------------- handlers

  lemma AcceptInv(s: State, fd: Fd, inbound: Region, outbound: Region)
    requires Inv(s) && s.worker.Ready? && fd !in s.conns && fd >= STDERR
    ensures Inv(AcceptConn(s, fd, inbound, outbound))
  {
    var s' := AcceptConn(s, fd, inbound, outbound);
    var c := s'.conns[fd];
    OwnersPut(s.conns, fd, c);
    AcceptOut(OwnersOf(s.conns), s.submitted, s.inflight, s.cq, fd, c.own);
    AcceptTokens(OwnersOf(s.conns), s.worker, s.tasks, s.asyncOpQueue, fd);
    AcceptConns(s, fd, c);
    AcceptIds(s.conns, s.accepted, s.closes, fd, c);
  }

  lemma AcceptConns(s: State, fd: Fd, c: Conn)
    requires ConnsOk(s.conns, s.submitted, s.inflight) && RepliesOk(s.conns, s.submitted, s.cq)
    requires fd !in s.conns && ConnOk(c, fd, s.submitted, s.inflight)
    ensures ConnsOk(s.conns[fd := c], s.submitted, s.inflight) && RepliesOk(s.conns[fd := c], s.submitted, s.cq)
  {
    assert forall k :: 0 <= k < |s.cq| ==> ReplyOk(s.conns, s.submitted, s.cq[k]);
  }

  lemma AcceptIds(conns: map<Fd, Conn>, accepted: nat, closes: seq<nat>, fd: Fd, c: Conn)
    requires IdsOk(conns, accepted, closes) && CountOk(conns.Keys, accepted, closes) && fd !in conns && c.id == accepted
    ensures IdsOk(conns[fd := c], accepted + 1, closes) && CountOk(conns[fd := c].Keys, accepted + 1, closes)
  {
    assert conns[fd := c].Keys == conns.Keys + {fd};
  }

  lemma AcceptTokens(owners: Owners, worker: Worker, tasks: multiset<Fd>, queue: seq<Fd>, fd: Fd)
    requires TokensOk(owners, worker, tasks, queue) && worker.Ready? && fd !in owners
    ensures TokensOk(owners[fd := Callback], Busy(fd, OnAccept), tasks, queue)
  {
  }

  lemma AcceptOut(owners: Owners, submitted: seq<Sqe>, inflight: set<nat>, cq: seq<Cqe>, fd: Fd, o: Owner)
    requires OutOk(owners, submitted, inflight, cq) && ClaimsOk(owners, submitted, inflight, cq)
    requires fd !in owners && Claims(o) == {}
    ensures OutOk(owners[fd := o], submitted, inflight, cq) && ClaimsOk(owners[fd := o], submitted, inflight, cq)
  {
    assert forall n :: Claimed(owners, submitted, n) ==> Claimed(owners[fd := o], submitted, n);
  }

  lemma WorkerReady(s: State)
    requires Inv(s) && s.worker.Busy? && s.worker.event.OnLastWrite?
    ensures Inv(s.(worker := Ready))
  {
  }

  lemma BusyOwner(s: State)
    requires Inv(s) && s.worker.Busy?
    ensures Sound(s, s.worker.fd) && (!s.worker.event.OnLastWrite? ==> s.conns[s.worker.fd].own.Callback?)
  {
    var f := s.worker.fd;
    assert f in OwnersOf(s.conns);
    assert ConnOk(s.conns[f], f, s.submitted, s.inflight);
  }

  lemma ReturnInv(s: State, env: Env)
    requires Inv(s) && s.worker.Busy?
    ensures Inv(ReturnCallback(s, env))
  {
    BusyOwner(s);
    if s.worker.event.OnLastWrite? {
      WorkerReady(s);
    } else {
      FromCallback(s, s.worker.fd);
      AfterCallback(Take(s.(worker := Ready), s.worker.fd, Nobody), s.worker.fd, s.worker.event, env);
      ReturnShape(s, env);
    }
  }

  lemma ReturnShape(s: State, env: Env)
    requires s.worker.Busy? && Sound(s, s.worker.fd) && !s.worker.event.OnLastWrite?
    ensures var s1 := Take(s.(worker := Ready), s.worker.fd, Nobody);
            Sound(s1, s.worker.fd) && ReturnCallback(s, env) == AfterEvent(s1, s.worker.fd, s.worker.event, env)
  {
  }

  lemma AfterCallback(s: State, f: Fd, event: Event, env: Env)
    requires Inv(s) && f in s.conns && s.conns[f].own.Nobody?
    ensures Sound(s, f) && Inv(AfterEvent(s, f, event, env))
  {
    assert ConnOk(s.conns[f], f, s.submitted, s.inflight);
    if env.sqe {
      AddNextInv(s, f, env.region);
    } else if !event.OnAccept? {
      Release(s, f);
    }
  }

  lemma PopInv(s: State, env: Env)
    requires Inv(s) && s.worker.Ready? && s.asyncOpQueue != []
    ensures Inv(PopAsync(s, env))
  {
    FromQueue(s);
    var f := s.asyncOpQueue[0];
    assert ConnOk(s.conns[f], f, s.submitted, s.inflight);
    if env.sqe { AddAsyncInv(Take(s.(asyncOpQueue := s.asyncOpQueue[1..]), f, Nobody), f, env.region); }
  }

  lemma AddAsyncInv(s: State, f: Fd, region: nat)
    requires Inv(s) && Sound(s, f) && s.conns[f].own.Nobody? && (s.conns[f].nextAsyncOp.CloseOp? ==> s.conns[f].closed)
    ensures Inv(AddAsync(s, f, region))
  {
    match s.conns[f].nextAsyncOp {
      case ReadOp => AddReadInv(s, f, region);
      case WriteOp => if s.conns[f].closed { AddWriteCloseInv(s, f); } else { AddWriteInv(s, f); }
      case CloseOp => AddCloseInv(s, f);
      case NoOp =>
    }
  }

  // ---------------------------------------------------------------- user calls

  /** A call that passes `userOpAllowed` finds the connection outside the kernel's hands. */
  lemma NotInKernel(c: Conn, f: Fd, submitted: seq<Sqe>, inflight: set<nat>)
    requires ConnOk(c, f, submitted, inflight) && UserOpAllowed(c)
    ensures Claims(c.own) == {} && c.taken == 0 && c.arrived == []
  {
  }

  /** A user call that changes only the rings and what was written and consumed. */
  lemma UserTouch(s: State, f: Fd, c: Conn)
    requires Inv(s) && f in s.conns && UserOpAllowed(s.conns[f]) && c.inbound.Ok() && c.outbound.Ok()
    requires c == s.conns[f].(inbound := c.inbound, outbound := c.outbound, written := c.written, consumed := c.consumed,
                              regions := c.regions, spoiled := c.spoiled)
    requires !c.spoiled ==> c.written == c.sent + c.outbound.data && c.received == c.consumed + c.inbound.data
    ensures Inv(Put(s, f, c))
  {
    assert ConnOk(s.conns[f], f, s.submitted, s.inflight);
    NotInKernel(s.conns[f], f, s.submitted, s.inflight);
    assert c.outbound.data[0..] == c.outbound.data && c.inbound.data + [] == c.inbound.data;
    assert c.consumed + c.inbound.data + [] == c.consumed + c.inbound.data;
    Touch(s, f, c);
  }

  /** What a connection outside the kernel's hands has. */
  lemma UserFlow(c: Conn, f: Fd, submitted: seq<Sqe>, inflight: set<nat>)
    requires ConnOk(c, f, submitted, inflight) && UserOpAllowed(c) && !c.spoiled
    ensures c.written == c.sent + c.outbound.data && c.received == c.consumed + c.inbound.data
  {
    NotInKernel(c, f, submitted, inflight);
    assert c.outbound.data[0..] == c.outbound.data;
  }

  lemma UserWriteInv(s: State, f: Fd, bytes: seq<Byte>, region: nat)
    requires Inv(s)
    ensures Inv(UserWrite(s, f, bytes, region))
  {
    if Sound(s, f) && UserOpAllowed(s.conns[f]) {
      var c := s.conns[f];
      assert ConnOk(c, f, s.submitted, s.inflight);
      if !c.spoiled { UserFlow(c, f, s.submitted, s.inflight); }
      WrittenShape(s, f, bytes, region);
      UserTouch(s, f, UserWrite(s, f, bytes, region).conns[f]);
    }
  }

  lemma WrittenShape(s: State, f: Fd, bytes: seq<Byte>, region: nat)
    requires Sound(s, f) && UserOpAllowed(s.conns[f])
    ensures var c, s' := s.conns[f], UserWrite(s, f, bytes, region);
            && f in s'.conns && s' == Put(s, f, s'.conns[f])
            && var c' := s'.conns[f];
               && c' == c.(outbound := c'.outbound, written := c.written + bytes, regions := c'.regions, spoiled := c'.spoiled)
               && c'.outbound.Ok() && (c.spoiled ==> c'.spoiled)
               && c.sent + c.outbound.data + bytes == c.sent + c'.outbound.data
  {
  }

  lemma UserReadInv(s: State, f: Fd, n: nat)
    requires Inv(s)
    ensures Inv(UserRead(s, f, n))
  {
    if f in s.conns && UserOpAllowed(s.conns[f]) {
      var c := s.conns[f];
      assert ConnOk(c, f, s.submitted, s.inflight);
      if !c.spoiled { UserFlow(c, f, s.submitted, s.inflight); }
      ReadShape(s, f, n);
      UserTouch(s, f, UserRead(s, f, n).conns[f]);
    }
  }

  lemma ReadShape(s: State, f: Fd, n: nat)
    requires Sound(s, f) && UserOpAllowed(s.conns[f])
    ensures var c, s' := s.conns[f], UserRead(s, f, n);
            && f in s'.conns && s' == Put(s, f, s'.conns[f]) && s'.conns[f].inbound.Ok()
            && s'.conns[f] == c.(inbound := s'.conns[f].inbound, consumed := s'.conns[f].consumed)
            && c.consumed + c.inbound.data == s'.conns[f].consumed + s'.conns[f].inbound.data
  {
  }

  lemma UserReadFromInv(s: State, f: Fd, chunks: seq<seq<Byte>>, junk: seq<Byte>, regions: seq<nat>)
    requires Inv(s)
    ensures Inv(UserReadFrom(s, f, chunks, junk, regions))
  {
    if Sound(s, f) && UserOpAllowed(s.conns[f]) && chunks != [] {
      var c := s.conns[f];
      if !Stuck(c.outbound, chunks) {
        ReadFromInv(s, f, chunks, Obtain(c, Answers(ReadAsks(c.outbound, chunks, s.page), regions)));
      } else if |junk| == Roomy(c.outbound, s.page).cap {
        var asked := RoomyAsks(c.outbound, s.page) + ReadAsks(Ring(junk, |junk|), chunks[1..], s.page);
        StuckInv(s, f, chunks, junk, Obtain(c, Answers(asked, regions)));
      }
    }
  }

  /** The connection with new regions. */
  ghost predicate Relocated(c: Conn, c': Conn) {
    c' == c.(regions := c'.regions, spoiled := c'.spoiled) && (c.spoiled ==> c'.spoiled)
  }

  lemma ReadFromInv(s: State, f: Fd, chunks: seq<seq<Byte>>, c: Conn)
    requires Inv(s) && Sound(s, f) && UserOpAllowed(s.conns[f]) && Relocated(s.conns[f], c)
    ensures var (outbound, got) := ReadAll(s.conns[f].outbound, chunks, s.page);
            Inv(Put(s, f, c.(outbound := outbound, written := c.written + got)))
  {
    var (outbound, got) := ReadAll(s.conns[f].outbound, chunks, s.page);
    assert ConnOk(s.conns[f], f, s.submitted, s.inflight);
    if !c.spoiled {
      UserFlow(s.conns[f], f, s.submitted, s.inflight);
      assert c.sent + c.outbound.data + got == c.sent + (c.outbound.data + got);
    }
    UserTouch(s, f, c.(outbound := outbound, written := c.written + got));
  }

  lemma StuckInv(s: State, f: Fd, chunks: seq<seq<Byte>>, junk: seq<Byte>, c: Conn)
    requires Inv(s) && Sound(s, f) && UserOpAllowed(s.conns[f]) && Relocated(s.conns[f], c) && chunks != []
    ensures var (outbound, got) := ReadAll(Ring(junk, |junk|), chunks[1..], s.page);
            Inv(Put(s, f, c.(outbound := outbound, written := c.written + got, spoiled := true)))
  {
    var (outbound, got) := ReadAll(Ring(junk, |junk|), chunks[1..], s.page);
    UserTouch(s, f, c.(outbound := outbound, written := c.written + got, spoiled := true));
  }

  lemma UserWriteToInv(s: State, f: Fd, n: nat)
    requires Inv(s)
    ensures Inv(UserWriteTo(s, f, n))
  {
    UserReadInv(s, f, n);
    if f in s.conns && UserOpAllowed(s.conns[f]) && n == 0 && |s.conns[f].inbound.data| == s.conns[f].inbound.cap > 0 {
      assert ConnOk(s.conns[f], f, s.submitted, s.inflight);
      UserTouch(s, f, UserWriteTo(s, f, n).conns[f]);
    }
  }

  lemma UserDiscardInv(s: State, f: Fd, n: int, left: seq<Byte>)
    requires Inv(s)
    ensures Inv(UserDiscard(s, f, n, left))
  {
    if n >= 0 {
      UserReadInv(s, f, n);
    } else if f in s.conns && UserOpAllowed(s.conns[f]) && MovedBack(s.conns[f].inbound, left) {
      assert ConnOk(s.conns[f], f, s.submitted, s.inflight);
      UserTouch(s, f, s.conns[f].(inbound := s.conns[f].inbound.(data := left), spoiled := true));
    }
  }

  lemma MisreadInv(s: State, f: Fd, inbound: seq<Byte>, outbound: seq<Byte>)
    requires Inv(s)
    ensures Inv(Misread(s, f, inbound, outbound))
  {
    if Misread(s, f, inbound, outbound) != s {
      assert ConnOk(s.conns[f], f, s.submitted, s.inflight);
      UserTouch(s, f, Misread(s, f, inbound, outbound).conns[f]);
    }
  }

  lemma UserCloseInv(s: State, f: Fd)
    requires Inv(s)
    ensures Inv(UserClose(s, f))
  {
    if f in s.conns {
      assert ConnOk(s.conns[f], f, s.submitted, s.inflight);
      Touch(s, f, s.conns[f].(closed := true));
    }
  }

  lemma StartTaskInv(s: State, f: Fd)
    requires Inv(s)
    ensures Inv(StartTask(s, f))
  {
    if f in s.tasks && f in s.conns {
      TokenTaskToQueue(OwnersOf(s.conns), s.worker, s.tasks, s.asyncOpQueue, f);
      assert ConnOk(s.conns[f], f, s.submitted, s.inflight);
      Touch(s, f, s.conns[f].(mode := UserSpace));
    }
  }

  lemma UserRingInv(s: State, a: Action)
    requires Inv(s) && (a.AWrite? || a.ARead? || a.AReadFrom?)
    ensures Inv(Step(s, a))
  {
    if a.AWrite? {
      UserWriteInv(s, a.fd, a.bytes, a.region);
    } else if a.ARead? {
      UserReadInv(s, a.fd, a.n);
    } else {
      UserReadFromInv(s, a.fd, a.chunks, a.junk, a.regions);
    }
  }

  lemma UserDropInv(s: State, a: Action)
    requires Inv(s) && (a.AWriteTo? || a.ADiscard? || a.AMisread? || a.AClose?)
    ensures Inv(Step(s, a))
  {
    if a.AWriteTo? {
      UserWriteToInv(s, a.fd, a.n);
    } else if a.ADiscard? {
      UserDiscardInv(s, a.fd, a.back, a.left);
    } else if a.AMisread? {
      MisreadInv(s, a.fd, a.inbound, a.outbound);
    } else {
      UserCloseInv(s, a.fd);
    }
  }

  lemma AnyReturnInv(s: State, env: Env)
    requires Inv(s)
    ensures Inv(ReturnCallback(s, env))
  {
    if s.worker.Busy? { ReturnInv(s, env); }
  }

  lemma AnyPopInv(s: State, env: Env)
    requires Inv(s)
    ensures Inv(PopAsync(s, env))
  {
    if s.worker.Ready? && s.asyncOpQueue != [] { PopInv(s, env); }
  }

  lemma TaskStepInv(s: State, a: Action)
    requires Inv(s) && (a.AStartTask? || a.AReturnTask?)
    ensures Inv(Step(s, a))
  {
    if a.AStartTask? { StartTaskInv(s, a.fd); } else { ReturnTaskInv(s, a.fd); }
  }

  lemma KernelStepInv(s: State, a: Action)
    requires Inv(s) && (a.AAccept? || a.AComplete?)
    ensures Inv(Step(s, a))
  {
    if a.AAccept? {
      if s.worker.Ready? && a.fd !in s.conns && a.fd >= STDERR { AcceptInv(s, a.fd, a.inRegion, a.outRegion); }
    } else {
      if Allowed(s, a.idx, a.res, a.data) { CompleteInv(s, a.idx, a.res, a.data, a.more); }
    }
  }

  /** Every step keeps the invariant. */
  lemma StepInv(s: State, a: Action)
    requires Inv(s)
    ensures Inv(Step(s, a))
  {
    if a.AAccept? || a.AComplete? {
      KernelStepInv(s, a);
    } else if a.ADispatch? {
      DispatchInv(s, a.env);
    } else if a.AReturn? {
      AnyReturnInv(s, a.env);
    } else if a.APop? {
      AnyPopInv(s, a.env);
    } else if a.AStartTask? || a.AReturnTask? {
      TaskStepInv(s, a);
    } else if a.AWrite? || a.ARead? || a.AReadFrom? {
      UserRingInv(s, a);
    } else {
      UserDropInv(s, a);
    }
  }
}
