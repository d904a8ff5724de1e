/** What every step of a run does: which request follows a callback, which handler a completion
    starts, and what a user call moves. Stated on the entries submitted, the handlers running,
    the connections closed and the bytes in the rings. */
module ConnResponses {
  import opened ByteRing
  import opened ConnProtocol
  import opened ConnInvariant
  import opened ConnSteps
  import opened ConnFrames
  import opened ConnTheorems
  import opened ConnProgress

  // ---------------------------------------------------------------- which request comes next

  /** What a connection needs: to send what is buffered, then to close if the user asked for it,
      else to read. */
  function Wanted(c: Conn): Kind {
    if c.outbound.data != [] then Send else if c.closed then Close else Recv
  }

  /** The entries for it; a write of a closed connection is linked to its close. */
  function Entries(kind: Kind, c: Conn, fd: Fd, room: nat): seq<Sqe> {
    match kind
    case Recv => [Sqe(Recv, fd, room, false)]
    case Send =>
      if c.closed then [Sqe(Send, fd, |c.outbound.data|, true), Sqe(Close, fd, 0, false)]
      else [Sqe(Send, fd, |c.outbound.data|, false)]
    case Close => [Sqe(Close, fd, 0, false)]
  }

  /** The step submits these entries for `fd`, made for the rings as they are then, and moves no
      data. */
  ghost predicate Submits(s: State, s': State, fd: Fd, kind: Kind) {
    && fd in s.conns && fd in s'.conns && s'.closes == s.closes
    && var c, c' := s.conns[fd], s'.conns[fd];
       && c'.inbound.data == c.inbound.data && c'.outbound.data == c.outbound.data
       && c'.inbound.Ok() && (kind.Recv? ==> c'.inbound.Free() >= MIN_READ)
       && s'.submitted == s.submitted + Entries(kind, c, fd, c'.inbound.Free())
  }

  /** The connection is released, and `OnClose` is called for it. */
  ghost predicate Releases(s: State, s': State, fd: Fd) {
    fd in s.conns && fd !in s'.conns && s'.closes == s.closes + [s.conns[fd].id] && s'.submitted == s.submitted
  }

  /** Nothing is submitted and nothing is closed. */
  ghost predicate Quiet(s: State, s': State, fd: Fd) {
    fd in s.conns && fd in s'.conns && s'.submitted == s.submitted && s'.closes == s.closes
  }

  lemma NextSubmits(s: State, fd: Fd, region: nat)
    requires Sound(s, fd)
    ensures Submits(s, AddNext(s, fd, region), fd, Wanted(s.conns[fd])) && AddNext(s, fd, region).worker == s.worker
  {
    if s.conns[fd].outbound.data != [] && s.conns[fd].closed { PairSubmits(s, fd); }
  }

  lemma PairSubmits(s: State, fd: Fd)
    requires Sound(s, fd) && s.conns[fd].closed
    ensures Submits(s, AddWriteClose(s, fd), fd, Send) && AddWriteClose(s, fd).worker == s.worker
  {
    SubmitTwice(s, Sqe(Send, fd, |s.conns[fd].outbound.data|, true), Sqe(Close, fd, 0, false));
  }

  /** The callback the worker is in returns: the connection gets the request it needs. Without an
      entry for it, it is closed, or left alone if it is new. After its last write it has
      nothing to ask for. */
  ghost predicate Returned(s: State, s': State, env: Env) {
    && s.worker.Busy? && s'.worker == Ready && s.worker.fd in s.conns
    && var fd, event := s.worker.fd, s.worker.event;
       if event.OnLastWrite? then Quiet(s, s', fd) && s'.conns[fd] == s.conns[fd]
       else if env.sqe then Submits(s, s', fd, Wanted(s.conns[fd]))
       else if event.OnAccept? then Quiet(s, s', fd)
       else Releases(s, s', fd)
  }

  lemma ReturnResponds(async: bool, page: nat, schedule: seq<Action>, env: Env)
    requires page > 0 && Run(async, page, schedule).worker.Busy?
    ensures Returned(Run(async, page, schedule), Step(Run(async, page, schedule), AReturn(env)), env)
  {
    RunInv(async, page, schedule);
    ReturnStep(Run(async, page, schedule), env);
  }

  lemma ReturnStep(s: State, env: Env)
    requires Inv(s) && s.worker.Busy?
    ensures Returned(s, Step(s, AReturn(env)), env)
  {
    BusyOwner(s);
    Returning(s, env);
  }

  lemma Returning(s: State, env: Env)
    requires s.worker.Busy? && Sound(s, s.worker.fd)
    ensures Returned(s, ReturnCallback(s, env), env)
  {
    if !s.worker.event.OnLastWrite? && env.sqe {
      NextSubmits(Take(s.(worker := Ready), s.worker.fd, Nobody), s.worker.fd, env.region);
    }
  }

  // ---------------------------------------------------------------- asynchronous handlers

  /** The task of `fd` can return. */
  predicate CanReturn(s: State, fd: Fd) {
    fd in s.tasks && fd in s.conns && s.conns[fd].mode.UserSpace?
  }

  /** What the connection of `fd` needed when its handler last returned. */
  function Chosen(async: bool, page: nat, schedule: seq<Action>, fd: Fd): Kind {
    if schedule == [] then Recv
    else
      var before, a := schedule[..|schedule| - 1], schedule[|schedule| - 1];
      var s := Run(async, page, before);
      if a == AReturnTask(fd) && CanReturn(s, fd) then Wanted(s.conns[fd]) else Chosen(async, page, before, fd)
  }

  function OpFor(kind: Kind): AsyncOp {
    match kind
    case Recv => ReadOp
    case Send => WriteOp
    case Close => CloseOp
  }

  ghost predicate Remembers(s: State, fd: Fd, kind: Kind) {
    fd in s.conns && s.conns[fd].own.Queued? ==> s.conns[fd].nextAsyncOp == OpFor(kind)
  }

  lemma DispatchNotQueued(s: State, env: Env, fd: Fd)
    requires Inv(s) && Touches(s, ADispatch(env), fd) && fd in Dispatch(s, env).conns
    ensures !Dispatch(s, env).conns[fd].own.Queued?
  {
    FirstClaims(s);
    FirstAnswer(s);
    if s.worker.Ready? {
      if s.cq[0].res < 0 {
        FailureShape(s, env);
      } else {
        HandledNotQueued(Settle(s.(cq := s.cq[1..]), fd, s.cq[0].idx), fd, s.cq[0], s.submitted[s.cq[0].idx].kind, env);
      }
    }
  }

  lemma HandledNotQueued(s: State, fd: Fd, e: Cqe, kind: Kind, env: Env)
    requires Sound(s, fd) && e.res >= 0 && !s.conns[fd].own.Queued?
    ensures fd in HandleConn(s, fd, e, kind, env).conns ==> !HandleConn(s, fd, e, kind, env).conns[fd].own.Queued?
  {
    match s.conns[fd].state {
      case Reading => ReadNotQueued(s, fd, e, env);
      case Writing => FlushNotQueued(s, fd, e.res, OnWrite);
      case Closing => FlushNotQueued(s, fd, e.res, OnLastWrite);
      case Invalid =>
    }
  }

  lemma ReadNotQueued(s: State, fd: Fd, e: Cqe, env: Env)
    requires Sound(s, fd) && !s.conns[fd].own.Queued?
    ensures fd in HandleRead(s, fd, e, env).conns ==> !HandleRead(s, fd, e, env).conns[fd].own.Queued?
  {
    if e.res > 0 && |e.data| <= s.conns[fd].inbound.Free() { AfterReadNotQueued(Fill(s, fd, e.data), fd, e.more, env); }
  }

  lemma FlushNotQueued(s: State, fd: Fd, res: nat, event: Event)
    requires Sound(s, fd) && !s.conns[fd].own.Queued?
    ensures fd in Flush(s, fd, res, event).conns ==> !Flush(s, fd, res, event).conns[fd].own.Queued?
  {
  }

  lemma AfterReadNotQueued(s: State, fd: Fd, more: bool, env: Env)
    requires Sound(s, fd)
    ensures fd in AfterRead(s, fd, more, env).conns ==> !AfterRead(s, fd, more, env).conns[fd].own.Queued?
  {
  }

  lemma NextNotQueued(s: State, fd: Fd, region: nat)
    requires Sound(s, fd) && !s.conns[fd].own.Queued?
    ensures fd in AddNext(s, fd, region).conns ==> !AddNext(s, fd, region).conns[fd].own.Queued?
  {
  }

  lemma AsyncNotQueued(s: State, fd: Fd, region: nat)
    requires Sound(s, fd) && !s.conns[fd].own.Queued?
    ensures fd in AddAsync(s, fd, region).conns ==> !AddAsync(s, fd, region).conns[fd].own.Queued?
  {
  }

  lemma ReturnNotQueued(s: State, env: Env)
    requires s.worker.Busy? && Sound(s, s.worker.fd) && (s.worker.event.OnLastWrite? ==> s.conns[s.worker.fd].own.InClose?)
    ensures var fd := s.worker.fd;
            fd in ReturnCallback(s, env).conns ==> !ReturnCallback(s, env).conns[fd].own.Queued?
  {
    if !s.worker.event.OnLastWrite? {
      NextNotQueued(Take(s.(worker := Ready), s.worker.fd, Nobody), s.worker.fd, env.region);
    }
  }

  lemma PopNotQueued(s: State, env: Env)
    requires s.asyncOpQueue != [] && s.worker.Ready? && Sound(s, s.asyncOpQueue[0])
    ensures var fd := s.asyncOpQueue[0]; fd in PopAsync(s, env).conns ==> !PopAsync(s, env).conns[fd].own.Queued?
  {
    var fd := s.asyncOpQueue[0];
    AsyncNotQueued(Take(s.(asyncOpQueue := s.asyncOpQueue[1..]), fd, Nobody), fd, env.region);
  }

  lemma WorkerRemembers(s: State, a: Action, fd: Fd, kind: Kind)
    requires Inv(s) && WorkerStep(a) && Touches(s, a, fd) && Remembers(s, fd, kind)
    ensures Remembers(Step(s, a), fd, kind)
  {
    if a.ADispatch? {
      if fd in Step(s, a).conns { DispatchNotQueued(s, a.env, fd); }
    } else if a.AReturn? {
      BusyOwner(s);
      if s.worker.event.OnLastWrite? { BusyLast(s); }
      ReturnNotQueued(s, a.env);
    } else {
      QueueHead(s);
      if s.worker.Ready? { PopNotQueued(s, a.env); }
    }
  }

  lemma BusyLast(s: State)
    requires TokensOk(OwnersOf(s.conns), s.worker, s.tasks, s.asyncOpQueue) && s.worker.Busy? && s.worker.event.OnLastWrite?
    ensures s.worker.fd in s.conns && s.conns[s.worker.fd].own.InClose?
  {
  }

  lemma OtherRemembers(s: State, a: Action, fd: Fd, kind: Kind)
    requires !WorkerStep(a) && Touches(s, a, fd) && Remembers(s, fd, kind)
    requires !(a == AReturnTask(fd) && CanReturn(s, fd))
    ensures Remembers(Step(s, a), fd, kind)
  {
    if UserCall(a) { UserAlike(s, a, fd); }
  }

  lemma StepRemembers(s: State, a: Action, fd: Fd, kind: Kind)
    requires Inv(s) && Remembers(s, fd, kind)
    ensures Remembers(Step(s, a), fd, if a == AReturnTask(fd) && CanReturn(s, fd) then Wanted(s.conns[fd]) else kind)
  {
    if a == AReturnTask(fd) && CanReturn(s, fd) {
      TaskShape(s, fd);
    } else if !Touches(s, a, fd) {
      StepSame(s, a, fd);
    } else if WorkerStep(a) {
      WorkerRemembers(s, a, fd, kind);
    } else {
      OtherRemembers(s, a, fd, kind);
    }
  }

  lemma {:induction false} RunRemembers(async: bool, page: nat, schedule: seq<Action>, fd: Fd)
    requires page > 0
    ensures Remembers(Run(async, page, schedule), fd, Chosen(async, page, schedule, fd))
  {
    if schedule != [] {
      var before, a := schedule[..|schedule| - 1], schedule[|schedule| - 1];
      RunRemembers(async, page, before, fd);
      RunInv(async, page, before);
      StepRemembers(Run(async, page, before), a, fd, Chosen(async, page, before, fd));
    }
  }

  /** A connection comes to the front of the asynchronous queue: it gets the request it needed
      when its handler returned, made for its rings as they are now. Without an entry it is
      dropped from the queue. */
  ghost predicate Popped(s: State, s': State, env: Env, kind: Kind) {
    && s.asyncOpQueue != [] && s'.asyncOpQueue == s.asyncOpQueue[1..]
    && if env.sqe then Submits(s, s', s.asyncOpQueue[0], kind) else Quiet(s, s', s.asyncOpQueue[0])
  }

  lemma PopResponds(async: bool, page: nat, schedule: seq<Action>, env: Env)
    requires page > 0 && Run(async, page, schedule).worker.Ready? && Run(async, page, schedule).asyncOpQueue != []
    ensures var s := Run(async, page, schedule);
            Popped(s, Step(s, APop(env)), env, Chosen(async, page, schedule, s.asyncOpQueue[0]))
  {
    var s := Run(async, page, schedule);
    RunInv(async, page, schedule);
    RunRemembers(async, page, schedule, s.asyncOpQueue[0]);
    PopStep(s, env, Chosen(async, page, schedule, s.asyncOpQueue[0]));
  }

  lemma PopStep(s: State, env: Env, kind: Kind)
    requires Inv(s) && s.worker.Ready? && s.asyncOpQueue != [] && Remembers(s, s.asyncOpQueue[0], kind)
    ensures Popped(s, Step(s, APop(env)), env, kind)
  {
    QueueHead(s);
    PopShape(s, env, kind);
  }

  lemma QueueHead(s: State)
    requires Inv(s) && s.asyncOpQueue != []
    ensures Sound(s, s.asyncOpQueue[0]) && s.conns[s.asyncOpQueue[0]].own.Queued?
  {
    TokenFromQueue(OwnersOf(s.conns), s.worker, s.tasks, s.asyncOpQueue);
    SoundOf(s, s.asyncOpQueue[0]);
  }

  lemma PopShape(s: State, env: Env, kind: Kind)
    requires s.worker.Ready? && s.asyncOpQueue != [] && Sound(s, s.asyncOpQueue[0])
    requires s.conns[s.asyncOpQueue[0]].nextAsyncOp == OpFor(kind)
    ensures Popped(s, PopAsync(s, env), env, kind)
  {
    var fd := s.asyncOpQueue[0];
    if env.sqe { AsyncSubmits(Take(s.(asyncOpQueue := s.asyncOpQueue[1..]), fd, Nobody), fd, env.region, kind); }
  }

  lemma AsyncSubmits(s: State, fd: Fd, region: nat, kind: Kind)
    requires Sound(s, fd) && s.conns[fd].nextAsyncOp == OpFor(kind)
    ensures Submits(s, AddAsync(s, fd, region), fd, kind) && AddAsync(s, fd, region).asyncOpQueue == s.asyncOpQueue
  {
    if kind.Send? && s.conns[fd].closed { PairSubmits(s, fd); }
  }

  /** A handler that was started in a goroutine may use the connection, and when it returns the
      connection is queued. */
  ghost predicate Ran(s: State, fd: Fd) {
    && fd in s.conns && CanReturn(StartTask(s, fd), fd)
    && (CanReturn(s, fd) ==>
          var s' := ReturnTask(s, fd);
          Quiet(s, s', fd) && fd !in s'.tasks && s'.asyncOpQueue == s.asyncOpQueue + [fd])
  }

  lemma TaskResponds(async: bool, page: nat, schedule: seq<Action>, fd: Fd)
    requires page > 0 && fd in Run(async, page, schedule).tasks
    ensures Ran(Run(async, page, schedule), fd)
  {
    RunInv(async, page, schedule);
    var s := Run(async, page, schedule);
    OneTask(OwnersOf(s.conns), s.worker, s.tasks, s.asyncOpQueue, fd);
    Running(s, fd);
  }

  lemma OneTask(owners: Owners, worker: Worker, tasks: multiset<Fd>, queue: seq<Fd>, fd: Fd)
    requires TokensOk(owners, worker, tasks, queue) && fd in tasks
    ensures fd in owners && tasks[fd] == 1
  {
  }

  lemma Running(s: State, fd: Fd)
    requires s.tasks[fd] == 1 && fd in s.conns
    ensures Ran(s, fd)
  {
    if CanReturn(s, fd) { TaskShape(s, fd); }
  }
}
