/** The per-connection protocol of the stream workers (read_write_worker.go,
    consumer_worker.go, shard_worker.go, conn.go, read.go, write.go, conn_closer.go)
    against an io_uring whose answers are arbitrary.

    A run interleaves the worker, the goroutines of asynchronous handlers, user calls on
    connections and the kernel. The kernel answers every submission entry with exactly one
    completion, never transfers more than it was asked to, completes a linked close only
    after the write it is linked to, and does not hand out the descriptor of a connection
    the worker still has. It may transfer less, report the end of the stream, or fail. */
module ConnProtocol {
  import opened ByteRing

  type Fd = nat

  /** The worker ignores completions for descriptors below this one (consumer_worker.go:206-211),
      which are taken for the standard streams; connections have others. */
  const STDERR: Fd := 2

  datatype Kind = Recv | Send | Close

  /** A submission queue entry. */
  datatype Sqe = Sqe(kind: Kind, fd: Fd, len: nat, linked: bool)

  /** A completion: the number of the entry it answers, the result, the bytes received and
      the flag saying that the socket has more. */
  datatype Cqe = Cqe(idx: nat, res: int, data: seq<Byte>, more: bool)

  datatype ConnState = Invalid | Reading | Writing | Closing

  datatype Mode = KernelSpace | UserSpace

  datatype AsyncOp = NoOp | ReadOp | WriteOp | CloseOp

  /** Who is responsible for a connection; entries are named by their numbers. */
  datatype Owner =
    | Nobody
    | Callback
    | Task
    | Queued
    | InRecv(idx: nat)
    | InSend(idx: nat)
    | InSendClose(idx: nat)
    | InClose(idx: nat)

  /** What the region pool was asked for, and the size it answered with. */
  datatype Region = Region(asked: nat, got: nat)

  predicate Exact(regions: seq<Region>) {
    forall g :: g in regions ==> g.asked == g.got
  }

  /** The answers to the sizes asked for; where none is given, the very size. */
  function Answers(asked: seq<nat>, got: seq<nat>): (regions: seq<Region>) {
    seq(|asked|, i requires 0 <= i < |asked| => Region(asked[i], if i < |got| then got[i] else asked[i]))
  }

  /** What the worker meets: whether a submission queue entry can be obtained, and the size of
      the region it gets if the inbound ring has to grow. */
  datatype Env = Env(sqe: bool, region: nat)

  /** The first six fields are the connection's. The others only record what happened and
      the code never looks at them: its number in order of acceptance, its owner, the bytes received
      from the kernel, consumed by the user, written by the user and sent by the kernel,
      the part of a transfer whose completion the worker has not seen yet, the regions its
      rings have obtained, and whether a ring is out of order: because of a user call, or
      because a region does not have the size asked for. */
  datatype Conn = Conn(
    state: ConnState, mode: Mode, closed: bool, nextAsyncOp: AsyncOp, inbound: Ring, outbound: Ring,
    id: nat, own: Owner, received: seq<Byte>, consumed: seq<Byte>, written: seq<Byte>, sent: seq<Byte>,
    arrived: seq<Byte>, taken: nat, regions: seq<Region>, spoiled: bool)

  datatype Event = OnAccept | OnRead | OnWrite | OnLastWrite

  /** The worker is between events, or inside a user callback for a connection. */
  datatype Worker = Ready | Busy(fd: Fd, event: Event)

  /** `submitted` lists every entry ever submitted; `inflight` holds the numbers of those
      the kernel has not answered and `answers` the results of the others. `closes` lists the
      connections `OnClose` was called for.
      `fault` would be set by a panic, an unknown descriptor or an unknown state. */
  datatype State = State(
    async: bool, page: nat, conns: map<Fd, Conn>, worker: Worker, tasks: multiset<Fd>, asyncOpQueue: seq<Fd>,
    submitted: seq<Sqe>, inflight: set<nat>, answers: map<nat, int>, cq: seq<Cqe>, accepted: nat, closes: seq<nat>, fault: bool)

  function Init(async: bool, page: nat): State {
    State(async, page, map[], Ready, multiset{}, [], [], {}, map[], [], 0, [], false)
  }

  function Put(s: State, fd: Fd, c: Conn): State {
    s.(conns := s.conns[fd := c])
  }

  function Submit(s: State, e: Sqe): State {
    s.(submitted := s.submitted + [e], inflight := s.inflight + {|s.submitted|})
  }

  /** A connection the worker can work with: known, with rings in order. */
  predicate Sound(s: State, fd: Fd) {
    s.page > 0 && fd in s.conns && s.conns[fd].inbound.Ok() && s.conns[fd].outbound.Ok()
  }

  /** A ring of the connection has moved to the given regions. */
  function Obtain(c: Conn, regions: seq<Region>): (c': Conn)
    ensures c.spoiled ==> c'.spoiled
  {
    c.(regions := c.regions + regions, spoiled := c.spoiled || !Exact(regions))
  }

  // ---------------------------------------------------------------- requests

  /** read.go:27-51, once an entry has been obtained */
  function AddRead(s: State, fd: Fd, region: nat): State
    requires Sound(s, fd)
  {
    var inbound := Roomy(s.conns[fd].inbound, s.page);
    var c := Obtain(s.conns[fd], Answers(RoomyAsks(s.conns[fd].inbound, s.page), [region]));
    Put(Submit(s, Sqe(Recv, fd, inbound.Free(), false)), fd,
        c.(inbound := inbound, state := Reading, mode := KernelSpace, own := InRecv(|s.submitted|)))
  }

  /** write.go:27-53, without a linked close */
  function AddWrite(s: State, fd: Fd): State
    requires Sound(s, fd)
  {
    var c := s.conns[fd];
    Put(Submit(s, Sqe(Send, fd, |c.outbound.data|, false)), fd,
        c.(state := Writing, mode := KernelSpace, own := InSend(|s.submitted|)))
  }

  /** write.go:27-53 with the link flag, followed by conn_closer.go:43-51 */
  function AddWriteClose(s: State, fd: Fd): State
    requires Sound(s, fd)
  {
    var c := s.conns[fd];
    Put(Submit(Submit(s, Sqe(Send, fd, |c.outbound.data|, true)), Sqe(Close, fd, 0, false)), fd,
        c.(state := Closing, mode := KernelSpace, own := InSendClose(|s.submitted|)))
  }

  /** conn_closer.go:43-51 */
  function AddClose(s: State, fd: Fd): State
    requires Sound(s, fd)
  {
    Put(Submit(s, Sqe(Close, fd, 0, false)), fd, s.conns[fd].(state := Closing, own := InClose(|s.submitted|)))
  }

  /** read_write_worker.go:217-248, and the same choice on lines 198-211 */
  function AddNext(s: State, fd: Fd, region: nat): State
    requires Sound(s, fd)
  {
    var c := s.conns[fd];
    if |c.outbound.data| > 0 then (if c.closed then AddWriteClose(s, fd) else AddWrite(s, fd))
    else if c.closed then AddClose(s, fd)
    else AddRead(s, fd, region)
  }

  /** read_write_worker.go:250-263: `OnClose` is called and the connection is released. */
  function CloseConn(s: State, fd: Fd): State
    requires fd in s.conns
  {
    s.(conns := s.conns - {fd}, closes := s.closes + [s.conns[fd].id])
  }

  // ---------------------------------------------------------------- completions

  /** The owner after one of its entries has been answered. */
  function Answered(o: Owner, idx: nat): Owner {
    match o
    case InRecv(n) => if idx == n then Nobody else o
    case InSend(n) => if idx == n then Nobody else o
    case InSendClose(n) => if idx == n then InClose(n + 1) else o
    case InClose(n) => if idx == n then Nobody else o
    case _ => o
  }

  /** onKernelWrite, setUserSpace and the `OnWrite` callback */
  function Flush(s: State, fd: Fd, res: nat, event: Event): State
    requires Sound(s, fd)
  {
    var c := s.conns[fd];
    if res > |c.outbound.data| then s.(fault := true)
    else
      Put(s, fd, c.(outbound := Dropped(c.outbound, res), mode := UserSpace, taken := 0,
                    own := if event.OnWrite? then Callback else c.own))
      .(worker := Busy(fd, event))
  }

  /** read_write_worker.go:162-172: the bytes received become part of the inbound data. */
  function Fill(s: State, fd: Fd, data: seq<Byte>): State
    requires Sound(s, fd) && |data| <= s.conns[fd].inbound.Free()
  {
    var c := s.conns[fd];
    Put(s, fd, c.(inbound := Filled(c.inbound, data), arrived := []))
  }

  /** read_write_worker.go:185-197 */
  function AfterRead(s: State, fd: Fd, more: bool, env: Env): State
    requires Sound(s, fd)
  {
    var c := s.conns[fd];
    if more && !c.closed then (if env.sqe then AddRead(s, fd, env.region) else CloseConn(s, fd))
    else if s.async then Put(s, fd, c.(own := Task)).(tasks := s.tasks + multiset{fd})
    else Put(s, fd, c.(own := Callback, mode := UserSpace)).(worker := Busy(fd, OnRead))
  }

  function HandleRead(s: State, fd: Fd, e: Cqe, env: Env): State
    requires Sound(s, fd)
  {
    if e.res <= 0 then CloseConn(s, fd)
    else if |e.data| > s.conns[fd].inbound.Free() then s.(fault := true)
    else AfterRead(Fill(s, fd, e.data), fd, e.more, env)
  }

  /** consumer_worker.go:78-123; the switch looks at the state, not at the kind of entry,
      except to tell the two completions of a closing connection apart */
  function HandleConn(s: State, fd: Fd, e: Cqe, kind: Kind, env: Env): State
    requires Sound(s, fd) && e.res >= 0
  {
    match s.conns[fd].state
    case Reading => HandleRead(s, fd, e, env)
    case Writing => Flush(s, fd, e.res, OnWrite)
    case Closing =>
      if kind.Close? then CloseConn(s, fd)
      else if kind.Send? then Flush(s, fd, e.res, OnLastWrite)
      else s
    case Invalid => s.(fault := true)
  }

  /** Entry `idx` of connection `fd` is no longer outstanding. */
  function Settle(s: State, fd: Fd, idx: nat): State
    requires fd in s.conns
  {
    Put(s, fd, s.conns[fd].(own := Answered(s.conns[fd].own, idx)))
  }

  /** consumer_worker.go:193-216 and worker.go:84-95: a failed entry is only logged. */
  function Dispatch(s: State, env: Env): State {
    if s.cq == [] || s.worker.Busy? || s.cq[0].idx >= |s.submitted| then s
    else
      var e := s.cq[0];
      var fd := s.submitted[e.idx].fd;
      var s' := s.(cq := s.cq[1..]);
      if !Sound(s, fd) then s'.(fault := true)
      else if e.res < 0 then Settle(s', fd, e.idx)
      else HandleConn(Settle(s', fd, e.idx), fd, e, s.submitted[e.idx].kind, env)
  }

  /** What the kernel may answer to entry `idx`. */
  predicate Allowed(s: State, idx: nat, res: int, data: seq<Byte>) {
    && idx in s.inflight && idx < |s.submitted|
    && !(idx > 0 && s.submitted[idx - 1].linked && idx - 1 in s.inflight)
    && res <= s.submitted[idx].len
    && |data| == if s.submitted[idx].kind.Recv? && res > 0 then res else 0
  }

  /** The kernel fills the space behind the inbound data, or takes a prefix of the outbound data. */
  function Transfer(c: Conn, kind: Kind, res: int, data: seq<Byte>): Conn {
    match kind
    case Recv => c.(received := c.received + data, arrived := data)
    case Send =>
      if 0 < res <= |c.outbound.data| then c.(sent := c.sent + c.outbound.data[..res], taken := res) else c
    case Close => c
  }

  function Complete(s: State, idx: nat, res: int, data: seq<Byte>, more: bool): State {
    if !Allowed(s, idx, res, data) then s
    else
      var e := s.submitted[idx];
      var s' := s.(inflight := s.inflight - {idx}, answers := s.answers[idx := res], cq := s.cq + [Cqe(idx, res, data, more)]);
      if e.fd in s.conns then Put(s', e.fd, Transfer(s.conns[e.fd], e.kind, res, data)) else s'
  }

  // ---------------------------------------------------------------- handlers

  /** consumer_worker.go:125-142: a new descriptor, with two empty rings from the pool */
  function AcceptConn(s: State, fd: Fd, inbound: Region, outbound: Region): State {
    if s.worker.Busy? || fd in s.conns || fd < STDERR then s
    else
      var c := Conn(Invalid, UserSpace, false, NoOp, Ring([], inbound.asked), Ring([], outbound.asked),
                    s.accepted, Callback, [], [], [], [], [], 0, [], false);
      Put(s, fd, Obtain(c, [inbound, outbound])).(worker := Busy(fd, OnAccept), accepted := s.accepted + 1)
  }

  /** The connection changes hands. */
  function Take(s: State, fd: Fd, own: Owner): State
    requires fd in s.conns
  {
    Put(s, fd, s.conns[fd].(own := own))
  }

  /** What follows a callback. When no entry can be obtained the connection is closed; only a
      new connection, one from the connection queue, is left alone (consumer_worker.go:151-154).
      For a new connection that comes as a ring message (consumer_worker.go:201-204) or in a
      shard worker (shard_worker.go:103-107) an entry can always be obtained. */
  function AfterEvent(s: State, fd: Fd, event: Event, env: Env): State
    requires Sound(s, fd)
  {
    if env.sqe then AddNext(s, fd, env.region) else if event.OnAccept? then s else CloseConn(s, fd)
  }

  /** The callback the worker is in returns. */
  function ReturnCallback(s: State, env: Env): State {
    match s.worker
    case Ready => s
    case Busy(fd, event) =>
      var s' := s.(worker := Ready);
      if !Sound(s, fd) then s'.(fault := true)
      else if event.OnLastWrite? then s'
      else AfterEvent(Take(s', fd, Nobody), fd, event, env)
  }

  /** read_write_worker.go:113-116 in a goroutine */
  function StartTask(s: State, fd: Fd): State {
    if fd !in s.tasks || fd !in s.conns then s else Put(s, fd, s.conns[fd].(mode := UserSpace))
  }

  /** read_write_worker.go:122-131 */
  function ReturnTask(s: State, fd: Fd): State {
    if fd !in s.tasks || fd !in s.conns || s.conns[fd].mode.KernelSpace? then s
    else
      var c := s.conns[fd];
      var op := if |c.outbound.data| > 0 then WriteOp else if c.closed then CloseOp else ReadOp;
      Put(s, fd, c.(nextAsyncOp := op, own := Queued))
      .(tasks := s.tasks - multiset{fd}, asyncOpQueue := s.asyncOpQueue + [fd])
  }

  /** read_write_worker.go:70-109 */
  function AddAsync(s: State, fd: Fd, region: nat): State
    requires Sound(s, fd)
  {
    match s.conns[fd].nextAsyncOp
    case ReadOp => AddRead(s, fd, region)
    case WriteOp => if s.conns[fd].closed then AddWriteClose(s, fd) else AddWrite(s, fd)
    case CloseOp => AddClose(s, fd)
    case NoOp => s
  }

  /** read_write_worker.go:63-69: one element of the queue; without an entry it is dropped. */
  function PopAsync(s: State, env: Env): State {
    if s.worker.Busy? || s.asyncOpQueue == [] then s
    else
      var fd := s.asyncOpQueue[0];
      var s' := s.(asyncOpQueue := s.asyncOpQueue[1..]);
      if !Sound(s, fd) then s'.(fault := true)
      else if env.sqe then AddAsync(Take(s', fd, Nobody), fd, env.region)
      else Take(s', fd, Nobody)
  }

  // ---------------------------------------------------------------- user calls

  /** conn.go:147-157 */
  predicate UserOpAllowed(c: Conn) {
    !c.closed && c.mode.UserSpace?
  }

  function UserWrite(s: State, fd: Fd, bytes: seq<Byte>, region: nat): State {
    if !Sound(s, fd) || !UserOpAllowed(s.conns[fd]) then s
    else
      var c := Obtain(s.conns[fd], Answers(WrittenAsks(s.conns[fd].outbound, bytes, s.page), [region]));
      Put(s, fd, c.(outbound := Written(c.outbound, bytes, s.page), written := c.written + bytes))
  }

  /** Read, Next or Discard: the first `n` inbound bytes, or all, are consumed. */
  function UserRead(s: State, fd: Fd, n: nat): State {
    if fd !in s.conns || !UserOpAllowed(s.conns[fd]) then s
    else
      var c := s.conns[fd];
      var k := if n < |c.inbound.data| then n else |c.inbound.data|;
      Put(s, fd, c.(inbound := c.inbound.(data := c.inbound.data[k..]), consumed := c.consumed + c.inbound.data[..k]))
  }

  /** conn.go:258-266: what the reader delivers is appended to the outbound data. An empty ring
      whose first read delivers nothing takes itself for full, of the `junk` its memory holds. */
  function UserReadFrom(s: State, fd: Fd, chunks: seq<seq<Byte>>, junk: seq<Byte>, regions: seq<nat>): State {
    if !Sound(s, fd) || !UserOpAllowed(s.conns[fd]) || chunks == [] then s
    else
      var c := s.conns[fd];
      if !Stuck(c.outbound, chunks) then
        var (outbound, got) := ReadAll(c.outbound, chunks, s.page);
        var c' := Obtain(c, Answers(ReadAsks(c.outbound, chunks, s.page), regions));
        Put(s, fd, c'.(outbound := outbound, written := c.written + got))
      else if |junk| != Roomy(c.outbound, s.page).cap then s
      else
        var (outbound, got) := ReadAll(Ring(junk, |junk|), chunks[1..], s.page);
        var asked := RoomyAsks(c.outbound, s.page) + ReadAsks(Ring(junk, |junk|), chunks[1..], s.page);
        var c' := Obtain(c, Answers(asked, regions));
        Put(s, fd, c'.(outbound := outbound, written := c.written + got, spoiled := true))
  }

  /** conn.go:268-276: a writer takes the first `n` inbound bytes, or all if there are fewer. A
      full ring of which it takes nothing is emptied. */
  function UserWriteTo(s: State, fd: Fd, n: nat): State {
    if fd !in s.conns || !UserOpAllowed(s.conns[fd]) then s
    else
      var c := s.conns[fd];
      if n == 0 && |c.inbound.data| == c.inbound.cap > 0 then
        Put(s, fd, c.(inbound := c.inbound.(data := []), spoiled := true))
      else UserRead(s, fd, n)
  }

  /** conn.go:240-247: a negative `n` moves the read position backwards, and what the ring then
      holds, `left`, depends on where it stood; otherwise it is what it held before. A ring whose
      read position has become negative is no longer in order, and a run does not go on with
      it. */
  function UserDiscard(s: State, fd: Fd, n: int, left: seq<Byte>): State {
    if n >= 0 then UserRead(s, fd, n)
    else if fd !in s.conns || !UserOpAllowed(s.conns[fd]) then s
    else
      var c := s.conns[fd];
      if !MovedBack(c.inbound, left) then s
      else Put(s, fd, c.(inbound := c.inbound.(data := left), spoiled := true))
  }

  /** A ring on a region of another size shows other bytes than were put into it, as many. */
  function Misread(s: State, fd: Fd, inbound: seq<Byte>, outbound: seq<Byte>): State {
    if fd !in s.conns || !UserOpAllowed(s.conns[fd]) || Exact(s.conns[fd].regions) then s
    else
      var c := s.conns[fd];
      if |inbound| != |c.inbound.data| || |outbound| != |c.outbound.data| then s
      else Put(s, fd, c.(inbound := c.inbound.(data := inbound), outbound := c.outbound.(data := outbound), spoiled := true))
  }

  /** conn.go:216-228; allowed at any time */
  function UserClose(s: State, fd: Fd): State {
    if fd !in s.conns then s else Put(s, fd, s.conns[fd].(closed := true))
  }

  // ---------------------------------------------------------------- runs

  datatype Action =
    | AAccept(fd: Fd, inRegion: Region, outRegion: Region)
    | AComplete(idx: nat, res: int, data: seq<Byte>, more: bool)
    | ADispatch(env: Env)
    | AReturn(env: Env)
    | AStartTask(fd: Fd)
    | AReturnTask(fd: Fd)
    | APop(env: Env)
    | AWrite(fd: Fd, bytes: seq<Byte>, region: nat)
    | ARead(fd: Fd, n: nat)
    | AReadFrom(fd: Fd, chunks: seq<seq<Byte>>, junk: seq<Byte>, regions: seq<nat>)
    | AWriteTo(fd: Fd, n: nat)
    | ADiscard(fd: Fd, back: int, left: seq<Byte>)
    | AMisread(fd: Fd, inbound: seq<Byte>, outbound: seq<Byte>)
    | AClose(fd: Fd)

  function Step(s: State, a: Action): State {
    match a
    case AAccept(fd, inbound, outbound) => AcceptConn(s, fd, inbound, outbound)
    case AComplete(idx, res, data, more) => Complete(s, idx, res, data, more)
    case ADispatch(env) => Dispatch(s, env)
    case AReturn(env) => ReturnCallback(s, env)
    case AStartTask(fd) => StartTask(s, fd)
    case AReturnTask(fd) => ReturnTask(s, fd)
    case APop(env) => PopAsync(s, env)
    case AWrite(fd, bytes, region) => UserWrite(s, fd, bytes, region)
    case ARead(fd, n) => UserRead(s, fd, n)
    case AReadFrom(fd, chunks, junk, regions) => UserReadFrom(s, fd, chunks, junk, regions)
    case AWriteTo(fd, n) => UserWriteTo(s, fd, n)
    case ADiscard(fd, n, left) => UserDiscard(s, fd, n, left)
    case AMisread(fd, inbound, outbound) => Misread(s, fd, inbound, outbound)
    case AClose(fd) => UserClose(s, fd)
  }

  /** The state after any interleaving of worker, goroutine, user and kernel steps. */
  function Run(async: bool, page: nat, schedule: seq<Action>): State {
    if schedule == [] then Init(async, page)
    else Step(Run(async, page, schedule[..|schedule| - 1]), schedule[|schedule| - 1])
  }
}
