/** The invariant of the connection protocol and the lemmas that every step keeps it. */
module ConnInvariant {
  import opened ByteRing
  import opened ConnProtocol

  type Owners = map<Fd, Owner>

  function OwnersOf(conns: map<Fd, Conn>): Owners {
    map f | f in conns :: conns[f].own
  }

  /** The entries an owner answers for. */
  function Claims(o: Owner): set<nat> {
    match o
    case InRecv(n) => {n}
    case InSend(n) => {n}
    case InSendClose(n) => {n, n + 1}
    case InClose(n) => {n}
    case _ => {}
  }

  ghost predicate EntryIs(submitted: seq<Sqe>, n: nat, e: Sqe) {
    n < |submitted| && submitted[n] == e
  }

  /** A connection in the hands of the kernel: its entries are what its state says, they
      were made for the buffers as they are now, and no user call can change these. */
  ghost predicate OwnOk(c: Conn, f: Fd, submitted: seq<Sqe>)
    requires c.inbound.Ok()
  {
    match c.own
    case InRecv(n) =>
      c.state.Reading? && c.mode.KernelSpace? && EntryIs(submitted, n, Sqe(Recv, f, c.inbound.Free(), false))
    case InSend(n) =>
      c.state.Writing? && c.mode.KernelSpace? && EntryIs(submitted, n, Sqe(Send, f, |c.outbound.data|, false))
    case InSendClose(n) =>
      && c.state.Closing? && c.closed
      && EntryIs(submitted, n, Sqe(Send, f, |c.outbound.data|, true))
      && EntryIs(submitted, n + 1, Sqe(Close, f, 0, false))
    case InClose(n) => c.state.Closing? && c.closed && EntryIs(submitted, n, Sqe(Close, f, 0, false))
    case Queued => !c.nextAsyncOp.NoOp? && (c.nextAsyncOp.CloseOp? ==> c.closed)
    case _ => true
  }

  /** Conservation, unless a ring is out of order: what the kernel took,
      followed by what is still to be sent, is what was written; what was consumed, what is
      buffered and what arrived is what was received. */
  ghost predicate FlowOk(c: Conn) {
    && c.taken <= |c.outbound.data|
    && (!c.spoiled ==>
          c.written == c.sent + c.outbound.data[c.taken..] && c.received == c.consumed + c.inbound.data + c.arrived)
  }

  /** A transfer is pending only if the kernel has answered and the worker has not looked. */
  ghost predicate PendingOk(c: Conn, inflight: set<nat>) {
    && (c.taken != 0 ==> (c.own.InSend? || c.own.InSendClose?) && c.own.idx !in inflight)
    && (c.arrived != [] ==> c.own.InRecv? && c.own.idx !in inflight)
  }

  ghost predicate ConnOk(c: Conn, f: Fd, submitted: seq<Sqe>, inflight: set<nat>) {
    && c.inbound.Ok() && c.outbound.Ok() && OwnOk(c, f, submitted) && FlowOk(c) && PendingOk(c, inflight)
  }

  ghost predicate ConnsOk(conns: map<Fd, Conn>, submitted: seq<Sqe>, inflight: set<nat>) {
    forall f :: f in conns ==> ConnOk(conns[f], f, submitted, inflight)
  }

  ghost predicate Claimed(owners: Owners, submitted: seq<Sqe>, n: nat) {
    n < |submitted| && submitted[n].fd in owners && n in Claims(owners[submitted[n].fd])
  }

  ghost predicate Answering(cq: seq<Cqe>, n: nat) {
    exists k :: 0 <= k < |cq| && cq[k].idx == n
  }

  /** Every outstanding entry, in flight or answered, is claimed by the owner of its live
      connection; no entry is answered twice. */
  ghost predicate OutOk(owners: Owners, submitted: seq<Sqe>, inflight: set<nat>, cq: seq<Cqe>) {
    && (forall n :: n in inflight ==> Claimed(owners, submitted, n))
    && (forall k :: 0 <= k < |cq| ==> Claimed(owners, submitted, cq[k].idx) && cq[k].idx !in inflight)
    && (forall j, k {:trigger cq[j].idx, cq[k].idx} :: 0 <= j < k < |cq| ==> cq[j].idx != cq[k].idx)
  }

  ghost predicate EntryOf(submitted: seq<Sqe>, n: nat, f: Fd) {
    n < |submitted| && submitted[n].fd == f
  }

  /** Every claim is for an entry of the connection and is outstanding. */
  ghost predicate ClaimsOk(owners: Owners, submitted: seq<Sqe>, inflight: set<nat>, cq: seq<Cqe>) {
    forall f, n :: f in owners && n in Claims(owners[f]) ==>
      EntryOf(submitted, n, f) && (n in inflight || Answering(cq, n))
  }

  ghost predicate Linked(submitted: seq<Sqe>, n: nat, m: nat) {
    m == n + 1 && n < |submitted| && submitted[n].linked
  }

  /** A close linked to a write is answered after the write. */
  ghost predicate OrderOk(submitted: seq<Sqe>, inflight: set<nat>, cq: seq<Cqe>) {
    && (forall k, n :: 0 <= k < |cq| && n in inflight ==> !Linked(submitted, n, cq[k].idx))
    && (forall j, k :: 0 <= j < |cq| && 0 <= k < |cq| && Linked(submitted, cq[j].idx, cq[k].idx) ==> j < k)
  }

  /** An answer fits its entry and is recorded in the connection. */
  ghost predicate ReplyOk(conns: map<Fd, Conn>, submitted: seq<Sqe>, e: Cqe) {
    && e.idx < |submitted| && submitted[e.idx].fd in conns
    && var q, c := submitted[e.idx], conns[submitted[e.idx].fd];
       && e.res <= q.len && |e.data| == (if q.kind.Recv? && e.res > 0 then e.res else 0)
       && (q.kind.Send? ==> c.taken == if e.res > 0 then e.res else 0)
       && (q.kind.Recv? ==> c.arrived == e.data)
  }

  ghost predicate RepliesOk(conns: map<Fd, Conn>, submitted: seq<Sqe>, cq: seq<Cqe>) {
    forall k :: 0 <= k < |cq| ==> ReplyOk(conns, submitted, cq[k])
  }

  /** Callbacks, tasks and queue entries are exactly what the owners say. */
  ghost predicate TokensOk(owners: Owners, worker: Worker, tasks: multiset<Fd>, queue: seq<Fd>) {
    && (forall f: Fd :: tasks[f] == if f in owners && owners[f].Task? then 1 else 0)
    && (forall f: Fd :: multiset(queue)[f] == if f in owners && owners[f].Queued? then 1 else 0)
    && (forall f :: f in owners && owners[f].Callback? ==> worker.Busy? && worker.fd == f && !worker.event.OnLastWrite?)
    && (worker.Busy? ==>
          && worker.fd in owners
          && if worker.event.OnLastWrite? then owners[worker.fd].InClose? else owners[worker.fd].Callback?)
  }

  /** A linked entry is a send, immediately followed by the close of the same descriptor. */
  ghost predicate LinkOk(submitted: seq<Sqe>) {
    forall n :: 0 <= n < |submitted| && submitted[n].linked ==>
      submitted[n].kind.Send? && EntryIs(submitted, n + 1, Sqe(Close, submitted[n].fd, 0, false))
  }

  /** Live connections and closed ones are together all that were ever accepted. */
  ghost predicate CountOk(fds: set<Fd>, accepted: nat, closes: seq<nat>) {
    accepted == |fds| + |closes|
  }

  /** Live connections and closed ones are all different. */
  ghost predicate IdsOk(conns: map<Fd, Conn>, accepted: nat, closes: seq<nat>) {
    && (forall f {:trigger conns[f].id} :: f in conns ==> conns[f].id < accepted && conns[f].id !in closes)
    && (forall f, g {:trigger conns[f].id, conns[g].id} :: f in conns && g in conns && f != g ==> conns[f].id != conns[g].id)
    && (forall k :: 0 <= k < |closes| ==> closes[k] < accepted)
    && (forall j, k :: 0 <= j < k < |closes| ==> closes[j] != closes[k])
  }

  ghost predicate Inv(s: State) {
    && s.page > 0 && !s.fault
    && ConnsOk(s.conns, s.submitted, s.inflight)
    && OutOk(OwnersOf(s.conns), s.submitted, s.inflight, s.cq)
    && ClaimsOk(OwnersOf(s.conns), s.submitted, s.inflight, s.cq)
    && OrderOk(s.submitted, s.inflight, s.cq)
    && RepliesOk(s.conns, s.submitted, s.cq)
    && TokensOk(OwnersOf(s.conns), s.worker, s.tasks, s.asyncOpQueue)
    && LinkOk(s.submitted)
    && IdsOk(s.conns, s.accepted, s.closes)
    && CountOk(s.conns.Keys, s.accepted, s.closes)
  }

  lemma InitInv(async: bool, page: nat)
    requires page > 0
    ensures Inv(Init(async, page))
  {
  }

  lemma OwnersPut(conns: map<Fd, Conn>, f: Fd, c: Conn)
    ensures OwnersOf(conns[f := c]) == OwnersOf(conns)[f := c.own]
  {
  }

  lemma IdsPut(conns: map<Fd, Conn>, accepted: nat, closes: seq<nat>, f: Fd, c: Conn)
    requires IdsOk(conns, accepted, closes) && f in conns && c.id == conns[f].id
    ensures IdsOk(conns[f := c], accepted, closes)
    ensures conns[f := c].Keys == conns.Keys
  {
  }

  lemma ConnsPut(conns: map<Fd, Conn>, submitted: seq<Sqe>, inflight: set<nat>, f: Fd, c: Conn)
    requires ConnsOk(conns, submitted, inflight) && ConnOk(c, f, submitted, inflight)
    ensures ConnsOk(conns[f := c], submitted, inflight)
  {
  }

  /** No answer is about a connection that claims nothing. */
  lemma RepliesPut(conns: map<Fd, Conn>, submitted: seq<Sqe>, submitted': seq<Sqe>, inflight: set<nat>, cq: seq<Cqe>,
                   f: Fd, c: Conn)
    requires OutOk(OwnersOf(conns), submitted, inflight, cq) && RepliesOk(conns, submitted, cq)
    requires f in conns && Claims(conns[f].own) == {} && submitted <= submitted'
    ensures RepliesOk(conns[f := c], submitted', cq)
  {
    forall k | 0 <= k < |cq|
      ensures ReplyOk(conns[f := c], submitted', cq[k])
    {
      assert ReplyOk(conns, submitted, cq[k]) && Claimed(OwnersOf(conns), submitted, cq[k].idx);
    }
  }

  // ---------------------------------------------------------------- changes to one connection

  /** A connection changes without changing hands and without a transfer. */
  lemma Touch(s: State, f: Fd, c: Conn)
    requires Inv(s) && f in s.conns && ConnOk(c, f, s.submitted, s.inflight)
    requires c.own == s.conns[f].own && c.id == s.conns[f].id
    requires c.taken == s.conns[f].taken && c.arrived == s.conns[f].arrived
    ensures Inv(Put(s, f, c))
  {
    OwnersPut(s.conns, f, c);
    assert OwnersOf(s.conns)[f := c.own] == OwnersOf(s.conns);
    IdsPut(s.conns, s.accepted, s.closes, f, c);
    ConnsPut(s.conns, s.submitted, s.inflight, f, c);
    TouchReplies(s.conns, s.submitted, s.cq, f, c);
  }

  lemma TouchReplies(conns: map<Fd, Conn>, submitted: seq<Sqe>, cq: seq<Cqe>, f: Fd, c: Conn)
    requires RepliesOk(conns, submitted, cq) && f in conns && c.taken == conns[f].taken && c.arrived == conns[f].arrived
    ensures RepliesOk(conns[f := c], submitted, cq)
  {
    forall k | 0 <= k < |cq|
      ensures ReplyOk(conns[f := c], submitted, cq[k])
    {
      assert ReplyOk(conns, submitted, cq[k]);
    }
  }

  /** A connection that claims no entry passes to somebody else who claims none; the
      tokens move accordingly. */
  lemma Pass(s: State, f: Fd, c: Conn, worker: Worker, tasks: multiset<Fd>, queue: seq<Fd>)
    requires Inv(s) && f in s.conns && ConnOk(c, f, s.submitted, s.inflight)
    requires Claims(s.conns[f].own) == {} && Claims(c.own) == {} && c.id == s.conns[f].id
    requires TokensOk(OwnersOf(s.conns)[f := c.own], worker, tasks, queue)
    ensures Inv(Put(s, f, c).(worker := worker, tasks := tasks, asyncOpQueue := queue))
  {
    OwnersPut(s.conns, f, c);
    IdsPut(s.conns, s.accepted, s.closes, f, c);
    ConnsPut(s.conns, s.submitted, s.inflight, f, c);
    PassOut(OwnersOf(s.conns), s.submitted, s.inflight, s.cq, f, c.own);
    RepliesPut(s.conns, s.submitted, s.submitted, s.inflight, s.cq, f, c);
  }

  lemma PassOut(owners: Owners, submitted: seq<Sqe>, inflight: set<nat>, cq: seq<Cqe>, f: Fd, o: Owner)
    requires OutOk(owners, submitted, inflight, cq) && ClaimsOk(owners, submitted, inflight, cq)
    requires f in owners && Claims(owners[f]) == {} && Claims(o) == {}
    ensures OutOk(owners[f := o], submitted, inflight, cq) && ClaimsOk(owners[f := o], submitted, inflight, cq)
  {
    assert forall n :: Claimed(owners, submitted, n) ==> Claimed(owners[f := o], submitted, n);
  }

  /** A connection without owner is released. */
  lemma Release(s: State, f: Fd)
    requires Inv(s) && f in s.conns && s.conns[f].own.Nobody?
    ensures Inv(CloseConn(s, f))
  {
    var owners := OwnersOf(s.conns);
    OwnersRemove(s.conns, f);
    ConnsRemove(s.conns, s.submitted, s.inflight, f);
    ReleaseOut(owners, s.submitted, s.inflight, s.cq, f);
    ReleaseReplies(s.conns, s.submitted, s.inflight, s.cq, f);
    ReleaseIds(s.conns, s.accepted, s.closes, f);
    ReleaseCount(s.conns, s.accepted, s.closes, f);
    ReleaseTokens(owners, s.worker, s.tasks, s.asyncOpQueue, f);
  }

  lemma OwnersRemove(conns: map<Fd, Conn>, f: Fd)
    ensures OwnersOf(conns - {f}) == OwnersOf(conns) - {f}
  {
  }

  lemma ConnsRemove(conns: map<Fd, Conn>, submitted: seq<Sqe>, inflight: set<nat>, f: Fd)
    requires ConnsOk(conns, submitted, inflight)
    ensures ConnsOk(conns - {f}, submitted, inflight)
  {
  }

  lemma ReleaseTokens(owners: Owners, worker: Worker, tasks: multiset<Fd>, queue: seq<Fd>, f: Fd)
    requires TokensOk(owners, worker, tasks, queue) && f in owners && owners[f].Nobody?
    ensures TokensOk(owners - {f}, worker, tasks, queue)
  {
  }

  lemma ReleaseOut(owners: Owners, submitted: seq<Sqe>, inflight: set<nat>, cq: seq<Cqe>, f: Fd)
    requires OutOk(owners, submitted, inflight, cq) && ClaimsOk(owners, submitted, inflight, cq)
    requires f in owners && owners[f].Nobody?
    ensures OutOk(owners - {f}, submitted, inflight, cq) && ClaimsOk(owners - {f}, submitted, inflight, cq)
  {
    assert forall n :: Claimed(owners, submitted, n) ==> Claimed(owners - {f}, submitted, n);
  }

  lemma ReleaseReplies(conns: map<Fd, Conn>, submitted: seq<Sqe>, inflight: set<nat>, cq: seq<Cqe>, f: Fd)
    requires OutOk(OwnersOf(conns), submitted, inflight, cq) && RepliesOk(conns, submitted, cq)
    requires f in conns && conns[f].own.Nobody?
    ensures RepliesOk(conns - {f}, submitted, cq)
  {
    forall k | 0 <= k < |cq|
      ensures ReplyOk(conns - {f}, submitted, cq[k])
    {
      assert ReplyOk(conns, submitted, cq[k]) && Claimed(OwnersOf(conns), submitted, cq[k].idx);
    }
  }

  lemma ReleaseIds(conns: map<Fd, Conn>, accepted: nat, closes: seq<nat>, f: Fd)
    requires IdsOk(conns, accepted, closes) && f in conns
    ensures IdsOk(conns - {f}, accepted, closes + [conns[f].id])
  {
  }

  lemma ReleaseCount(conns: map<Fd, Conn>, accepted: nat, closes: seq<nat>, f: Fd)
    requires CountOk(conns.Keys, accepted, closes) && f in conns
    ensures CountOk((conns - {f}).Keys, accepted, closes + [conns[f].id])
  {
    assert (conns - {f}).Keys == conns.Keys - {f};
  }

  // ---------------------------------------------------------------- submissions

  /** The numbers of the entries `es` appended at `n`. */
  ghost predicate Numbers(added: set<nat>, n: nat, es: seq<Sqe>) {
    forall m: nat {:trigger m in added} :: m in added <==> n <= m < n + |es|
  }

  ghost predicate AllFor(es: seq<Sqe>, f: Fd) {
    forall e :: e in es ==> e.fd == f
  }

  /** A connection without owner is handed to the kernel with one or two new entries. */
  lemma HandOver(s: State, f: Fd, c: Conn, es: seq<Sqe>)
    requires Inv(s) && f in s.conns && s.conns[f].own.Nobody?
    requires Numbers(Claims(c.own), |s.submitted|, es) && AllFor(es, f)
    requires c.id == s.conns[f].id && !c.own.Callback? && !c.own.Task? && !c.own.Queued?
    requires ConnOk(c, f, s.submitted + es, s.inflight + Claims(c.own)) && LinkOk(s.submitted + es)
    ensures Inv(Put(s.(submitted := s.submitted + es, inflight := s.inflight + Claims(c.own)), f, c))
  {
    OwnersPut(s.conns, f, c);
    IdsPut(s.conns, s.accepted, s.closes, f, c);
    HandOverConns(s, f, c, es, Claims(c.own));
    HandOverOut(OwnersOf(s.conns), s.submitted, s.inflight, s.cq, f, c.own, es);
    HandOverClaims(OwnersOf(s.conns), s.submitted, s.inflight, s.cq, f, c.own, es);
    HandOverOrder(s, es, Claims(c.own));
    HandOverTokens(OwnersOf(s.conns), s.worker, s.tasks, s.asyncOpQueue, f, c.own);
    RepliesPut(s.conns, s.submitted, s.submitted + es, s.inflight, s.cq, f, c);
  }

  lemma HandOverTokens(owners: Owners, worker: Worker, tasks: multiset<Fd>, queue: seq<Fd>, f: Fd, o: Owner)
    requires TokensOk(owners, worker, tasks, queue) && f in owners && owners[f].Nobody?
    requires !o.Callback? && !o.Task? && !o.Queued?
    ensures TokensOk(owners[f := o], worker, tasks, queue)
  {
  }

  lemma HandOverConns(s: State, f: Fd, c: Conn, es: seq<Sqe>, added: set<nat>)
    requires ConnsOk(s.conns, s.submitted, s.inflight) && Numbers(added, |s.submitted|, es)
    requires ConnOk(c, f, s.submitted + es, s.inflight + added)
    ensures ConnsOk(s.conns[f := c], s.submitted + es, s.inflight + added)
  {
    forall g | g in s.conns && g != f
      ensures ConnOk(s.conns[g], g, s.submitted + es, s.inflight + added)
    {
      assert ConnOk(s.conns[g], g, s.submitted, s.inflight);
    }
  }

  lemma HandOverOut(owners: Owners, submitted: seq<Sqe>, inflight: set<nat>, cq: seq<Cqe>, f: Fd, o: Owner, es: seq<Sqe>)
    requires OutOk(owners, submitted, inflight, cq) && f in owners && owners[f].Nobody?
    requires Numbers(Claims(o), |submitted|, es) && AllFor(es, f)
    ensures OutOk(owners[f := o], submitted + es, inflight + Claims(o), cq)
  {
    var owners', submitted' := owners[f := o], submitted + es;
    assert forall n :: Claimed(owners, submitted, n) ==> Claimed(owners', submitted', n);
    forall n | n in Claims(o)
      ensures Claimed(owners', submitted', n)
    {
      assert submitted'[n] == es[n - |submitted|];
    }
  }

  lemma HandOverClaims(owners: Owners, submitted: seq<Sqe>, inflight: set<nat>, cq: seq<Cqe>, f: Fd, o: Owner, es: seq<Sqe>)
    requires ClaimsOk(owners, submitted, inflight, cq) && f in owners
    requires Numbers(Claims(o), |submitted|, es) && AllFor(es, f)
    ensures ClaimsOk(owners[f := o], submitted + es, inflight + Claims(o), cq)
  {
    var owners', submitted' := owners[f := o], submitted + es;
    forall g, n | g in owners' && n in Claims(owners'[g])
      ensures EntryOf(submitted', n, g) && (n in inflight + Claims(o) || Answering(cq, n))
    {
      if g == f {
        assert submitted'[n] == es[n - |submitted|];
      } else {
        assert EntryOf(submitted, n, g) && (n in inflight || Answering(cq, n));
      }
    }
  }

  lemma HandOverOrder(s: State, es: seq<Sqe>, added: set<nat>)
    requires OrderOk(s.submitted, s.inflight, s.cq) && RepliesOk(s.conns, s.submitted, s.cq)
    requires Numbers(added, |s.submitted|, es)
    ensures OrderOk(s.submitted + es, s.inflight + added, s.cq)
  {
    assert forall k :: 0 <= k < |s.cq| ==> ReplyOk(s.conns, s.submitted, s.cq[k]);
    assert forall n, m: nat :: m < |s.submitted| && Linked(s.submitted + es, n, m) ==> Linked(s.submitted, n, m);
  }

  /** A connection without owner after a request of its own has been submitted. */
  lemma RequestedOk(c: Conn, f: Fd, submitted: seq<Sqe>, inflight: set<nat>, e: Sqe, c': Conn)
    requires ConnOk(c, f, submitted, inflight) && c.own.Nobody? && c'.inbound.Ok() && c'.inbound.data == c.inbound.data
    requires c' == c.(inbound := c'.inbound, state := c'.state, mode := c'.mode, own := c'.own, regions := c'.regions,
                      spoiled := c'.spoiled)
    requires c.spoiled ==> c'.spoiled
    requires var n := |submitted|;
             || (e == Sqe(Recv, f, c'.inbound.Free(), false) && c'.own == InRecv(n) && c'.state.Reading? && c'.mode.KernelSpace?)
             || (e == Sqe(Send, f, |c.outbound.data|, false) && c'.own == InSend(n) && c'.state.Writing? && c'.mode.KernelSpace?)
             || (e == Sqe(Close, f, 0, false) && c'.own == InClose(n) && c'.state.Closing? && c.closed)
    ensures ConnOk(c', f, submitted + [e], inflight + {|submitted|})
  {
    assert EntryIs(submitted + [e], |submitted|, e);
  }

  /** A request and what it claims. */
  lemma RequestInv(s: State, f: Fd, c: Conn, e: Sqe)
    requires Inv(s) && f in s.conns && s.conns[f].own.Nobody? && c.id == s.conns[f].id
    requires Claims(c.own) == {|s.submitted|} && e.fd == f && !e.linked
    requires ConnOk(c, f, s.submitted + [e], s.inflight + {|s.submitted|})
    ensures Inv(Put(Submit(s, e), f, c))
  {
    LinkAppend(s.submitted, e);
    SingleFacts(|s.submitted|, e, f);
    HandOver(s, f, c, [e]);
  }

  /** read.go, write.go and conn_closer.go on a connection without owner. */
  lemma AddReadInv(s: State, f: Fd, region: nat)
    requires Inv(s) && Sound(s, f) && s.conns[f].own.Nobody?
    ensures Inv(AddRead(s, f, region))
  {
    var c := AddRead(s, f, region).conns[f];
    var e := Sqe(Recv, f, c.inbound.Free(), false);
    assert ConnOk(s.conns[f], f, s.submitted, s.inflight);
    RequestedOk(s.conns[f], f, s.submitted, s.inflight, e, c);
    RequestInv(s, f, c, e);
  }

  lemma AddWriteInv(s: State, f: Fd)
    requires Inv(s) && Sound(s, f) && s.conns[f].own.Nobody?
    ensures Inv(AddWrite(s, f))
  {
    var c := AddWrite(s, f).conns[f];
    var e := Sqe(Send, f, |c.outbound.data|, false);
    assert ConnOk(s.conns[f], f, s.submitted, s.inflight);
    RequestedOk(s.conns[f], f, s.submitted, s.inflight, e, c);
    RequestInv(s, f, c, e);
  }

  lemma AddCloseInv(s: State, f: Fd)
    requires Inv(s) && Sound(s, f) && s.conns[f].own.Nobody? && s.conns[f].closed
    ensures Inv(AddClose(s, f))
  {
    var c := AddClose(s, f).conns[f];
    var e := Sqe(Close, f, 0, false);
    assert ConnOk(s.conns[f], f, s.submitted, s.inflight);
    RequestedOk(s.conns[f], f, s.submitted, s.inflight, e, c);
    RequestInv(s, f, c, e);
  }

  /** The linked write and its close. */
  lemma LinkedOk(c: Conn, f: Fd, submitted: seq<Sqe>, inflight: set<nat>)
    requires ConnOk(c, f, submitted, inflight) && c.own.Nobody? && c.closed
    ensures var n, e, e' := |submitted|, Sqe(Send, f, |c.outbound.data|, true), Sqe(Close, f, 0, false);
            ConnOk(c.(state := Closing, mode := KernelSpace, own := InSendClose(n)), f, submitted + [e, e'], inflight + Claims(InSendClose(n)))
  {
    var n, e, e' := |submitted|, Sqe(Send, f, |c.outbound.data|, true), Sqe(Close, f, 0, false);
    assert EntryIs(submitted + [e, e'], n, e) && EntryIs(submitted + [e, e'], n + 1, e');
  }

  lemma AddWriteCloseInv(s: State, f: Fd)
    requires Inv(s) && Sound(s, f) && s.conns[f].own.Nobody? && s.conns[f].closed
    ensures Inv(AddWriteClose(s, f))
  {
    var c, n := AddWriteClose(s, f).conns[f], |s.submitted|;
    var e, e' := Sqe(Send, f, |c.outbound.data|, true), Sqe(Close, f, 0, false);
    assert ConnOk(s.conns[f], f, s.submitted, s.inflight);
    LinkedOk(s.conns[f], f, s.submitted, s.inflight);
    LinkedInv(s, f, c, e, e');
    SubmitTwice(s, e, e');
  }

  lemma SubmitTwice(s: State, e: Sqe, e': Sqe)
    ensures var n := |s.submitted|;
            Submit(Submit(s, e), e') == s.(submitted := s.submitted + [e, e'], inflight := s.inflight + Claims(InSendClose(n)))
  {
    var n := |s.submitted|;
    assert s.submitted + [e] + [e'] == s.submitted + [e, e'];
    assert s.inflight + {n} + {n + 1} == s.inflight + Claims(InSendClose(n));
  }

  lemma LinkedInv(s: State, f: Fd, c: Conn, e: Sqe, e': Sqe)
    requires Inv(s) && f in s.conns && s.conns[f].own.Nobody? && c.id == s.conns[f].id
    requires c.own == InSendClose(|s.submitted|) && e.fd == f && e.kind.Send? && e' == Sqe(Close, f, 0, false)
    requires ConnOk(c, f, s.submitted + [e, e'], s.inflight + Claims(c.own))
    ensures Inv(Put(s.(submitted := s.submitted + [e, e'], inflight := s.inflight + Claims(c.own)), f, c))
  {
    LinkAppendPair(s.submitted, e, e');
    PairFacts(|s.submitted|, e, e', f);
    HandOver(s, f, c, [e, e']);
  }

  lemma PairFacts(n: nat, e: Sqe, e': Sqe, f: Fd)
    requires e.fd == e'.fd == f
    ensures Numbers(Claims(InSendClose(n)), n, [e, e']) && AllFor([e, e'], f)
  {
  }

  lemma SingleFacts(n: nat, e: Sqe, f: Fd)
    requires e.fd == f
    ensures Numbers({n}, n, [e]) && AllFor([e], f)
  {
  }

  lemma LinkAppend(submitted: seq<Sqe>, e: Sqe)
    requires LinkOk(submitted) && !e.linked
    ensures LinkOk(submitted + [e])
  {
    forall n | 0 <= n < |submitted + [e]| && (submitted + [e])[n].linked
      ensures (submitted + [e])[n].kind.Send?
      ensures EntryIs(submitted + [e], n + 1, Sqe(Close, (submitted + [e])[n].fd, 0, false))
    {
      assert submitted[n].linked;
    }
  }

  lemma LinkAppendPair(submitted: seq<Sqe>, e: Sqe, e': Sqe)
    requires LinkOk(submitted) && e.kind.Send? && e' == Sqe(Close, e.fd, 0, false)
    ensures LinkOk(submitted + [e, e'])
  {
    var submitted' := submitted + [e, e'];
    forall n | 0 <= n < |submitted'| && submitted'[n].linked
      ensures submitted'[n].kind.Send? && EntryIs(submitted', n + 1, Sqe(Close, submitted'[n].fd, 0, false))
    {
      if n < |submitted| { assert submitted[n].linked; }
    }
  }

  lemma AddNextInv(s: State, f: Fd, region: nat)
    requires Inv(s) && Sound(s, f) && s.conns[f].own.Nobody?
    ensures Inv(AddNext(s, f, region))
  {
    var c := s.conns[f];
    if |c.outbound.data| > 0 {
      if c.closed { AddWriteCloseInv(s, f); } else { AddWriteInv(s, f); }
    } else if c.closed {
      AddCloseInv(s, f);
    } else {
      AddReadInv(s, f, region);
    }
  }

  // ---------------------------------------------------------------- the kernel answers

  /** The owner of an outstanding entry, as told by the kind of the entry. */
  lemma OwnerByKind(s: State, n: nat)
    requires ConnsOk(s.conns, s.submitted, s.inflight) && Claimed(OwnersOf(s.conns), s.submitted, n)
    ensures var q := s.submitted[n];
            && q.fd in s.conns
            && var o := s.conns[q.fd].own;
               match q.kind
               case Recv => o == InRecv(n)
               case Send => o == InSend(n) || o == InSendClose(n)
               case Close => o == InClose(n) || (n > 0 && o == InSendClose(n - 1))
  {
    assert ConnOk(s.conns[s.submitted[n].fd], s.submitted[n].fd, s.submitted, s.inflight);
  }

  lemma TransferOk(s: State, idx: nat, res: int, data: seq<Byte>)
    requires ConnsOk(s.conns, s.submitted, s.inflight) && Claimed(OwnersOf(s.conns), s.submitted, idx)
    requires Allowed(s, idx, res, data)
    ensures var q := s.submitted[idx];
            ConnOk(Transfer(s.conns[q.fd], q.kind, res, data), q.fd, s.submitted, s.inflight - {idx})
  {
    OwnerByKind(s, idx);
    var f := s.submitted[idx].fd;
    var c := s.conns[f];
    assert ConnOk(c, f, s.submitted, s.inflight);
    if s.submitted[idx].kind.Send? && res > 0 {
      assert c.sent + c.outbound.data[..res] + c.outbound.data[res..] == c.sent + c.outbound.data[0..];
    }
  }

  lemma CompleteInv(s: State, idx: nat, res: int, data: seq<Byte>, more: bool)
    requires Inv(s) && Allowed(s, idx, res, data)
    ensures Inv(Complete(s, idx, res, data, more))
  {
    assert Claimed(OwnersOf(s.conns), s.submitted, idx);
    TransferOk(s, idx, res, data);
    var q, e := s.submitted[idx], Cqe(idx, res, data, more);
    CompleteReplies(s, e);
    CompleteStep(s, q.fd, Transfer(s.conns[q.fd], q.kind, res, data), e);
  }

  lemma CompleteStep(s: State, f: Fd, c: Conn, e: Cqe)
    requires Inv(s) && e.idx in s.inflight && f in s.conns && c.own == s.conns[f].own && c.id == s.conns[f].id
    requires !(e.idx > 0 && e.idx <= |s.submitted| && s.submitted[e.idx - 1].linked && e.idx - 1 in s.inflight)
    requires ConnOk(c, f, s.submitted, s.inflight - {e.idx}) && RepliesOk(s.conns[f := c], s.submitted, s.cq + [e])
    ensures Inv(Put(s.(inflight := s.inflight - {e.idx}, answers := s.answers[e.idx := e.res], cq := s.cq + [e]), f, c))
  {
    OwnersPut(s.conns, f, c);
    assert OwnersOf(s.conns)[f := c.own] == OwnersOf(s.conns);
    IdsPut(s.conns, s.accepted, s.closes, f, c);
    CompleteConns(s, f, c, e.idx);
    CompleteOut(OwnersOf(s.conns), s.submitted, s.inflight, s.cq, e);
    CompleteOrder(s, e);
  }

  lemma CompleteConns(s: State, f: Fd, c: Conn, idx: nat)
    requires ConnsOk(s.conns, s.submitted, s.inflight) && ConnOk(c, f, s.submitted, s.inflight - {idx})
    ensures ConnsOk(s.conns[f := c], s.submitted, s.inflight - {idx})
  {
    forall g | g in s.conns && g != f
      ensures ConnOk(s.conns[g], g, s.submitted, s.inflight - {idx})
    {
      assert ConnOk(s.conns[g], g, s.submitted, s.inflight);
    }
  }

  lemma CompleteOut(owners: Owners, submitted: seq<Sqe>, inflight: set<nat>, cq: seq<Cqe>, e: Cqe)
    requires OutOk(owners, submitted, inflight, cq) && ClaimsOk(owners, submitted, inflight, cq) && e.idx in inflight
    ensures OutOk(owners, submitted, inflight - {e.idx}, cq + [e])
    ensures ClaimsOk(owners, submitted, inflight - {e.idx}, cq + [e])
  {
    var cq' := cq + [e];
    assert cq'[|cq|] == e;
    forall f, n | f in owners && n in Claims(owners[f])
      ensures n in inflight - {e.idx} || Answering(cq', n)
    {
      assert n in inflight || Answering(cq, n);
      if k :| 0 <= k < |cq| && cq[k].idx == n { assert cq'[k].idx == n; }
    }
  }

  lemma CompleteOrder(s: State, e: Cqe)
    requires OrderOk(s.submitted, s.inflight, s.cq) && e.idx in s.inflight
    requires !(e.idx > 0 && e.idx <= |s.submitted| && s.submitted[e.idx - 1].linked && e.idx - 1 in s.inflight)
    ensures OrderOk(s.submitted, s.inflight - {e.idx}, s.cq + [e])
  {
  }

  lemma CompleteReplies(s: State, e: Cqe)
    requires ConnsOk(s.conns, s.submitted, s.inflight) && OutOk(OwnersOf(s.conns), s.submitted, s.inflight, s.cq)
    requires RepliesOk(s.conns, s.submitted, s.cq) && Allowed(s, e.idx, e.res, e.data)
    ensures var q := s.submitted[e.idx];
            q.fd in s.conns && RepliesOk(s.conns[q.fd := Transfer(s.conns[q.fd], q.kind, e.res, e.data)], s.submitted, s.cq + [e])
  {
    OwnerByKind(s, e.idx);
    var q := s.submitted[e.idx];
    var conns' := s.conns[q.fd := Transfer(s.conns[q.fd], q.kind, e.res, e.data)];
    assert ConnOk(s.conns[q.fd], q.fd, s.submitted, s.inflight);
    assert ReplyOk(conns', s.submitted, e);
    forall k | 0 <= k < |s.cq|
      ensures ReplyOk(conns', s.submitted, s.cq[k])
    {
      assert ReplyOk(s.conns, s.submitted, s.cq[k]);
      OwnerByKind(s, s.cq[k].idx);
    }
  }

  // ---------------------------------------------------------------- the worker looks at an answer

  /** The oldest answer is never the close of a write that is still outstanding. */
  lemma FirstAnswer(s: State)
    requires ConnsOk(s.conns, s.submitted, s.inflight) && OrderOk(s.submitted, s.inflight, s.cq)
    requires OutOk(OwnersOf(s.conns), s.submitted, s.inflight, s.cq)
    requires ClaimsOk(OwnersOf(s.conns), s.submitted, s.inflight, s.cq) && s.cq != []
    ensures var e := s.cq[0];
            && Claimed(OwnersOf(s.conns), s.submitted, e.idx)
            && var o := s.conns[s.submitted[e.idx].fd].own;
               && Claims(Answered(o, e.idx)) == Claims(o) - {e.idx}
               && (s.submitted[e.idx].kind.Close? ==> o == InClose(e.idx))
  {
    var e := s.cq[0];
    OwnerByKind(s, e.idx);
    var f := s.submitted[e.idx].fd;
    var o := s.conns[f].own;
    if o.InSendClose? {
      assert ConnOk(s.conns[f], f, s.submitted, s.inflight);
      var n := o.idx;
      assert n in Claims(OwnersOf(s.conns)[f]);
      assert n in s.inflight || Answering(s.cq, n);
      if e.idx == n + 1 {
        assert Linked(s.submitted, n, e.idx);
        assert false;
      }
    }
  }

  /** The answer is taken off the queue and its connection is brought up to date. */
  lemma Settled(s: State, c: Conn)
    requires Inv(s) && s.cq != [] && s.worker.Ready?
    requires var f := s.submitted[s.cq[0].idx].fd;
             && f in s.conns && c.own == Answered(s.conns[f].own, s.cq[0].idx) && c.id == s.conns[f].id
             && ConnOk(c, f, s.submitted, s.inflight)
    ensures Inv(Put(s.(cq := s.cq[1..]), s.submitted[s.cq[0].idx].fd, c))
  {
    FirstAnswer(s);
    var f := s.submitted[s.cq[0].idx].fd;
    OwnersPut(s.conns, f, c);
    IdsPut(s.conns, s.accepted, s.closes, f, c);
    SettledOut(OwnersOf(s.conns), s.submitted, s.inflight, s.cq, f, c.own);
    SettledOrder(s.submitted, s.inflight, s.cq);
    SettledReplies(s, f, c);
    SettledTokens(OwnersOf(s.conns), s.worker, s.tasks, s.asyncOpQueue, f, s.cq[0].idx);
    ConnsPut(s.conns, s.submitted, s.inflight, f, c);
  }

  lemma SettledOrder(submitted: seq<Sqe>, inflight: set<nat>, cq: seq<Cqe>)
    requires OrderOk(submitted, inflight, cq) && cq != []
    ensures OrderOk(submitted, inflight, cq[1..])
  {
  }

  lemma SettledTokens(owners: Owners, worker: Worker, tasks: multiset<Fd>, queue: seq<Fd>, f: Fd, n: nat)
    requires TokensOk(owners, worker, tasks, queue) && worker.Ready? && f in owners && n in Claims(owners[f])
    ensures TokensOk(owners[f := Answered(owners[f], n)], worker, tasks, queue)
  {
  }

  lemma SettledOut(owners: Owners, submitted: seq<Sqe>, inflight: set<nat>, cq: seq<Cqe>, f: Fd, o: Owner)
    requires OutOk(owners, submitted, inflight, cq) && ClaimsOk(owners, submitted, inflight, cq) && cq != []
    requires f in owners && Claims(o) == Claims(owners[f]) - {cq[0].idx}
    requires f == submitted[cq[0].idx].fd
    ensures OutOk(owners[f := o], submitted, inflight, cq[1..]) && ClaimsOk(owners[f := o], submitted, inflight, cq[1..])
  {
    var owners', cq' := owners[f := o], cq[1..];
    assert forall n :: n != cq[0].idx && Claimed(owners, submitted, n) ==> Claimed(owners', submitted, n);
    forall g, n | g in owners' && n in Claims(owners'[g])
      ensures n in inflight || Answering(cq', n)
    {
      assert EntryOf(submitted, n, g) && n in Claims(owners[g]);
      if k :| 0 <= k < |cq| && cq[k].idx == n && k > 0 { assert cq'[k - 1].idx == n; }
    }
  }

  lemma SettledReplies(s: State, f: Fd, c: Conn)
    requires ConnsOk(s.conns, s.submitted, s.inflight) && OutOk(OwnersOf(s.conns), s.submitted, s.inflight, s.cq)
    requires RepliesOk(s.conns, s.submitted, s.cq) && s.cq != [] && f == s.submitted[s.cq[0].idx].fd
    requires f in s.conns && (s.submitted[s.cq[0].idx].kind.Close? ==> s.conns[f].own.InClose?)
    ensures RepliesOk(s.conns[f := c], s.submitted, s.cq[1..])
  {
    OwnerByKind(s, s.cq[0].idx);
    forall k | 0 < k < |s.cq|
      ensures ReplyOk(s.conns[f := c], s.submitted, s.cq[k])
    {
      assert ReplyOk(s.conns, s.submitted, s.cq[k]);
      OwnerByKind(s, s.cq[k].idx);
    }
  }
}
