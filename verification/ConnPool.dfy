/** conn_pool.go and the `fork` of conn.go: which connection object and which pair of ring
    buffers belong to whom.

    Connection objects are shared between the managers' maps, the pool and the callers, so
    they live in an explicit store and are referred to by address. */
module ConnPool {

  type Ref = nat

  /** The identity of a ring buffer. */
  type Buf = nat

  datatype BufPtr = NoBuf | Buf(id: Buf)

  datatype Conn = Conn(fd: int, key: int, udp: bool, inbound: BufPtr, outbound: BufPtr, nextAsyncOp: int) {
    /** Two different buffers. */
    predicate Equipped() {
      inbound.Buf? && outbound.Buf? && inbound != outbound
    }

    ghost function Buffers(): set<Buf> {
      (if inbound.Buf? then {inbound.id} else {}) + (if outbound.Buf? then {outbound.id} else {})
    }

    /** Nothing of a former use is left that a new one could see. */
    predicate Blank() {
      fd == 0 && key == 0 && !udp && inbound.NoBuf? && outbound.NoBuf?
    }

    /** conn_pool.go:36-49: `nextAsyncOp` and the addresses, which are not modelled, stay. */
    function Cleared(): (c: Conn)
      ensures c.Blank() && c.nextAsyncOp == nextAsyncOp
    {
      Conn(0, 0, false, NoBuf, NoBuf, nextAsyncOp)
    }
  }

  // ---------------------------------------------------------------- who has which connection

  /** Registered connections know their key. */
  ghost predicate KeysOk(connections: map<int, Ref>, store: map<Ref, Conn>) {
    forall k :: k in connections ==> connections[k] in store && store[connections[k]].key == k
  }

  /** `r` is not registered. */
  ghost predicate Free(connections: map<int, Ref>, r: Ref) {
    forall k :: k in connections ==> connections[k] != r
  }

  /** The registered connections by key. */
  ghost function LiveOf(connections: map<int, Ref>, store: map<Ref, Conn>): (live: map<int, Conn>)
    requires KeysOk(connections, store)
    ensures live.Keys == connections.Keys
  {
    map k | k in connections :: store[connections[k]]
  }

  /** Registering a connection that was not registered. */
  lemma LiveInsert(connections: map<int, Ref>, store: map<Ref, Conn>, key: int, r: Ref, c: Conn)
    requires KeysOk(connections, store) && key !in connections && c.key == key && Free(connections, r)
    ensures KeysOk(connections[key := r], store[r := c])
    ensures LiveOf(connections[key := r], store[r := c]) == LiveOf(connections, store)[key := c]
  {
    var left, right := LiveOf(connections[key := r], store[r := c]), LiveOf(connections, store)[key := c];
    assert forall k :: k in left ==> left[k] == right[k];
  }

  /** Updating a registered connection. */
  lemma LiveUpdate(connections: map<int, Ref>, store: map<Ref, Conn>, key: int, c: Conn)
    requires KeysOk(connections, store) && key in connections && c.key == key
    ensures KeysOk(connections, store[connections[key] := c])
    ensures LiveOf(connections, store[connections[key] := c]) == LiveOf(connections, store)[key := c]
  {
    var left, right := LiveOf(connections, store[connections[key] := c]), LiveOf(connections, store)[key := c];
    assert forall k :: k in left ==> left[k] == right[k];
  }

  /** Clearing a connection that is no longer registered. */
  lemma LiveRemove(connections: map<int, Ref>, store: map<Ref, Conn>, key: int, c: Conn)
    requires KeysOk(connections, store) && key in connections
    ensures KeysOk(connections - {key}, store[connections[key] := c])
    ensures LiveOf(connections - {key}, store[connections[key] := c]) == LiveOf(connections, store) - {key}
    ensures |connections - {key}| == |connections| - 1
  {
    assert (connections - {key}).Keys == connections.Keys - {key};
    var left := LiveOf(connections - {key}, store[connections[key] := c]);
    var right := LiveOf(connections, store) - {key};
    assert forall k :: k in left ==> left[k] == right[k];
  }

  /** The managers' numbers of the connections that were handed out and not put back. */
  type Holders = map<Ref, nat>

  /** The connections of manager `id` are its own. */
  ghost predicate Mine(connections: map<int, Ref>, held: Holders, id: nat) {
    forall k :: k in connections ==> connections[k] in held && held[connections[k]] == id
  }

  /** What a call of manager `id` leaves alone: everything other managers have. */
  ghost predicate Others(id: nat, held: Holders, store: map<Ref, Conn>, held': Holders, store': map<Ref, Conn>) {
    forall r :: r in held && held[r] != id && r in store ==>
      r in held' && held'[r] == held[r] && r in store' && store'[r] == store[r]
  }

  lemma StillMine(connections: map<int, Ref>, id: nat, caller: nat,
                  held: Holders, store: map<Ref, Conn>, held': Holders, store': map<Ref, Conn>)
    requires Others(caller, held, store, held', store') && id != caller
    requires Mine(connections, held, id) && KeysOk(connections, store)
    ensures Mine(connections, held', id) && KeysOk(connections, store')
    ensures LiveOf(connections, store') == LiveOf(connections, store)
  {
    var left, right := LiveOf(connections, store'), LiveOf(connections, store);
    assert forall k :: k in left ==> left[k] == right[k];
  }

  lemma PutOver(store: map<Ref, Conn>, r: Ref, b: Conn, c: Conn)
    ensures store[r := b][r := c] == store[r := c]
  {
  }

  lemma PutOverBoth(store: map<Ref, Conn>, q: Ref, p: Conn, r: Ref, b: Conn, c: Conn)
    ensures store[r := b][q := p][r := c] == store[q := p][r := c]
  {
  }

  // ---------------------------------------------------------------- who has which buffer

  /** The connection each buffer in use belongs to. */
  type Users = map<Buf, Ref>

  /** Connection `r` has two different buffers, and they are its own. */
  ghost predicate Has(c: Conn, r: Ref, users: Users) {
    c.Equipped() && c.inbound.id in users && users[c.inbound.id] == r && c.outbound.id in users && users[c.outbound.id] == r
  }

  ghost predicate AllHave(held: Holders, store: map<Ref, Conn>, users: Users) {
    forall r :: r in held ==> r in store && Has(store[r], r, users)
  }

  lemma HaveMore(held: Holders, store: map<Ref, Conn>, users: Users, r: Ref, c: Conn, id: nat, i: Buf, o: Buf)
    requires AllHave(held, store, users) && r !in held && i !in users && o !in users && i != o
    requires c.inbound == Buf(i) && c.outbound == Buf(o)
    ensures AllHave(held[r := id], store[r := c], users[i := r][o := r])
  {
  }

  lemma HaveLess(held: Holders, store: map<Ref, Conn>, users: Users, r: Ref, c: Conn)
    requires AllHave(held, store, users) && r in held
    ensures AllHave(held - {r}, store[r := c], users - store[r].Buffers())
  {
  }

  /** The child takes the parent's buffers and the parent gets `i` and `o`. */
  lemma HaveChild(held: Holders, store: map<Ref, Conn>, users: Users, parent: Ref, p: Conn, r: Ref, c: Conn,
                  id: nat, i: Buf, o: Buf)
    requires AllHave(held, store, users) && parent in held && r !in held && i !in users && o !in users && i != o
    requires c.inbound == store[parent].inbound && c.outbound == store[parent].outbound
    requires p.inbound == Buf(i) && p.outbound == Buf(o)
    ensures AllHave(held[r := id], store[parent := p][r := c],
                    users[c.inbound.id := r][c.outbound.id := r][i := parent][o := parent])
  {
  }

  /** The process-wide pools and the store of connection objects, shared by all managers. A
      pool may forget what was put into it. `held` and `users` record which manager got which
      connection and which connection got which buffer. */
  class Pools {
    var store: map<Ref, Conn>
    var conns: set<Ref>
    var buffers: set<Buf>
    var nextRef: Ref
    var nextBuf: Buf
    ghost var held: Holders
    ghost var users: Users

    /** Pooled objects and buffers are nobody's. */
    ghost predicate PoolsOk()
      reads this
    {
      && (forall r :: r in store ==> r < nextRef)
      && (forall r :: r in conns ==> r in store && r !in held && store[r].Blank())
      && (forall b :: b in buffers ==> b < nextBuf && b !in users)
      && (forall b :: b in users ==> b < nextBuf)
    }

    ghost predicate Valid()
      reads this
    {
      PoolsOk() && AllHave(held, store, users)
    }

    constructor ()
      ensures Valid() && store == map[] && held == map[]
    {
      store, conns, buffers, nextRef, nextBuf, held, users := map[], {}, {}, 0, 0, map[], map[];
    }

    /** `ringbuffer.Get`: a pooled buffer or a new one; nobody has it */
    method GetBuffer() returns (b: Buf)
      requires PoolsOk()
      modifies this`buffers, this`nextBuf
      ensures PoolsOk() && b !in users && b < nextBuf && buffers == old(buffers) - {b}
      ensures b in old(buffers) || b == old(nextBuf)
      ensures old(nextBuf) <= nextBuf
    {
      if * {
        if buffers != {} {
          b :| b in buffers;
          buffers := buffers - {b};
          return;
        }
      }
      b, nextBuf := nextBuf, nextBuf + 1;
    }

    /** `ringbuffer.Put`: the pool may decline, for instance a buffer that is too large */
    method PutBuffer(b: BufPtr)
      requires PoolsOk() && b.Buf? && b.id < nextBuf && b.id !in users
      modifies this`buffers
      ensures PoolsOk() && old(buffers) <= buffers <= old(buffers) + {b.id}
    {
      if * { buffers := buffers + {b.id}; }
    }

    /** Two different buffers that nobody has. */
    method GetBuffers() returns (i: Buf, o: Buf)
      requires PoolsOk()
      modifies this`buffers, this`nextBuf
      ensures PoolsOk() && i != o && i !in users && o !in users && i < nextBuf && o < nextBuf
      ensures i !in buffers && o !in buffers && buffers <= old(buffers)
    {
      i := GetBuffer();
      o := GetBuffer();
    }

    /** A pooled connection object or a new one; nobody has it. */
    method TakeObject() returns (r: Ref)
      requires Valid()
      modifies this`store, this`conns, this`nextRef
      ensures Valid() && r !in held && r !in conns && r in store && store == old(store)[r := store[r]] && store[r].Blank()
    {
      if * {
        if conns != {} {
          r :| r in conns;
          conns := conns - {r};
          return;
        }
      }
      r, nextRef := nextRef, nextRef + 1;
      store := store[r := Conn(0, 0, false, NoBuf, NoBuf, 0)];
    }

    /** conn_pool.go:54-64 for manager `id`: a connection nobody has, with two buffers nobody has */
    method GetConnection(ghost id: nat) returns (r: Ref)
      requires Valid()
      modifies this
      ensures Valid() && r !in old(held) && held == old(held)[r := id] && r in store && store == old(store)[r := store[r]]
      ensures store[r].fd == 0 && store[r].key == 0 && !store[r].udp
      ensures Has(store[r], r, users) && store[r].inbound.id !in old(users) && store[r].outbound.id !in old(users)
    {
      r := TakeObject();
      ghost var before := store[r];
      var i, o := GetBuffers();
      var c := store[r].(inbound := Buf(i), outbound := Buf(o));
      HaveMore(held, store, users, r, c, id, i, o);
      store := store[r := c];
      held, users := held[r := id], users[i := r][o := r];
      PutOver(old(store), r, before, c);
    }

    /** The caller of `GetConnection` sets descriptor and key. */
    method Label(r: Ref, fd: int, key: int)
      requires Valid() && r in held
      modifies this`store
      ensures Valid() && store == old(store)[r := old(store)[r].(fd := fd, key := key)]
    {
      store := store[r := store[r].(fd := fd, key := key)];
    }

    /** conn_manager.go:30 and conn.go:352-353: an object, whose own two buffers are given up,
        and two more buffers. */
    method PrepareFork() returns (forked: Ref, i: Buf, o: Buf)
      requires Valid()
      modifies this`store, this`conns, this`nextRef, this`buffers, this`nextBuf
      ensures Valid() && forked !in held && forked !in conns && forked in store && store == old(store)[forked := store[forked]]
      ensures i != o && i !in users && o !in users && i < nextBuf && o < nextBuf && i !in buffers && o !in buffers
    {
      forked := TakeObject();
      var _, _ := GetBuffers();
      i, o := GetBuffers();
    }

    /** conn.go:334-357: `forked`, which was just obtained, takes over descriptor and buffers
        of `conn`, which gets two other buffers. */
    method Fork(conn: Ref, key: int, ghost id: nat) returns (forked: Ref)
      requires Valid() && conn in held
      modifies this
      ensures Valid() && conn in store && forked in store && forked !in old(held) && held == old(held)[forked := id]
      ensures var p, p', c := old(store)[conn], store[conn], store[forked];
              && store == old(store)[conn := p'][forked := c]
              && p' == p.(inbound := p'.inbound, outbound := p'.outbound) && Has(p', conn, users)
              && p'.inbound.id !in old(users) && p'.outbound.id !in old(users)
              && c.fd == p.fd && c.key == key && c.udp && c.inbound == p.inbound && c.outbound == p.outbound
    {
      var i, o;
      forked, i, o := PrepareFork();
      ghost var before := store[forked];
      var p := store[conn];
      var c := store[forked].(fd := p.fd, key := key, udp := true, inbound := p.inbound, outbound := p.outbound);
      var p' := p.(inbound := Buf(i), outbound := Buf(o));
      HaveChild(held, store, users, conn, p', forked, c, id, i, o);
      store := store[conn := p'][forked := c];
      held, users := held[forked := id], users[c.inbound.id := forked][c.outbound.id := forked][i := conn][o := conn];
      PutOverBoth(old(store), conn, p', forked, before, c);
    }

    /** conn_pool.go:36-52: both buffers go back to the pool; descriptor, key, network and
        buffers are cleared */
    method PutConnection(r: Ref)
      requires Valid() && r in held
      modifies this
      ensures Valid() && held == old(held) - {r} && store == old(store)[r := old(store)[r].Cleared()]
      ensures old(buffers) <= buffers <= old(buffers) + old(store)[r].Buffers()
      ensures conns == old(conns) + {r}
    {
      var c := store[r];
      HaveLess(held, store, users, r, c.Cleared());
      users := users - c.Buffers();
      PutBuffer(c.inbound);
      PutBuffer(c.outbound);
      store := store[r := c.Cleared()];
      held := held - {r};
      conns := conns + {r};
    }
  }
}
