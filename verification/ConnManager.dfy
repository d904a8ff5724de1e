/** conn_manager.go and key_pool.go: the registered connections of one worker and their keys. */
module ConnManager {
  import opened ConnPool

  ghost predicate AllZero(stack: seq<nat>) {
    forall i :: 0 <= i < |stack| ==> stack[i] == 0
  }

  /** The descriptors of the connections among `keys` whose close request is accepted,
      `skipped` aside. */
  ghost function AcceptedFds(live: map<int, Conn>, keys: set<int>, accepts: set<int>, skipped: int): set<int>
    requires keys <= live.Keys
  {
    set k | k in keys && k in accepts && live[k].fd != skipped :: live[k].fd
  }

  lemma AcceptOne(live: map<int, Conn>, keys: set<int>, accepts: set<int>, skipped: int, k: int)
    requires keys <= live.Keys && k in live
    ensures AcceptedFds(live, keys + {k}, accepts, skipped) ==
            AcceptedFds(live, keys, accepts, skipped) + if live[k].fd != skipped && k in accepts then {live[k].fd} else {}
  {
  }

  /** conn_manager.go:74-80: the loop of `close`; `accepts` holds the keys whose callback
      returns true. */
  method CollectFds(connections: map<int, Ref>, store: map<Ref, Conn>, accepts: set<int>, skipped: int)
    returns (fds: set<int>)
    requires KeysOk(connections, store)
    ensures fds == AcceptedFds(LiveOf(connections, store), connections.Keys, accepts, skipped)
  {
    fds := {};
    ghost var live := LiveOf(connections, store);
    var todo := connections.Keys;
    while exists k :: k in todo
      invariant todo <= connections.Keys
      invariant fds == AcceptedFds(live, live.Keys - todo, accepts, skipped)
      decreases |todo|
    {
      var k :| k in todo;
      var value := store[connections[k]];
      AcceptOne(live, live.Keys - todo, accepts, skipped, k);
      assert live.Keys - todo + {k} == live.Keys - (todo - {k});
      if value.fd != skipped && k in accepts { fds := fds + {value.fd}; }
      todo := todo - {k};
    }
    assert live.Keys - todo == live.Keys;
  }

  /** What is still owed. */
  lemma NothingOwed(owed: set<int>, paid: set<int>)
    ensures |owed - paid| == 0 <==> owed <= paid
  {
    if owed <= paid { assert owed - paid == {}; }
    if |owed - paid| == 0 {
      forall fd | fd in owed ensures fd in paid { assert fd !in owed - paid; }
    }
  }

  // ---------------------------------------------------------------- the three changes to the map

  /** The map counts and knows its connections, and they are the manager's own. */
  ghost predicate Tables(connections: map<int, Ref>, count: int, store: map<Ref, Conn>, held: Holders, id: nat) {
    KeysOk(connections, store) && Mine(connections, held, id) && count == |connections|
  }

  lemma Register(connections: map<int, Ref>, store: map<Ref, Conn>, held: Holders, id: nat, key: int, r: Ref, c: Conn)
    requires Tables(connections, |connections|, store, held, id)
    requires key !in connections && c.key == key && r !in held
    ensures Tables(connections[key := r], |connections| + 1, store[r := c], held[r := id], id)
    ensures LiveOf(connections[key := r], store[r := c]) == LiveOf(connections, store)[key := c]
    ensures Others(id, held, store, held[r := id], store[r := c])
  {
    LiveInsert(connections, store, key, r, c);
  }

  lemma Deregister(connections: map<int, Ref>, store: map<Ref, Conn>, held: Holders, id: nat, key: int, c: Conn)
    requires Tables(connections, |connections|, store, held, id) && key in connections
    ensures var r := connections[key];
            && Tables(connections - {key}, |connections| - 1, store[r := c], held - {r}, id)
            && LiveOf(connections - {key}, store[r := c]) == LiveOf(connections, store) - {key}
            && Others(id, held, store, held - {r}, store[r := c])
  {
    LiveRemove(connections, store, key, c);
  }

  lemma HandDown(connections: map<int, Ref>, store: map<Ref, Conn>, held: Holders, id: nat,
                 parent: int, p: Conn, key: int, r: Ref, c: Conn)
    requires Tables(connections, |connections|, store, held, id)
    requires parent in connections && p.key == parent && key !in connections && c.key == key && r !in held
    ensures var connections', store' := connections[key := r], store[connections[parent] := p][r := c];
            && Tables(connections', |connections| + 1, store', held[r := id], id)
            && LiveOf(connections', store') == LiveOf(connections, store)[parent := p][key := c]
            && Others(id, held, store, held[r := id], store')
  {
    LiveUpdate(connections, store, parent, p);
    LiveInsert(connections, store[connections[parent] := p], key, r, c);
  }

  /** The child has descriptor and buffers of its parent, which is the same but for two other
      buffers; nobody else has changed. */
  ghost predicate Handed(before: map<int, Conn>, after: map<int, Conn>, parent: int, key: int) {
    && parent in before && parent in after && key in after
    && after == before[parent := after[parent]][key := after[key]]
    && var p, p', c := before[parent], after[parent], after[key];
       && c.inbound == p.inbound && c.outbound == p.outbound && c.fd == p.fd && c.udp
       && p' == p.(inbound := p'.inbound, outbound := p'.outbound) && p'.Equipped() && p'.Buffers() !! p.Buffers()
  }

  lemma HandedDown(before: map<int, Conn>, parent: int, p': Conn, key: int, c: Conn)
    requires parent in before && key !in before
    requires var p := before[parent];
             && c.inbound == p.inbound && c.outbound == p.outbound && c.fd == p.fd && c.udp
             && p' == p.(inbound := p'.inbound, outbound := p'.outbound) && p'.Equipped() && p'.Buffers() !! p.Buffers()
    ensures Handed(before, before[parent := p'][key := c], parent, key)
  {
  }

  const FIRST_FREE_KEY: nat := 2

  /** key_pool.go; the stack is the one of TreiberStack.dfy, used by one thread. */
  class KeyPool {
    var stack: seq<nat>
    var nextKey: nat

    constructor ()
      ensures stack == [] && nextKey == FIRST_FREE_KEY
    {
      stack, nextKey := [], FIRST_FREE_KEY;
    }

    /** Pop; a popped 0 and an empty stack both mean: issue a new key. */
    method Get() returns (key: nat)
      modifies this
      ensures stack == if old(stack) == [] then [] else old(stack)[1..]
      ensures if old(stack) != [] && old(stack)[0] != 0 then key == old(stack)[0] && nextKey == old(nextKey)
              else key == old(nextKey) && nextKey == old(nextKey) + 1
    {
      key := 0;
      if stack != [] {
        key := stack[0];
        stack := stack[1..];
      }
      if key == 0 {
        nextKey := nextKey + 1;
        key := nextKey - 1;
      }
    }

    method Put(key: nat)
      modifies this`stack
      ensures stack == [key] + old(stack)
    {
      stack := [key] + stack;
    }
  }

  class ConnectionManager {
    var connections: map<int, Ref>
    var connectionsCount: int
    var closing: bool
    var releaseFdSet: set<int>
    const keyPool: KeyPool
    const pools: Pools
    ghost const id: nat

    /** Since the last `close`: the descriptors whose close request was accepted, and the
        keys released. */
    ghost var owed: set<int>
    ghost var paid: set<int>

    ghost function Live(): (live: map<int, Conn>)
      requires KeysOk(connections, pools.store)
      reads this, pools
    {
      LiveOf(connections, pools.store)
    }

    ghost predicate Valid()
      reads this, keyPool, pools
    {
      && pools.Valid() && Tables(connections, connectionsCount, pools.store, pools.held, id)
      && AllZero(keyPool.stack) && keyPool.nextKey >= FIRST_FREE_KEY
      && (closing ==> releaseFdSet == owed - paid)
    }

    constructor (pools: Pools, ghost id: nat)
      requires pools.Valid()
      ensures Valid() && fresh(keyPool) && this.pools == pools && this.id == id
      ensures connections == map[] && !closing && keyPool.nextKey == FIRST_FREE_KEY
    {
      connections, connectionsCount, closing, releaseFdSet := map[], 0, false, {};
      keyPool := new KeyPool();
      this.pools := pools;
      this.id := id;
      owed, paid := {}, {};
    }

    /** conn_manager.go:42-55: the registered connection, or a new one that shares nothing. */
    method Get(key: int, fd: int) returns (conn: Ref)
      requires Valid()
      modifies this`connections, this`connectionsCount, pools
      ensures Valid() && key in connections && conn == connections[key]
      ensures Others(id, old(pools.held), old(pools.store), pools.held, pools.store)
      ensures key in old(connections) ==> connections == old(connections) && Live() == old(Live())
      ensures key !in old(connections) ==> connections == old(connections)[key := conn]
      ensures key !in old(connections) ==> Live() == old(Live())[key := Live()[key]]
      ensures key !in old(connections) ==> Live()[key].fd == fd && !Live()[key].udp && Live()[key].Equipped()
    {
      if key in connections { return connections[key]; }
      conn := pools.GetConnection(id);
      pools.Label(conn, fd, key);
      connections := connections[key := conn];
      connectionsCount := connectionsCount + 1;
      ghost var c := pools.store[conn];
      assert pools.store == old(pools.store)[conn := c];
      Register(old(connections), old(pools.store), old(pools.held), id, key, conn, c);
    }

    /** conn_manager.go:57-66. The connection is cleared before its key is put back, so what
        reaches the key pool is 0. */
    method Release(key: int)
      requires Valid()
      modifies this`connections, this`connectionsCount, this`releaseFdSet, this`paid, pools, keyPool`stack
      ensures Valid() && Live() == old(Live()) - {key}
      ensures Others(id, old(pools.held), old(pools.store), pools.held, pools.store)
      ensures key in old(connections) ==> keyPool.stack == [0] + old(keyPool.stack) && paid == old(paid) + {key}
      ensures key in old(connections) ==> connections == old(connections) - {key}
      ensures key !in old(connections) ==> keyPool.stack == old(keyPool.stack) && paid == old(paid)
      ensures key !in old(connections) ==> connections == old(connections)
    {
      if key in connections {
        var conn := Detach(key);
        releaseFdSet := releaseFdSet - {key};
        paid := paid + {key};
        keyPool.Put(pools.store[conn].key);
      } else {
        assert Live() == old(Live()) - {key};
      }
    }

    /** conn_manager.go:60-62 */
    method Detach(key: int) returns (conn: Ref)
      requires Valid() && key in connections
      modifies this`connections, this`connectionsCount, pools
      ensures Valid() && conn in pools.store && pools.store[conn].key == 0
      ensures Others(id, old(pools.held), old(pools.store), pools.held, pools.store)
      ensures connections == old(connections) - {key} && Live() == old(Live()) - {key}
    {
      conn := connections[key];
      connections := connections - {key};
      connectionsCount := connectionsCount - 1;
      pools.PutConnection(conn);
      Deregister(old(connections), old(pools.store), old(pools.held), id, key, pools.store[conn]);
    }

    /** conn_manager.go:27-36 and conn.go:334-357: a connection under a newly issued key takes
        over both buffers of its parent, and the parent gets two others. The manager stays
        consistent exactly if the issued key was not registered already. */
    method Fork(parent: int) returns (key: nat)
      requires Valid() && parent in connections
      modifies this`connections, this`connectionsCount, pools, keyPool
      ensures key == old(keyPool.nextKey) && keyPool.nextKey == key + 1
      ensures parent in connections && key in connections && connections == old(connections)[key := connections[key]]
      ensures Others(id, old(pools.held), old(pools.store), pools.held, pools.store) && pools.Valid()
      ensures Valid() <==> key !in old(connections)
      ensures key !in old(connections) ==>
                Handed(old(Live()), Live(), parent, key)
    {
      key := keyPool.Get();
      var conn := connections[parent];
      assert Has(pools.store[conn], conn, pools.users);
      var forked := pools.Fork(conn, key, id);
      connections := connections[key := forked];
      connectionsCount := connectionsCount + 1;
      if key !in old(connections) {
        HandDown(old(connections), old(pools.store), old(pools.held), id, parent, pools.store[conn],
                 key, forked, pools.store[forked]);
        HandedDown(old(Live()), parent, pools.store[conn], key, pools.store[forked]);
      } else {
        assert connections.Keys == old(connections).Keys;
      }
    }

    /** conn_manager.go:68-81 */
    method Close(accepts: set<int>, fdSkipped: int)
      requires Valid()
      modifies this`closing, this`releaseFdSet, this`owed, this`paid
      ensures Valid() && closing && Live() == old(Live())
      ensures owed == AcceptedFds(Live(), connections.Keys, accepts, fdSkipped) && paid == {}
    {
      closing := true;
      releaseFdSet := CollectFds(connections, pools.store, accepts, fdSkipped);
      owed, paid := releaseFdSet, {};
    }

    /** conn_manager.go:83-85: true exactly if `close` was called and every accepted descriptor
        has since been released as a key. */
    method AllClosed() returns (all: bool)
      requires Valid()
      ensures all <==> closing && owed <= paid
    {
      all := closing && |releaseFdSet| == 0;
      NothingOwed(owed, paid);
    }

    /** conn_manager.go:87-89 */
    method ActiveConnections() returns (n: int)
      requires Valid()
      ensures n == |Live()|
    {
      n := connectionsCount;
    }
  }
}
