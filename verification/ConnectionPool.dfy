/**
 The pool of sidecar connections: replaced and deleted connections are closed, inactive ones are
 reconnected when they are looked up.
 */
module ConnectionPool {
  type Capabilities = seq<string>

  /** What dialling an endpoint leads to; served is what the sidecar then answers. */
  datatype Answer = DialFails | FetchFails | Serves(served: Capabilities)

  /** A gRPC client; served is what the sidecar answered through it. */
  class Client {
    var shutdown: bool
    const served: Capabilities

    constructor (served: Capabilities)
      ensures !shutdown && this.served == served
    {
      this.served, shutdown := served, false;
    }
  }

  class Connection {
    const driver: string
    const node: string
    var client: Client?
    var capabilities: Capabilities

    constructor (driver: string, node: string)
      ensures this.driver == driver && this.node == node && client == null && Sound()
    {
      this.driver, this.node, client, capabilities := driver, node, null, [];
    }

    /** The capabilities of a connected sidecar are those fetched through its client. */
    predicate Sound()
      reads this
    {
      client != null ==> capabilities == client.served
    }

    predicate Live()
      reads this, client
    {
      client != null && !client.shutdown
    }

    /** A live client is reused; otherwise a new one is dialled and its capabilities are fetched. */
    method Connect(a: Answer) returns (ok: bool)
      requires Sound()
      modifies this
      ensures Sound() && (ok <==> old(Live()) || a.Serves?)
      ensures if ok then Live() else client == null && capabilities == old(capabilities)
      ensures old(Live()) ==> client == old(client) && capabilities == old(capabilities)
      ensures !old(Live()) && ok ==> fresh(client) && capabilities == a.served
    {
      if client != null {
        if !client.shutdown {
          return true;
        }
        client := null;
      }
      if a.DialFails? {
        return false;
      }
      client := new Client(if a.Serves? then a.served else []);
      if a.FetchFails? {
        client.shutdown := true;
        client := null;
        return false;
      }
      capabilities := a.served;
      return true;
    }

    method Close()
      modifies this, client
      ensures client == null && capabilities == old(capabilities)
      ensures old(client) != null ==> old(client).shutdown
    {
      if client != null {
        client.shutdown := true;
        client := null;
      }
    }
  }

  method NewConnection(driver: string, node: string, a: Answer) returns (c: Connection?)
    ensures c != null <==> a.Serves?
    ensures c != null ==> fresh(c) && c.driver == driver && c.node == node && c.Live() && c.capabilities == a.served && c.Sound()
  {
    c := new Connection(driver, node);
    var ok := c.Connect(a);
    if !ok {
      c := null;
    }
  }

  // ----- What the pool should hold -----

  datatype Op = Put(key: string, conn: Connection) | Delete(key: string)

  /** The last operation on key is the i-th. */
  predicate LastOn(h: seq<Op>, key: string, i: int) {
    0 <= i < |h| && h[i].key == key && forall j :: i < j < |h| ==> h[j].key != key
  }

  /** Under each key the pool holds the last connection put there, unless the key was deleted since. */
  ghost predicate Mirrors(pool: map<string, Connection>, h: seq<Op>) {
    && (forall key, i :: LastOn(h, key, i) ==> if h[i].Put? then key in pool && pool[key] == h[i].conn else key !in pool)
    && (forall key :: key in pool ==> exists i :: LastOn(h, key, i))
  }

  function Applied(pool: map<string, Connection>, op: Op): map<string, Connection> {
    match op
    case Put(key, c) => pool[key := c]
    case Delete(key) => pool - {key}
  }

  lemma MirrorsStep(pool: map<string, Connection>, h: seq<Op>, op: Op)
    requires Mirrors(pool, h)
    ensures Mirrors(Applied(pool, op), h + [op])
  {
    var h' := h + [op];
    assert LastOn(h', op.key, |h|);
    forall key, i | LastOn(h', key, i) && key != op.key
      ensures LastOn(h, key, i)
    {
      assert forall j :: i < j < |h| ==> h[j] == h'[j];
    }
    forall key | key in pool && key != op.key
      ensures exists i :: LastOn(h', key, i)
    {
      var i :| LastOn(h, key, i);
      assert LastOn(h', key, i);
    }
  }

  /** The connections ever put. */
  ghost function Known(h: seq<Op>): set<Connection> { set op | op in h && op.Put? :: op.conn }

  lemma AllKnown(pool: map<string, Connection>, h: seq<Op>)
    requires Mirrors(pool, h)
    ensures pool.Values <= Known(h)
  {
    forall key | key in pool
      ensures pool[key] in Known(h)
    {
      var i :| LastOn(h, key, i);
      assert h[i] in h;
    }
  }

  /** An operation forgets no connection but the one it replaces. */
  lemma KnownStep(pool: map<string, Connection>, h: seq<Op>, op: Op)
    ensures forall c :: c in Known(h + [op]) ==> c in Known(h) || c in Applied(pool, op).Values
    ensures forall c :: c in pool.Values && (op.key in pool ==> pool[op.key] != c) ==> c in Applied(pool, op).Values
  {
    var after := Applied(pool, op);
    forall c | c in pool.Values && (op.key in pool ==> pool[op.key] != c)
      ensures c in after.Values
    {
      var k :| k in pool && pool[k] == c;
      assert k in after && after[k] == c;
    }
    if op.Put? {
      assert op.key in after && after[op.key] == op.conn;
    }
  }

  datatype Found = Failed | Found(conns: map<string, Connection>)

  class Pool {
    var pool: map<string, Connection>
    ghost var history: seq<Op>

    /** A connection replaced or deleted, and not stored under another key, has no client. */
    ghost predicate Closed()
      reads this, Known(history)
    {
      forall c :: c in Known(history) ==> c.Sound() && (c.client != null ==> c in pool.Values)
    }

    ghost predicate Valid()
      reads this, Known(history)
    {
      Mirrors(pool, history) && Closed()
    }

    constructor ()
      ensures Valid() && pool == map[] && history == []
    {
      pool, history := map[], [];
    }

    ghost function At(key: string): set<object>
      reads this, pool.Values
    {
      if key !in pool then {}
      else if pool[key].client == null then {pool[key]} else {pool[key], pool[key].client}
    }

    method CloseAt(key: string)
      requires Valid()
      modifies At(key)
      ensures Valid() && pool == old(pool) && history == old(history)
      ensures key in pool ==> pool[key].client == null
    {
      if key in pool {
        AllKnown(pool, history);
        pool[key].Close();
      }
    }

    method Put(key: string, conn: Connection)
      requires Valid() && conn.Sound()
      modifies this, At(key)
      ensures Valid() && pool == old(pool)[key := conn] && history == old(history) + [Op.Put(key, conn)]
      ensures key in old(pool) ==> old(pool)[key].client == null
    {
      CloseAt(key);
      MirrorsStep(pool, history, Op.Put(key, conn));
      KnownStep(pool, history, Op.Put(key, conn));
      pool, history := pool[key := conn], history + [Op.Put(key, conn)];
    }

    method Delete(key: string)
      requires Valid()
      modifies this, At(key)
      ensures Valid() && pool == old(pool) - {key} && history == old(history) + [Op.Delete(key)]
      ensures key in old(pool) ==> old(pool)[key].client == null
    {
      CloseAt(key);
      MirrorsStep(pool, history, Op.Delete(key));
      KnownStep(pool, history, Op.Delete(key));
      pool, history := pool - {key}, history + [Op.Delete(key)];
    }

    /** Some connection of the driver is down and cannot be dialled. */
    ghost predicate Unreachable(driver: string, dial: Connection -> Answer)
      reads this, pool.Values, set c | c in pool.Values && c.client != null :: c.client
    {
      exists k :: k in pool && pool[k].driver == driver && !pool[k].Live() && !dial(pool[k]).Serves?
    }

    method Reach(c: Connection, a: Answer) returns (ok: bool)
      requires Closed() && c in pool.Values && c in Known(history)
      modifies c
      ensures Closed() && (ok <==> old(c.Live()) || a.Serves?) && (c.Live() <==> ok)
      ensures old(c.Live()) ==> c.client == old(c.client) && c.capabilities == old(c.capabilities)
      ensures forall d :: d in pool.Values && d != c ==> d.Live() == old(d.Live())
    {
      ok := c.Connect(a);
    }

    /** Lookups that run at the same time, under the same read lock: they too connect pooled connections, one at a time. */
    method Others(cs: seq<Connection>, dial: Connection -> Answer)
      requires Closed() && pool.Values <= Known(history)
      modifies pool.Values
      ensures Closed()
      ensures forall c :: c in pool.Values && old(c.Live()) ==> c.Live() && c.client == old(c.client) && c.capabilities == old(c.capabilities)
      ensures forall c :: c in pool.Values && c.Live() ==> old(c.Live()) || dial(c).Serves?
    {
      for i := 0 to |cs|
        invariant Closed()
        invariant forall c :: c in pool.Values && old(c.Live()) ==> c.Live() && c.client == old(c.client) && c.capabilities == old(c.capabilities)
        invariant forall c :: c in pool.Values && c.Live() ==> old(c.Live()) || dial(c).Serves?
      {
        if cs[i] in pool.Values {
          var _ := Reach(cs[i], dial(cs[i]));
        }
      }
    }

    method ReachAmid(c: Connection, cs: seq<Connection>, dial: Connection -> Answer) returns (ok: bool)
      requires Closed() && pool.Values <= Known(history) && c in pool.Values
      modifies pool.Values
      ensures Closed() && (ok <==> old(c.Live()) || dial(c).Serves?) && (ok ==> c.Live())
      ensures forall d :: d in pool.Values && old(d.Live()) ==> d.Live()
      ensures forall d :: d in pool.Values && d.Live() ==> old(d.Live()) || dial(d).Serves?
    {
      Others(cs, dial);
      ok := Reach(c, dial(c));
    }

    /**
     In any order of iteration, and whatever other lookups connect meanwhile before each key is visited: exactly
     the driver's connections, each with a live client through which its capabilities were fetched.
     */
    method GetByDriverName(driver: string, dial: Connection -> Answer, meanwhile: string -> seq<Connection>) returns (r: Found)
      requires Valid()
      modifies pool.Values
      ensures Valid() && (r.Failed? <==> old(Unreachable(driver, dial)))
      ensures r.Found? ==> r.conns.Keys == set k | k in pool && pool[k].driver == driver
      ensures r.Found? ==> forall k :: k in r.conns ==> r.conns[k] == pool[k] && pool[k].Live() && pool[k].Sound()
    {
      var rest, conns := pool.Keys, map[];
      assert pool.Values <= Known(history) by { AllKnown(pool, history); }
      while rest != {}
        invariant rest <= pool.Keys && Closed()
        invariant forall k :: k in conns <==> k in pool && k !in rest && pool[k].driver == driver
        invariant forall k :: k in conns ==> conns[k] == pool[k] && pool[k].Live()
        invariant forall c :: c in pool.Values && old(c.Live()) ==> c.Live()
        invariant forall c :: c in pool.Values && c.Live() ==> old(c.Live()) || dial(c).Serves?
        decreases |rest|
      {
        var k :| k in rest;
        rest := rest - {k};
        var c := pool[k];
        if c.driver == driver {
          assert c in pool.Values;
          var ok := ReachAmid(c, meanwhile(k), dial);
          if !ok {
            return Failed;
          }
          conns := conns[k := c];
        }
      }
      r := Found(conns);
    }

    /** The driver's connections on the node, or on any node if none is given; one that cannot be reached fails them all. */
    method GetByNodeID(driver: string, node: string, dial: Connection -> Answer, meanwhile: string -> seq<Connection>) returns (r: Found)
      requires Valid()
      modifies pool.Values
      ensures Valid() && (r.Failed? <==> old(Unreachable(driver, dial)))
      ensures r.Found? ==> r.conns.Keys == set k | k in pool && pool[k].driver == driver && (node == "" || pool[k].node == node)
      ensures r.Found? ==> forall k :: k in r.conns ==> r.conns[k] == pool[k] && pool[k].Live() && pool[k].Sound()
    {
      var found := GetByDriverName(driver, dial, meanwhile);
      if found.Found? {
        assert pool.Values <= Known(history) by { AllKnown(pool, history); }
        found := OnNode(found.conns, node, dial, meanwhile);
      }
      return found;
    }

    /** The second loop of the lookup by node: its connections are live and stay so. */
    method OnNode(conns: map<string, Connection>, node: string, dial: Connection -> Answer, meanwhile: string -> seq<Connection>) returns (r: Found)
      requires Closed() && pool.Values <= Known(history) && forall k :: k in conns ==> conns[k] in pool.Values && conns[k].Live()
      modifies pool.Values
      ensures Closed() && r.Found? && r.conns.Keys == set k | k in conns && (node == "" || conns[k].node == node)
      ensures forall k :: k in r.conns ==> r.conns[k] == conns[k] && conns[k].Live()
    {
      var rest, onNode := conns.Keys, map[];
      while rest != {}
        invariant rest <= conns.Keys && Closed() && forall k :: k in conns ==> conns[k].Live()
        invariant forall k :: k in onNode <==> k in conns && k !in rest && (node == "" || conns[k].node == node)
        invariant forall k :: k in onNode ==> onNode[k] == conns[k]
        decreases |rest|
      {
        var k :| k in rest;
        rest := rest - {k};
        var c := conns[k];
        if node == "" || c.node == node {
          var ok := ReachAmid(c, meanwhile(k), dial);
          if !ok {
            return Failed;
          }
          onNode := onNode[k := c];
        }
      }
      r := Found(onNode);
    }
  }
}
