/**
 * The LDAP connection pool.  A pool of positive capacity keeps idle
 * connections in a bounded FIFO (a buffered channel, modelled as a ring
 * buffer over an array) and can be closed; a capacity of zero or less
 * gives a pool that dials on every checkout and closes on every release.
 * Each operation runs atomically (the mutex is not modelled).  Whether a
 * connection is alive is asked of an oracle; closing a connection is
 * recorded in the ghost set `Closed`, and checkouts and releases in the
 * ghost log `History`.
 */
module LdapPool {
  import opened Wrappers

  /** What the caller's `GetMoreUserInfo` returns: extra attributes (possibly nil) and an error. */
  datatype MoreInfo = MoreInfo(extra: Option<map<string, string>>, err: Option<string>)

  datatype LdapConfig = LdapConfig(
    base: string,
    host: string,
    serverName: string,
    port: int,
    bindDN: string,
    bindPassword: string,
    userFilter: string,
    groupFilter: string,
    attributes: seq<string>,
    insecureSkipVerify: bool,
    displayNameAttr: string,
    emailAttr: string,
    poolCapacity: int,
    getMoreUserInfo: Option<(LdapClient, map<string, string>) -> MoreInfo>)

  /** The connection settings of an LDAP client. */
  datatype ClientSettings = ClientSettings(
    base: string,
    host: string,
    serverName: string,
    port: int,
    useSSL: bool,
    bindDN: string,
    bindPassword: string,
    userFilter: string,
    groupFilter: string,
    attributes: seq<string>,
    insecureSkipVerify: bool)

  /** The plain-text LDAP port; every other port is taken to be TLS. */
  const PlainLdapPort: int := 389

  /** `makeClient`'s settings: the configuration's, with TLS on every port but 389. */
  function ClientSettingsOf(config: LdapConfig): (s: ClientSettings)
    ensures s.useSSL <==> config.port != PlainLdapPort
    ensures s.port == config.port && s.host == config.host && s.serverName == config.serverName
    ensures s.base == config.base && s.bindDN == config.bindDN && s.bindPassword == config.bindPassword
    ensures s.userFilter == config.userFilter && s.groupFilter == config.groupFilter
      && s.attributes == config.attributes && s.insecureSkipVerify == config.insecureSkipVerify
  {
    ClientSettings(config.base, config.host, config.serverName, config.port, config.port != PlainLdapPort,
                   config.bindDN, config.bindPassword, config.userFilter, config.groupFilter,
                   config.attributes, config.insecureSkipVerify)
  }

  /** A client; it dials lazily, so making one involves no network. */
  class LdapClient {
    const settings: ClientSettings

    /** `makeClient`. */
    constructor (config: LdapConfig)
      ensures settings == ClientSettingsOf(config)
    {
      settings := ClientSettingsOf(config);
    }
  }

  datatype PoolError = PoolClosed | NilConnection

  /** A checkout handed a connection out; a release took one back. */
  datatype PoolEvent = Checkout(conn: LdapClient) | Release(conn: LdapClient)

  /** The pooling variant: `conns` is the buffered channel, `isClosed` stands for `conns == nil`. */
  class ChanPool {
    const config: LdapConfig
    const capacity: nat
    const buf: array<LdapClient?>
    var head: nat
    var count: nat
    var isClosed: bool
    ghost var Idle: seq<LdapClient>
    ghost var Closed: set<LdapClient>
    ghost var History: seq<PoolEvent>

    /** The buffer slot of the `i`-th oldest idle connection. */
    function Slot(i: nat): nat
      reads this
      requires head < capacity && i < capacity
    {
      if head + i < capacity then head + i else head + i - capacity
    }

    ghost predicate Valid()
      reads this, buf
    {
      && 0 < capacity && buf.Length == capacity
      && head < capacity && count <= capacity
      && |Idle| == count
      && (forall i | 0 <= i < count :: buf[Slot(i)] == Idle[i])
      && (isClosed ==> count == 0)
    }

    /** The pool `NewPool` makes for a positive capacity: open and empty. */
    constructor (config: LdapConfig, capacity: nat)
      requires capacity > 0
      ensures Valid() && fresh(buf)
      ensures this.config == config && this.capacity == capacity
      ensures !isClosed && Idle == [] && Closed == {} && History == []
    {
      this.config := config;
      this.capacity := capacity;
      buf := new LdapClient?[capacity];
      head, count, isClosed := 0, 0, false;
      Idle, Closed, History := [], {}, [];
    }

    /** Takes the oldest idle connection out of the buffer (a receive on the channel). */
    method TakeOldest() returns (c: LdapClient)
      requires Valid() && count > 0
      modifies this
      ensures Valid()
      ensures c == old(Idle)[0] && Idle == old(Idle)[1..]
      ensures isClosed == old(isClosed) && Closed == old(Closed) && History == old(History)
    {
      assert buf[head] == Idle[0] by { assert Slot(0) == head; }
      c := buf[head];
      ghost var rest := Idle[1..];
      forall i | 0 <= i < count - 1
        ensures buf[if head + 1 + i < capacity then head + 1 + i else head + 1 + i - capacity] == rest[i]
      {
        assert buf[Slot(i + 1)] == Idle[i + 1];
      }
      head := if head + 1 < capacity then head + 1 else 0;
      count := count - 1;
      Idle := rest;
    }

    /** One step of `Close`: the oldest idle connection is closed and joins the drained ones. */
    method CloseOldest(ghost closedBefore: set<LdapClient>, ghost drained: seq<LdapClient>)
      returns (ghost drained': seq<LdapClient>)
      requires Valid() && count > 0 && Closed == closedBefore + set x | x in drained
      modifies this
      ensures Valid() && isClosed == old(isClosed) && History == old(History) && count == old(count) - 1
      ensures drained' + Idle == drained + old(Idle)
      ensures Closed == closedBefore + set x | x in drained'
    {
      ghost var before := Idle;
      var c := TakeOldest();
      Closed := Closed + {c};
      drained' := drained + [c];
      assert drained + before == drained' + Idle;
      ElementsOfAppend(drained, c);
    }

    /**
     * `Get`: fails on a closed pool; otherwise takes the oldest idle
     * connection and returns it if alive, closing it and dialling afresh
     * if not; dials afresh when none is idle.
     */
    method Get(isAlive: LdapClient -> bool) returns (conn: LdapClient?, err: Option<PoolError>)
      requires Valid()
      modifies this
      ensures Valid() && isClosed == old(isClosed)
      ensures old(isClosed) ==>
        conn == null && err == Some(PoolClosed)
        && Idle == old(Idle) && Closed == old(Closed) && History == old(History)
      ensures !old(isClosed) ==>
        conn != null && err.None? && History == old(History) + [Checkout(conn)]
      ensures !old(isClosed) && old(Idle) == [] ==>
        conn != null && fresh(conn) && Idle == [] && Closed == old(Closed)
      ensures !old(isClosed) && old(Idle) != [] && isAlive(old(Idle)[0]) ==>
        conn == old(Idle)[0] && Idle == old(Idle)[1..] && Closed == old(Closed)
      ensures !old(isClosed) && old(Idle) != [] && !isAlive(old(Idle)[0]) ==>
        conn != null && fresh(conn) && Idle == old(Idle)[1..] && Closed == old(Closed) + {old(Idle)[0]}
      ensures conn != null && fresh(conn) ==> conn.settings == ClientSettingsOf(config)
      ensures conn != null && !fresh(conn) ==> isAlive(conn)
    {
      if isClosed {
        return null, Some(PoolClosed);
      }
      if count > 0 {
        var c := TakeOldest();
        if isAlive(c) {
          conn := c;
        } else {
          Closed := Closed + {c};
          conn := new LdapClient(config);
        }
      } else {
        conn := new LdapClient(config);
      }
      err := None;
      History := History + [Checkout(conn)];
    }

    /**
     * `Put`: refuses nil; on a closed or full pool closes the connection,
     * otherwise queues it behind the other idle ones.
     */
    method Put(conn: LdapClient?) returns (err: Option<PoolError>)
      requires Valid()
      modifies this, buf
      ensures Valid() && isClosed == old(isClosed)
      ensures conn == null ==>
        err == Some(NilConnection) && Idle == old(Idle) && Closed == old(Closed) && History == old(History)
      ensures conn != null ==> err.None? && History == old(History) + [Release(conn)]
      ensures conn != null && old(isClosed) ==> Idle == old(Idle) && Closed == old(Closed) + {conn}
      ensures conn != null && !old(isClosed) && |old(Idle)| < capacity ==>
        Idle == old(Idle) + [conn] && Closed == old(Closed)
      ensures conn != null && !old(isClosed) && |old(Idle)| == capacity ==>
        Idle == old(Idle) && Closed == old(Closed) + {conn}
    {
      if conn == null {
        return Some(NilConnection);
      }
      if isClosed || count == capacity {
        Closed := Closed + {conn};
      } else {
        var slot := Slot(count);
        forall i | 0 <= i < count ensures Slot(i) != slot {
        }
        buf[slot] := conn;
        count := count + 1;
        Idle := Idle + [conn];
      }
      err := None;
      History := History + [Release(conn)];
    }

    /**
     * `Close`: marks the pool closed and closes every idle connection; a
     * pool already closed has none, so closing again changes nothing.
     */
    method Close()
      requires Valid()
      modifies this
      ensures Valid() && isClosed && Idle == []
      ensures Closed == old(Closed) + set c | c in old(Idle)
      ensures History == old(History)
      ensures old(isClosed) ==> Closed == old(Closed)
    {
      if isClosed {
        return;
      }
      ghost var drained: seq<LdapClient> := [];
      while count > 0
        invariant Valid() && !isClosed
        invariant old(Idle) == drained + Idle
        invariant Closed == old(Closed) + set c | c in drained
        invariant History == old(History)
        decreases count
      {
        drained := CloseOldest(old(Closed), drained);
      }
      assert drained == old(Idle);
      isClosed := true;
    }
  }

  /** The elements of a log grown by one entry. */
  lemma ElementsOfAppend(s: seq<LdapClient>, c: LdapClient)
    ensures (set x | x in s + [c]) == (set x | x in s) + {c}
  {
    assert forall x :: x in s + [c] <==> x in s || x == c;
  }

  /** The variant without pooling. */
  class DummyPool {
    const config: LdapConfig
    ghost var Closed: set<LdapClient>
    ghost var History: seq<PoolEvent>

    constructor (config: LdapConfig)
      ensures this.config == config && Closed == {} && History == []
    {
      this.config := config;
      Closed, History := {}, [];
    }

    /** `Get`: always a newly made client. */
    method Get() returns (conn: LdapClient?, err: Option<PoolError>)
      modifies this
      ensures conn != null && fresh(conn) && conn.settings == ClientSettingsOf(config) && err.None?
      ensures Closed == old(Closed) && History == old(History) + [Checkout(conn)]
    {
      conn := new LdapClient(config);
      err := None;
      History := History + [Checkout(conn)];
    }

    /** `Put`: always closes the connection (a nil one would be dereferenced). */
    method Put(conn: LdapClient?) returns (err: Option<PoolError>)
      requires conn != null
      modifies this
      ensures err.None? && Closed == old(Closed) + {conn} && History == old(History) + [Release(conn)]
    {
      Closed := Closed + {conn};
      err := None;
      History := History + [Release(conn)];
    }

    /** `Close`: nothing to do. */
    method Close()
      ensures unchanged(this)
    {
    }
  }

  /** The `Pool` interface: one of the two variants. */
  datatype Pool = Chan(chan: ChanPool) | Dummy(dummy: DummyPool)
  {
    ghost function Repr(): set<object> {
      match this
      case Chan(c) => {c, c.buf}
      case Dummy(d) => {d}
    }

    ghost predicate Valid()
      reads Repr()
    {
      Chan? ==> chan.Valid()
    }

    ghost function History(): seq<PoolEvent>
      reads Repr()
    {
      match this
      case Chan(c) => c.History
      case Dummy(d) => d.History
    }
  }

  /** `NewPool`: no pooling for a capacity of zero or less, else an empty open pool of that capacity. */
  method NewPool(config: LdapConfig) returns (p: Pool)
    ensures p.Valid() && fresh(p.Repr()) && p.History() == []
    ensures p.Dummy? <==> config.poolCapacity <= 0
    ensures p.Dummy? ==> p.dummy.config == config && p.dummy.Closed == {}
    ensures p.Chan? ==>
      && p.chan.config == config && p.chan.capacity == config.poolCapacity
      && !p.chan.isClosed && p.chan.Idle == [] && p.chan.Closed == {}
  {
    if config.poolCapacity <= 0 {
      var d := new DummyPool(config);
      p := Dummy(d);
    } else {
      var c := new ChanPool(config, config.poolCapacity);
      p := Chan(c);
    }
  }

  /** `pool.Get()` through the interface: a connection is handed out exactly when there is no error. */
  method Get(p: Pool, isAlive: LdapClient -> bool) returns (conn: LdapClient?, err: Option<PoolError>)
    requires p.Valid()
    modifies p.Repr()
    ensures p.Valid()
    ensures err.None? ==> conn != null && p.History() == old(p.History()) + [Checkout(conn)]
    ensures err.Some? ==> conn == null && err.value == PoolClosed && p.History() == old(p.History())
    ensures err.Some? <==> p.Chan? && old(p.chan.isClosed)
    ensures p.Dummy? ==> fresh(conn) && p.dummy.Closed == old(p.dummy.Closed)
    ensures p.Chan? ==> p.chan.isClosed == old(p.chan.isClosed)
    ensures p.Chan? && old(p.chan.isClosed) ==> p.chan.Idle == old(p.chan.Idle) && p.chan.Closed == old(p.chan.Closed)
    ensures p.Chan? && !old(p.chan.isClosed) && old(p.chan.Idle) == [] ==>
      fresh(conn) && p.chan.Idle == [] && p.chan.Closed == old(p.chan.Closed)
    ensures p.Chan? && !old(p.chan.isClosed) && old(p.chan.Idle) != [] && isAlive(old(p.chan.Idle)[0]) ==>
      conn == old(p.chan.Idle)[0] && p.chan.Idle == old(p.chan.Idle)[1..] && p.chan.Closed == old(p.chan.Closed)
    ensures p.Chan? && !old(p.chan.isClosed) && old(p.chan.Idle) != [] && !isAlive(old(p.chan.Idle)[0]) ==>
      fresh(conn) && p.chan.Idle == old(p.chan.Idle)[1..] && p.chan.Closed == old(p.chan.Closed) + {old(p.chan.Idle)[0]}
  {
    match p
    case Chan(c) => conn, err := c.Get(isAlive);
    case Dummy(d) => conn, err := d.Get();
  }

  /** `pool.Put(conn)` through the interface: a connection is always taken back. */
  method Put(p: Pool, conn: LdapClient)
    requires p.Valid()
    modifies p.Repr()
    ensures p.Valid()
    ensures p.History() == old(p.History()) + [Release(conn)]
    ensures p.Dummy? ==> p.dummy.Closed == old(p.dummy.Closed) + {conn}
    ensures p.Chan? ==> p.chan.isClosed == old(p.chan.isClosed)
    ensures p.Chan? && !old(p.chan.isClosed) && |old(p.chan.Idle)| < p.chan.capacity ==>
      p.chan.Idle == old(p.chan.Idle) + [conn] && p.chan.Closed == old(p.chan.Closed)
    ensures p.Chan? && (old(p.chan.isClosed) || |old(p.chan.Idle)| == p.chan.capacity) ==>
      p.chan.Idle == old(p.chan.Idle) && p.chan.Closed == old(p.chan.Closed) + {conn}
  {
    match p
    case Chan(c) => var _ := c.Put(conn);
    case Dummy(d) => var _ := d.Put(conn);
  }

  /** `pool.Close()` through the interface: a pooling pool closes every idle connection, the other changes nothing. */
  method Close(p: Pool)
    requires p.Valid()
    modifies p.Repr()
    ensures p.Valid() && p.History() == old(p.History())
    ensures p.Chan? ==> p.chan.isClosed && p.chan.Idle == []
    ensures p.Chan? ==> p.chan.Closed == old(p.chan.Closed) + set c | c in old(p.chan.Idle)
    ensures p.Dummy? ==> p.dummy.Closed == old(p.dummy.Closed)
  {
    match p
    case Chan(c) => c.Close();
    case Dummy(d) => d.Close();
  }
}
