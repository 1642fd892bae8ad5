/** The min/max/ephemeral connection pools of app/common/include: the
    microservice pool (one Thrift client per connection, created round-robin
    over the configured servers) and the PostgreSQL pool (one database
    connection per lease, created after the lock is dropped).

    The mutex is left out: each method is one atomic step. The
    condition-variable wait of `get_client` is split in two: the step that
    finds the pool saturated returns MustWait and registers a waiter in the
    backlog, and ResumeWaiting is the step that ends the wait; its
    precondition `|idle| > 0` is the exit condition of the source's
    `while (_conn_pool.empty()) wait` loop. */
module Pools {
  import opened Common

  /** One backend address, as a `host:port` configuration entry yields it. */
  datatype Server = Server(host: string, port: int)

  /** A Thrift client object; `serial` tells apart objects the pool created. */
  datatype Client = Client(serial: nat, server: Server)

  /** A pqxx connection; `serial` tells apart objects the pool created. */
  datatype PgConnection = PgConnection(serial: nat, connStr: string)

  /** What one call of `get_client` came to. */
  datatype GetOutcome<C> = Leased(client: C) | MustWait

  /** What the pool did with a connection, in order (a ghost record). */
  datatype Event<C> = Acquired(c: C) | Requeued(c: C) | Closed(c: C)

  /** The branches of `get_client`, in the order the source tests them. */
  datatype GetBranch =
    | Bypass     // max size 0: a connection outside the pool
    | GrowToMin  // below the minimum: create even if idle ones are queued
    | Reuse      // take the front of the idle queue
    | Grow       // below the maximum, or ephemeral overflow allowed: create
    | Wait       // saturated: wait for a release

  /** Which branch `get_client` takes, for a pool of current size `size`
      holding `queued` idle connections. */
  function GetDecision(size: int, minSize: int, maxSize: int, queued: nat, allowEphemeral: bool): (b: GetBranch)
    ensures b == Bypass <==> maxSize == 0
    ensures b == GrowToMin <==> maxSize != 0 && size < minSize
    ensures b == Reuse ==> queued > 0 && size >= minSize
    ensures b == Grow ==> queued == 0 && (size < maxSize || allowEphemeral)
    ensures b == Wait <==> maxSize != 0 && size >= minSize && queued == 0 && size >= maxSize && !allowEphemeral
  {
    if maxSize == 0 then Bypass
    else if size < minSize then GrowToMin
    else if queued > 0 then Reuse
    else if size < maxSize || allowEphemeral then Grow
    else Wait
  }

  /** Whether `release_client` of a pool with a positive maximum closes the
      connection instead of queueing it. */
  function ReleaseCloses(size: int, minSize: int, maxSize: int, queued: nat): (close: bool)
    requires 0 <= minSize <= maxSize
    ensures close ==> size > minSize
    ensures size > maxSize ==> close
    ensures size > minSize && queued > 1 ==> close
    ensures close && size <= maxSize ==> queued > 1
  {
    size > maxSize || (size > minSize && queued > 1)
  }

  /** Adding an element absent from a multiset without repeats keeps it
      without repeats. */
  lemma AddFresh<C>(m: multiset<C>, c: C)
    requires c !in m && forall x :: m[x] <= 1
    ensures forall x :: (m + multiset{c})[x] <= 1
  {
  }

  /** Taking the front of the idle queue as a lease keeps the connections
      the pool knows of. */
  lemma TakeFront<C>(idle: seq<C>, leased: multiset<C>)
    requires |idle| > 0
    ensures multiset(idle[1..]) + (leased + multiset{idle[0]}) == multiset(idle) + leased
  {
    assert idle == [idle[0]] + idle[1..];
  }

  /** A new server is picked round-robin by the size before the increment. */
  function RoundRobin(servers: seq<Server>, size: int): (s: Server)
    requires |servers| > 0
    ensures s in servers
  {
    servers[size % |servers|]
  }

  class MicroserviceConnectionPool {
    const localServiceName: string
    const remoteServiceName: string
    const servers: seq<Server>
    const minSize: int
    const maxSize: int
    const allowEphemeral: bool
    const connTimeoutMs: int
    var currentSize: int
    var backlog: int
    var idle: seq<Client>
    /** Number of client objects created so far; the next one gets it as serial. */
    var created: nat
    ghost var leased: multiset<Client>
    ghost var history: seq<Event<Client>>

    /** The pool invariant: counters agree with the queue and the leases, no
        client is both idle and leased or leased twice, and without ephemeral
        overflow the size stays within the maximum. */
    ghost predicate Valid()
      reads this
    {
      && 0 <= minSize <= maxSize
      && 0 <= backlog
      && (maxSize == 0 ==> currentSize == 0 && idle == [] && backlog == 0)
      && (maxSize > 0 ==> currentSize == |idle| + |leased|)
      && (!allowEphemeral ==> currentSize <= maxSize)
      && (forall c :: c in multiset(idle) + leased ==> c.serial < created)
      && (forall c :: (multiset(idle) + leased)[c] <= 1)
    }

    /** `get_client` indexes `_servers` (modulo its size) only when it opens
        a connection; with no servers that is a division by zero. */
    predicate ServerIndexDefined()
      reads this
    {
      |servers| > 0 || GetDecision(currentSize, minSize, maxSize, |idle|, allowEphemeral) in {Reuse, Wait}
    }

    /** Connections handed out and not yet released: `_pool_current_size`
        minus the idle ones (for a pool with a positive maximum). */
    function LeasedCount(): int
      reads this
    {
      currentSize - |idle|
    }

    /** The pool as its constructor leaves it: valid, with the given
        settings and empty. */
    ghost predicate Initial(localServiceName: string, remoteServiceName: string, servers: seq<Server>,
                            minSize: int, maxSize: int, allowEphemeral: bool, connTimeoutMs: int)
      reads this
    {
      && Valid()
      && this.localServiceName == localServiceName && this.remoteServiceName == remoteServiceName
      && this.servers == servers && this.connTimeoutMs == connTimeoutMs
      && this.minSize == minSize && this.maxSize == maxSize && this.allowEphemeral == allowEphemeral
      && currentSize == 0 && backlog == 0 && idle == []
    }

    constructor (localServiceName: string, remoteServiceName: string, servers: seq<Server>,
                 minSize: int, maxSize: int, allowEphemeral: bool, connTimeoutMs: int)
      requires 0 <= minSize <= maxSize
      ensures Valid() && Initial(localServiceName, remoteServiceName, servers, minSize, maxSize, allowEphemeral, connTimeoutMs)
      ensures this.localServiceName == localServiceName && this.remoteServiceName == remoteServiceName
      ensures this.servers == servers && this.connTimeoutMs == connTimeoutMs
      ensures this.minSize == minSize && this.maxSize == maxSize && this.allowEphemeral == allowEphemeral
      ensures currentSize == 0 && backlog == 0 && idle == [] && created == 0
      ensures leased == multiset{} && history == []
    {
      this.localServiceName := localServiceName;
      this.remoteServiceName := remoteServiceName;
      this.servers := servers;
      this.minSize := minSize;
      this.maxSize := maxSize;
      this.allowEphemeral := allowEphemeral;
      this.connTimeoutMs := connTimeoutMs;
      currentSize := 0;
      backlog := 0;
      idle := [];
      created := 0;
      leased := multiset{};
      history := [];
    }

    /** `get_client`. `choice` stands for the `rand()` that picks a server
        when the pool is bypassed. */
    method GetClient(choice: nat) returns (r: GetOutcome<Client>)
      requires Valid() && ServerIndexDefined()
      modifies this
      ensures Valid()
      ensures var b := GetDecision(old(currentSize), minSize, maxSize, |old(idle)|, allowEphemeral);
        && (b == Bypass ==> r == Leased(Client(old(created), servers[choice % |servers|])))
        && (b == GrowToMin || b == Grow ==>
              r == Leased(Client(old(created), RoundRobin(servers, old(currentSize)))) && currentSize == old(currentSize) + 1)
        && (b == Reuse ==> r == Leased(old(idle)[0]) && idle == old(idle)[1..])
        && (b == Wait <==> r == MustWait)
        && (b == Wait ==> backlog == old(backlog) + 1)
        && (b != Wait ==> backlog == old(backlog))
        && (b != Grow && b != GrowToMin ==> currentSize == old(currentSize))
        && (b != Reuse ==> idle == old(idle))
      ensures r.Leased? ==> leased == old(leased) + multiset{r.client} && history == old(history) + [Acquired(r.client)]
      ensures r.MustWait? ==> leased == old(leased) && history == old(history)
      ensures var b := GetDecision(old(currentSize), minSize, maxSize, |old(idle)|, allowEphemeral);
        created == if b == Reuse || b == Wait then old(created) else old(created) + 1
    {
      var b := GetDecision(currentSize, minSize, maxSize, |idle|, allowEphemeral);
      if b == Wait {
        backlog := backlog + 1;
        return MustWait;
      }
      var c: Client;
      if b == Reuse {
        c := TakeIdle();
      } else if b == Bypass {
        c := Open(servers[choice % |servers|], false);
      } else {
        c := Open(RoundRobin(servers, currentSize), true);
      }
      r := Leased(c);
    }

    /** Lease the front of the idle queue. */
    method TakeIdle() returns (c: Client)
      requires Valid() && |idle| > 0
      modifies this
      ensures Valid()
      ensures c == old(idle)[0] && idle == old(idle)[1..]
      ensures backlog == old(backlog) && currentSize == old(currentSize) && created == old(created)
      ensures leased == old(leased) + multiset{c} && history == old(history) + [Acquired(c)]
    {
      c := idle[0];
      assert idle == [idle[0]] + idle[1..];
      idle := idle[1..];
      leased := leased + multiset{c};
      history := history + [Acquired(c)];
    }

    /** Create a client to `server` and lease it, counting it in the pool
        size when `grow` (and outside the pool when bypassed). */
    method Open(server: Server, grow: bool) returns (c: Client)
      requires Valid()
      requires grow ==> maxSize > 0 && (currentSize < maxSize || allowEphemeral)
      requires !grow ==> maxSize == 0
      modifies this
      ensures Valid()
      ensures c == Client(old(created), server) && created == old(created) + 1
      ensures currentSize == old(currentSize) + (if grow then 1 else 0)
      ensures idle == old(idle) && backlog == old(backlog)
      ensures leased == old(leased) + multiset{c} && history == old(history) + [Acquired(c)]
    {
      c := Client(created, server);
      assert c !in multiset(idle) + leased;
      AddFresh(multiset(idle) + leased, c);
      if grow {
        currentSize := currentSize + 1;
      }
      created := created + 1;
      leased := leased + multiset{c};
      history := history + [Acquired(c)];
    }

    /** The end of the wait in `get_client`: a waiter wakes up once a release
        has queued a connection, leaves the backlog and takes the front. */
    method ResumeWaiting() returns (c: Client)
      requires Valid() && backlog > 0 && |idle| > 0
      modifies this
      ensures Valid()
      ensures c == old(idle)[0] && idle == old(idle)[1..]
      ensures backlog == old(backlog) - 1 && currentSize == old(currentSize)
      ensures leased == old(leased) + multiset{c} && history == old(history) + [Acquired(c)]
    {
      c := idle[0];
      assert idle == [idle[0]] + idle[1..];
      idle := idle[1..];
      backlog := backlog - 1;
      leased := leased + multiset{c};
      history := history + [Acquired(c)];
    }

    /** `release_client`: close and shrink above the maximum, or above the
        minimum while another connection is idle; otherwise queue at the back
        (and notify one waiter). A bypassed pool always closes. */
    method ReleaseClient(c: Client)
      requires Valid() && c in leased
      modifies this
      ensures Valid()
      ensures leased == old(leased) - multiset{c} && backlog == old(backlog)
      ensures maxSize == 0 ==>
        idle == old(idle) && currentSize == old(currentSize) && history == old(history) + [Closed(c)]
      ensures maxSize > 0 && ReleaseCloses(old(currentSize), minSize, maxSize, |old(idle)|) ==>
        idle == old(idle) && currentSize == old(currentSize) - 1 && history == old(history) + [Closed(c)]
      ensures maxSize > 0 && !ReleaseCloses(old(currentSize), minSize, maxSize, |old(idle)|) ==>
        idle == old(idle) + [c] && currentSize == old(currentSize) && history == old(history) + [Requeued(c)]
    {
      ghost var pool := multiset(idle) + leased;
      if maxSize > 0 {
        if ReleaseCloses(currentSize, minSize, maxSize, |idle|) {
          currentSize := currentSize - 1;
          history := history + [Closed(c)];
        } else {
          idle := idle + [c];
          history := history + [Requeued(c)];
        }
      } else {
        history := history + [Closed(c)];
      }
      leased := leased - multiset{c};
      assert multiset(idle) + leased <= pool;
    }
  }

  class PostgresConnectionPool {
    const localServiceName: string
    const dbname: string
    const connStr: string
    const minSize: int
    const maxSize: int
    const allowEphemeral: bool
    var currentSize: int
    var backlog: int
    var idle: seq<PgConnection>
    /** Number of connections opened so far; the next one gets it as serial. */
    var created: nat
    ghost var leased: multiset<PgConnection>
    ghost var history: seq<Event<PgConnection>>

    /** The same invariant as the microservice pool's. */
    ghost predicate Valid()
      reads this
    {
      && 0 <= minSize <= maxSize
      && 0 <= backlog
      && (maxSize == 0 ==> currentSize == 0 && idle == [] && backlog == 0)
      && (maxSize > 0 ==> currentSize == |idle| + |leased|)
      && (!allowEphemeral ==> currentSize <= maxSize)
      && (forall c :: c in multiset(idle) + leased ==> c.serial < created)
      && (forall c :: (multiset(idle) + leased)[c] <= 1)
      && (forall c :: c in multiset(idle) + leased ==> c.connStr == connStr)
    }

    /** The pool as its constructor leaves it: valid, with the given
        settings, empty and with no connection opened yet. */
    ghost predicate Initial(localServiceName: string, dbname: string, connStr: string,
                            minSize: int, maxSize: int, allowEphemeral: bool)
      reads this
    {
      && Valid()
      && this.localServiceName == localServiceName && this.dbname == dbname && this.connStr == connStr
      && this.minSize == minSize && this.maxSize == maxSize && this.allowEphemeral == allowEphemeral
      && currentSize == 0 && backlog == 0 && idle == [] && created == 0
      && leased == multiset{} && history == []
    }

    constructor (localServiceName: string, dbname: string, connStr: string,
                 minSize: int, maxSize: int, allowEphemeral: bool)
      requires 0 <= minSize <= maxSize
      ensures Valid() && Initial(localServiceName, dbname, connStr, minSize, maxSize, allowEphemeral)
      ensures this.localServiceName == localServiceName && this.dbname == dbname && this.connStr == connStr
      ensures this.minSize == minSize && this.maxSize == maxSize && this.allowEphemeral == allowEphemeral
      ensures currentSize == 0 && backlog == 0 && idle == [] && created == 0
      ensures leased == multiset{} && history == []
    {
      this.localServiceName := localServiceName;
      this.dbname := dbname;
      this.connStr := connStr;
      this.minSize := minSize;
      this.maxSize := maxSize;
      this.allowEphemeral := allowEphemeral;
      currentSize := 0;
      backlog := 0;
      idle := [];
      created := 0;
      leased := multiset{};
      history := [];
    }

    /** `get_client`: under the lock the growing branches only count the new
        connection; it is opened after the lock, exactly when no idle one was
        taken. */
    method GetClient() returns (r: GetOutcome<PgConnection>)
      requires Valid()
      modifies this
      ensures Valid()
      ensures var b := GetDecision(old(currentSize), minSize, maxSize, |old(idle)|, allowEphemeral);
        && (b == Bypass || b == GrowToMin || b == Grow ==> r == Leased(PgConnection(old(created), connStr)))
        && (b == GrowToMin || b == Grow ==> currentSize == old(currentSize) + 1)
        && (b == Reuse ==> r == Leased(old(idle)[0]) && idle == old(idle)[1..])
        && (b == Wait <==> r == MustWait)
        && (b == Wait ==> backlog == old(backlog) + 1)
        && (b != Wait ==> backlog == old(backlog))
        && (b != Grow && b != GrowToMin ==> currentSize == old(currentSize))
        && (b != Reuse ==> idle == old(idle))
      ensures r.Leased? ==> leased == old(leased) + multiset{r.client} && history == old(history) + [Acquired(r.client)]
      ensures r.Leased? ==> r.client.connStr == connStr
      ensures r.MustWait? ==> leased == old(leased) && history == old(history)
      ensures var b := GetDecision(old(currentSize), minSize, maxSize, |old(idle)|, allowEphemeral);
        created == if b == Reuse || b == Wait then old(created) else old(created) + 1
    {
      var b := GetDecision(currentSize, minSize, maxSize, |idle|, allowEphemeral);
      if b == Wait {
        backlog := backlog + 1;
        return MustWait;
      }
      var c: PgConnection;
      if b == Reuse {
        c := TakeIdle();
      } else {
        // The lock is released here; a connection is opened iff none was taken.
        c := Open(b != Bypass);
      }
      r := Leased(c);
    }

    /** Lease the front of the idle queue. */
    method TakeIdle() returns (c: PgConnection)
      requires Valid() && |idle| > 0
      modifies this
      ensures Valid()
      ensures c == old(idle)[0] && idle == old(idle)[1..]
      ensures backlog == old(backlog) && currentSize == old(currentSize) && created == old(created)
      ensures leased == old(leased) + multiset{c} && history == old(history) + [Acquired(c)]
      ensures c.connStr == connStr
    {
      c := idle[0];
      assert idle == [idle[0]] + idle[1..];
      idle := idle[1..];
      leased := leased + multiset{c};
      history := history + [Acquired(c)];
    }

    /** Open a connection with the pool's connection string and lease it,
        counting it in the pool size when `grow`. */
    method Open(grow: bool) returns (c: PgConnection)
      requires Valid()
      requires grow ==> maxSize > 0 && (currentSize < maxSize || allowEphemeral)
      requires !grow ==> maxSize == 0
      modifies this
      ensures Valid()
      ensures c == PgConnection(old(created), connStr) && created == old(created) + 1
      ensures currentSize == old(currentSize) + (if grow then 1 else 0)
      ensures idle == old(idle) && backlog == old(backlog)
      ensures leased == old(leased) + multiset{c} && history == old(history) + [Acquired(c)]
    {
      c := PgConnection(created, connStr);
      assert c !in multiset(idle) + leased;
      AddFresh(multiset(idle) + leased, c);
      if grow {
        currentSize := currentSize + 1;
      }
      created := created + 1;
      leased := leased + multiset{c};
      history := history + [Acquired(c)];
    }

    /** The end of the wait in `get_client` (see the microservice pool). */
    method ResumeWaiting() returns (c: PgConnection)
      requires Valid() && backlog > 0 && |idle| > 0
      modifies this
      ensures Valid()
      ensures c == old(idle)[0] && idle == old(idle)[1..]
      ensures backlog == old(backlog) - 1 && currentSize == old(currentSize)
      ensures leased == old(leased) + multiset{c} && history == old(history) + [Acquired(c)]
      ensures c.connStr == connStr
    {
      c := idle[0];
      assert idle == [idle[0]] + idle[1..];
      idle := idle[1..];
      backlog := backlog - 1;
      leased := leased + multiset{c};
      history := history + [Acquired(c)];
    }

    /** `release_client`: disconnect under the same rule as the microservice
        pool, otherwise queue at the back. */
    method ReleaseClient(c: PgConnection)
      requires Valid() && c in leased
      modifies this
      ensures Valid()
      ensures leased == old(leased) - multiset{c} && backlog == old(backlog)
      ensures maxSize == 0 ==>
        idle == old(idle) && currentSize == old(currentSize) && history == old(history) + [Closed(c)]
      ensures maxSize > 0 && ReleaseCloses(old(currentSize), minSize, maxSize, |old(idle)|) ==>
        idle == old(idle) && currentSize == old(currentSize) - 1 && history == old(history) + [Closed(c)]
      ensures maxSize > 0 && !ReleaseCloses(old(currentSize), minSize, maxSize, |old(idle)|) ==>
        idle == old(idle) + [c] && currentSize == old(currentSize) && history == old(history) + [Requeued(c)]
    {
      ghost var pool := multiset(idle) + leased;
      if maxSize > 0 {
        if ReleaseCloses(currentSize, minSize, maxSize, |idle|) {
          currentSize := currentSize - 1;
          history := history + [Closed(c)];
        } else {
          idle := idle + [c];
          history := history + [Requeued(c)];
        }
      } else {
        history := history + [Closed(c)];
      }
      leased := leased - multiset{c};
      assert multiset(idle) + leased <= pool;
    }
  }

  /** With a maximum of one and no ephemeral overflow, a second caller waits
      until the first releases and is then handed the same connection. */
  method SecondCallerGetsReleasedClient(server: Server) returns (first: Client, second: Client, secondWaited: bool)
    ensures secondWaited && first == second
  {
    var pool := new MicroserviceConnectionPool("apigateway", "account", [server], 0, 1, false, 30000);
    var r1 := pool.GetClient(0);
    first := r1.client;
    var r2 := pool.GetClient(0);
    secondWaited := r2.MustWait?;
    pool.ReleaseClient(first);
    second := pool.ResumeWaiting();
  }
}
