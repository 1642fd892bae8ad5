/** The older copies of the two connection pools, kept under
    app/account/service/server/include/buzzblog: one maximum size and no
    minimum, no backlog and no shrinking. A pool grows by one connection per
    `get_client` until it reaches the maximum; the new connection is queued
    at the back and the caller takes the front of the queue. A maximum of
    zero bypasses the pool; a negative maximum never grows, so its callers
    wait for ever. The wait is split as in module Pools. */
module LegacyPools {
  import opened Common
  import opened Pools

  class MicroserviceConnectionPool {
    const servers: seq<Server>
    const maxSize: int
    const connTimeoutMs: int
    var poolSize: int
    var idle: seq<Client>
    /** Number of client objects created so far; the next one gets it as serial. */
    var created: nat
    ghost var waiting: nat
    ghost var leased: multiset<Client>
    ghost var history: seq<Event<Client>>

    ghost predicate Valid()
      reads this
    {
      && 0 <= poolSize
      && (maxSize > 0 ==> poolSize <= maxSize && poolSize == |idle| + |leased|)
      && (maxSize <= 0 ==> poolSize == 0 && idle == [])
      && (maxSize < 0 ==> leased == multiset{})
      && (forall c :: (multiset(idle) + leased)[c] <= 1)
      && (forall c :: c in multiset(idle) + leased ==> c.serial < created)
      && (maxSize == 0 ==> waiting == 0)
    }

    /** `get_client` indexes `_servers` (modulo its size) only when it opens
        a connection; with no servers that is a division by zero. */
    predicate ServerIndexDefined()
      reads this
    {
      maxSize == 0 || poolSize < maxSize ==> |servers| > 0
    }

    /** The pool as its constructor leaves it: valid, with the given
        settings, empty and with nobody waiting. */
    ghost predicate Initial(servers: seq<Server>, maxSize: int, connTimeoutMs: int)
      reads this
    {
      && Valid() && this.servers == servers && this.maxSize == maxSize && this.connTimeoutMs == connTimeoutMs
      && poolSize == 0 && idle == [] && waiting == 0
    }

    constructor (servers: seq<Server>, maxSize: int, connTimeoutMs: int)
      ensures Valid() && Initial(servers, maxSize, connTimeoutMs)
      ensures this.servers == servers && this.maxSize == maxSize && this.connTimeoutMs == connTimeoutMs
      ensures poolSize == 0 && idle == [] && created == 0 && waiting == 0
      ensures leased == multiset{} && history == []
    {
      this.servers := servers;
      this.maxSize := maxSize;
      this.connTimeoutMs := connTimeoutMs;
      poolSize := 0;
      idle := [];
      created := 0;
      waiting := 0;
      leased := multiset{};
      history := [];
    }

    /** `get_client`; `choice` stands for the `rand()` of a bypassed pool. */
    method GetClient(choice: nat) returns (r: GetOutcome<Client>)
      requires Valid() && ServerIndexDefined()
      modifies this
      ensures Valid()
      ensures poolSize >= old(poolSize)
      ensures maxSize == 0 ==>
        r == Leased(Client(old(created), servers[choice % |servers|])) && idle == old(idle) && poolSize == old(poolSize)
      ensures maxSize != 0 && old(poolSize) < maxSize ==>
        var queue := old(idle) + [Client(old(created), RoundRobin(servers, old(poolSize)))];
        poolSize == old(poolSize) + 1 && r == Leased(queue[0]) && idle == queue[1..] && waiting == old(waiting)
      ensures maxSize != 0 && old(poolSize) >= maxSize && |old(idle)| > 0 ==>
        poolSize == old(poolSize) && r == Leased(old(idle)[0]) && idle == old(idle)[1..] && waiting == old(waiting)
      ensures maxSize != 0 && old(poolSize) >= maxSize && |old(idle)| == 0 ==>
        poolSize == old(poolSize) && r == MustWait && idle == [] && waiting == old(waiting) + 1
      ensures r.Leased? ==> leased == old(leased) + multiset{r.client} && history == old(history) + [Acquired(r.client)]
      ensures r.MustWait? ==> leased == old(leased) && history == old(history)
      ensures created == (if maxSize == 0 || old(poolSize) < maxSize then old(created) + 1 else old(created))
    {
      if maxSize == 0 {
        var c := Client(created, servers[choice % |servers|]);
        assert c !in multiset(idle) + leased;
        AddFresh(multiset(idle) + leased, c);
        created := created + 1;
        r := Leased(c);
        leased := leased + multiset{c};
        assert multiset(idle) + leased == old(multiset(idle) + leased) + multiset{c};
        history := history + [Acquired(c)];
        return;
      }
      if poolSize < maxSize {
        Emplace();
      }
      if |idle| == 0 {
        waiting := waiting + 1;
        return MustWait;
      }
      var c := TakeIdle();
      r := Leased(c);
    }

    /** The growing step of `get_client`: open one more client, round-robin,
        and queue it at the back. */
    method Emplace()
      requires Valid() && 0 <= poolSize < maxSize && |servers| > 0
      modifies this
      ensures Valid()
      ensures idle == old(idle) + [Client(old(created), RoundRobin(servers, old(poolSize)))]
      ensures poolSize == old(poolSize) + 1 && created == old(created) + 1
      ensures waiting == old(waiting) && leased == old(leased) && history == old(history)
    {
      var c := Client(created, RoundRobin(servers, poolSize));
      assert c !in multiset(idle) + leased;
      AddFresh(multiset(idle) + leased, c);
      idle := idle + [c];
      assert multiset(idle) + leased == old(multiset(idle) + leased) + multiset{c};
      poolSize := poolSize + 1;
      created := created + 1;
    }

    /** The last step of `get_client`: lease the front of the idle queue. */
    method TakeIdle() returns (c: Client)
      requires Valid() && |idle| > 0
      modifies this
      ensures Valid()
      ensures c == old(idle)[0] && idle == old(idle)[1..]
      ensures poolSize == old(poolSize) && created == old(created) && waiting == old(waiting)
      ensures leased == old(leased) + multiset{c} && history == old(history) + [Acquired(c)]
    {
      c := idle[0];
      TakeFront(idle, leased);
      idle := idle[1..];
      leased := leased + multiset{c};
      history := history + [Acquired(c)];
    }

    /** The end of the wait in `get_client`: the queue is no longer empty. */
    method ResumeWaiting() returns (c: Client)
      requires Valid() && waiting > 0 && |idle| > 0
      modifies this
      ensures Valid()
      ensures c == old(idle)[0] && idle == old(idle)[1..]
      ensures waiting == old(waiting) - 1 && poolSize == old(poolSize)
      ensures leased == old(leased) + multiset{c} && history == old(history) + [Acquired(c)]
    {
      c := TakeIdle();
      waiting := waiting - 1;
    }

    /** `release_client`: a bypassed pool closes, any other queues at the back. */
    method ReleaseClient(c: Client)
      requires Valid() && c in leased
      modifies this
      ensures Valid()
      ensures leased == old(leased) - multiset{c} && poolSize == old(poolSize) && waiting == old(waiting)
      ensures maxSize == 0 ==> idle == old(idle) && history == old(history) + [Closed(c)]
      ensures maxSize != 0 ==> idle == old(idle) + [c] && history == old(history) + [Requeued(c)]
    {
      ghost var pool := multiset(idle) + leased;
      if maxSize == 0 {
        history := history + [Closed(c)];
      } else {
        idle := idle + [c];
        history := history + [Requeued(c)];
      }
      leased := leased - multiset{c};
      assert multiset(idle) + leased <= pool;
    }
  }

  class PostgresConnectionPool {
    const connStr: string
    const maxSize: int
    var poolSize: int
    var idle: seq<PgConnection>
    /** Number of connections opened so far; the next one gets it as serial. */
    var created: nat
    ghost var waiting: nat
    ghost var leased: multiset<PgConnection>
    ghost var history: seq<Event<PgConnection>>

    ghost predicate Valid()
      reads this
    {
      && 0 <= poolSize
      && (maxSize > 0 ==> poolSize <= maxSize && poolSize == |idle| + |leased|)
      && (maxSize <= 0 ==> poolSize == 0 && idle == [])
      && (maxSize < 0 ==> leased == multiset{})
      && (forall c :: (multiset(idle) + leased)[c] <= 1)
      && (forall c :: c in multiset(idle) + leased ==> c.serial < created)
      && (maxSize == 0 ==> waiting == 0)
      && (forall c :: c in multiset(idle) + leased ==> c.connStr == connStr)
    }

    /** The pool as its constructor leaves it. */
    ghost predicate Initial(connStr: string, maxSize: int)
      reads this
    {
      && Valid() && this.connStr == connStr && this.maxSize == maxSize
      && poolSize == 0 && idle == [] && created == 0 && waiting == 0
      && leased == multiset{} && history == []
    }

    constructor (connStr: string, maxSize: int)
      ensures Valid() && Initial(connStr, maxSize)
      ensures this.connStr == connStr && this.maxSize == maxSize
      ensures poolSize == 0 && idle == [] && created == 0 && waiting == 0
      ensures leased == multiset{} && history == []
    {
      this.connStr := connStr;
      this.maxSize := maxSize;
      poolSize := 0;
      idle := [];
      created := 0;
      waiting := 0;
      leased := multiset{};
      history := [];
    }

    /** `get_client`. */
    method GetClient() returns (r: GetOutcome<PgConnection>)
      requires Valid()
      modifies this
      ensures Valid()
      ensures poolSize >= old(poolSize)
      ensures maxSize == 0 ==>
        r == Leased(PgConnection(old(created), connStr)) && idle == old(idle) && poolSize == old(poolSize)
      ensures maxSize != 0 && old(poolSize) < maxSize ==>
        var queue := old(idle) + [PgConnection(old(created), connStr)];
        poolSize == old(poolSize) + 1 && r == Leased(queue[0]) && idle == queue[1..] && waiting == old(waiting)
      ensures maxSize != 0 && old(poolSize) >= maxSize && |old(idle)| > 0 ==>
        poolSize == old(poolSize) && r == Leased(old(idle)[0]) && idle == old(idle)[1..] && waiting == old(waiting)
      ensures maxSize != 0 && old(poolSize) >= maxSize && |old(idle)| == 0 ==>
        poolSize == old(poolSize) && r == MustWait && idle == [] && waiting == old(waiting) + 1
      ensures r.Leased? ==> leased == old(leased) + multiset{r.client} && history == old(history) + [Acquired(r.client)]
      ensures r.MustWait? ==> leased == old(leased) && history == old(history)
      ensures r.Leased? ==> r.client.connStr == connStr
      ensures created == (if maxSize == 0 || old(poolSize) < maxSize then old(created) + 1 else old(created))
    {
      if maxSize == 0 {
        var c := PgConnection(created, connStr);
        assert c !in multiset(idle) + leased;
        AddFresh(multiset(idle) + leased, c);
        created := created + 1;
        r := Leased(c);
        leased := leased + multiset{c};
        assert multiset(idle) + leased == old(multiset(idle) + leased) + multiset{c};
        history := history + [Acquired(c)];
        return;
      }
      if poolSize < maxSize {
        Emplace();
      }
      if |idle| == 0 {
        waiting := waiting + 1;
        return MustWait;
      }
      var c := TakeIdle();
      r := Leased(c);
    }

    /** The growing step of `get_client`: open one more connection and queue
        it at the back. */
    method Emplace()
      requires Valid() && 0 <= poolSize < maxSize
      modifies this
      ensures Valid()
      ensures idle == old(idle) + [PgConnection(old(created), connStr)]
      ensures poolSize == old(poolSize) + 1 && created == old(created) + 1
      ensures waiting == old(waiting) && leased == old(leased) && history == old(history)
    {
      var c := PgConnection(created, connStr);
      assert c !in multiset(idle) + leased;
      AddFresh(multiset(idle) + leased, c);
      idle := idle + [c];
      assert multiset(idle) + leased == old(multiset(idle) + leased) + multiset{c};
      poolSize := poolSize + 1;
      created := created + 1;
    }

    /** The last step of `get_client`: lease the front of the idle queue. */
    method TakeIdle() returns (c: PgConnection)
      requires Valid() && |idle| > 0
      modifies this
      ensures Valid()
      ensures c == old(idle)[0] && idle == old(idle)[1..]
      ensures poolSize == old(poolSize) && created == old(created) && waiting == old(waiting)
      ensures leased == old(leased) + multiset{c} && history == old(history) + [Acquired(c)]
      ensures c.connStr == connStr
    {
      c := idle[0];
      TakeFront(idle, leased);
      idle := idle[1..];
      leased := leased + multiset{c};
      history := history + [Acquired(c)];
    }

    /** The end of the wait in `get_client`: the queue is no longer empty. */
    method ResumeWaiting() returns (c: PgConnection)
      requires Valid() && waiting > 0 && |idle| > 0
      modifies this
      ensures Valid()
      ensures c == old(idle)[0] && idle == old(idle)[1..]
      ensures waiting == old(waiting) - 1 && poolSize == old(poolSize)
      ensures leased == old(leased) + multiset{c} && history == old(history) + [Acquired(c)]
      ensures c.connStr == connStr
    {
      c := TakeIdle();
      waiting := waiting - 1;
    }

    /** `release_client`: a bypassed pool disconnects, any other queues at the back. */
    method ReleaseClient(c: PgConnection)
      requires Valid() && c in leased
      modifies this
      ensures Valid()
      ensures leased == old(leased) - multiset{c} && poolSize == old(poolSize) && waiting == old(waiting)
      ensures maxSize == 0 ==> idle == old(idle) && history == old(history) + [Closed(c)]
      ensures maxSize != 0 ==> idle == old(idle) + [c] && history == old(history) + [Requeued(c)]
    {
      ghost var pool := multiset(idle) + leased;
      if maxSize == 0 {
        history := history + [Closed(c)];
      } else {
        idle := idle + [c];
        history := history + [Requeued(c)];
      }
      leased := leased - multiset{c};
      assert multiset(idle) + leased <= pool;
    }
  }

  /** With a negative maximum the legacy pool never opens a connection, so
      every caller is left waiting (and no release can wake it). */
  method NegativeMaximumAlwaysWaits(server: Server, max: int) returns (waited: bool, everOpened: bool)
    requires max < 0
    ensures waited && !everOpened
  {
    var pool := new MicroserviceConnectionPool([server], max, 30000);
    var r := pool.GetClient(0);
    waited := r.MustWait?;
    everOpened := pool.created > 0;
  }

  /** Once full, the legacy pool hands its connections out in the order they
      were released. */
  method ReleasedClientsComeBackInOrder(server: Server) returns (a: Client, b: Client, first: Client, second: Client)
    ensures a != b && first == a && second == b
  {
    var pool := new MicroserviceConnectionPool([server], 2, 30000);
    var r1 := pool.GetClient(0);
    var r2 := pool.GetClient(0);
    a, b := r1.client, r2.client;
    pool.ReleaseClient(a);
    pool.ReleaseClient(b);
    var r3 := pool.GetClient(0);
    var r4 := pool.GetClient(0);
    first, second := r3.client, r4.client;
  }
}
