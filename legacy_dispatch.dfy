/** The older copy of the connected server, in app/account/service/server/
    include/buzzblog/microservice_connected_server.h: the same configuration
    split, one older (grow-to-max) pool per remote service, all built with
    the single pool size, and `rpc_*` wrappers that call the client directly,
    with no call logger. As in the newer copy, the 36 wrappers are one method
    over the operation, whose remote outcome is an input. */
module LegacyDispatch {
  import opened Common
  import opened Pools
  import opened Config
  import opened Dispatch
  import LegacyPools

  class MicroserviceConnectedServer {
    const accountPool: LegacyPools.MicroserviceConnectionPool
    const followPool: LegacyPools.MicroserviceConnectionPool
    const likePool: LegacyPools.MicroserviceConnectionPool
    const postPool: LegacyPools.MicroserviceConnectionPool
    const uniquepairPool: LegacyPools.MicroserviceConnectionPool
    const trendingPool: LegacyPools.MicroserviceConnectionPool
    const wordfilterPool: LegacyPools.MicroserviceConnectionPool

    /** The pool a service's wrappers lease from. */
    function PoolOf(s: Service): LegacyPools.MicroserviceConnectionPool {
      match s
      case AccountService => accountPool
      case FollowService => followPool
      case LikeService => likePool
      case PostService => postPool
      case UniquepairService => uniquepairPool
      case TrendingService => trendingPool
      case WordfilterService => wordfilterPool
    }

    /** Every pool keeps its invariant. Each wrapper changes one pool only,
        so the others keep theirs by framing. */
    ghost predicate Valid()
      reads this, accountPool, followPool, likePool, postPool, uniquepairPool, trendingPool, wordfilterPool
    {
      forall s :: PoolOf(s).Valid()
    }

    /** The seven pools as the constructor leaves them, stated for every service. */
    lemma AllInitial(service: map<string, seq<Server>>, poolSize: int)
      requires accountPool.Initial(ListAt(service, "account"), poolSize, 30000)
      requires followPool.Initial(ListAt(service, "follow"), poolSize, 30000)
      requires likePool.Initial(ListAt(service, "like"), poolSize, 30000)
      requires postPool.Initial(ListAt(service, "post"), poolSize, 30000)
      requires uniquepairPool.Initial(ListAt(service, "uniquepair"), poolSize, 30000)
      requires trendingPool.Initial(ListAt(service, "trending"), poolSize, 30000)
      requires wordfilterPool.Initial(ListAt(service, "wordfilter"), poolSize, 30000)
      ensures Valid()
      ensures forall s :: PoolOf(s).Initial(ListAt(service, ServiceName(s)), poolSize, 30000)
    {
    }

    /** The constructor: split the configured addresses and give every
        service's pool its own servers (none for a service the file does not
        list), the one pool size and a 30000 ms timeout. */
    constructor (conf: seq<ServiceConf>, poolSize: int)
      requires ServiceTable(conf).Some?
      ensures Valid()
      ensures fresh(accountPool) && fresh(followPool) && fresh(likePool) && fresh(postPool)
      ensures fresh(uniquepairPool) && fresh(trendingPool) && fresh(wordfilterPool)
      ensures forall s :: PoolOf(s).Initial(ListAt(ServiceTable(conf).value, ServiceName(s)), poolSize, 30000)
    {
      var table := BuildServiceTable(conf);
      var service := table.value;
      var a := new LegacyPools.MicroserviceConnectionPool(ListAt(service, "account"), poolSize, 30000);
      var f := new LegacyPools.MicroserviceConnectionPool(ListAt(service, "follow"), poolSize, 30000);
      var l := new LegacyPools.MicroserviceConnectionPool(ListAt(service, "like"), poolSize, 30000);
      var p := new LegacyPools.MicroserviceConnectionPool(ListAt(service, "post"), poolSize, 30000);
      var u := new LegacyPools.MicroserviceConnectionPool(ListAt(service, "uniquepair"), poolSize, 30000);
      var t := new LegacyPools.MicroserviceConnectionPool(ListAt(service, "trending"), poolSize, 30000);
      var w := new LegacyPools.MicroserviceConnectionPool(ListAt(service, "wordfilter"), poolSize, 30000);
      accountPool, followPool, likePool, postPool := a, f, l, p;
      uniquepairPool, trendingPool, wordfilterPool := u, t, w;
      new;
      AllInitial(service, poolSize);
    }

    /** An `rpc_*` wrapper for `op`: lease from the service's pool, make the
        remote call (whose outcome is `reply`, a `TUniquepair` for `rpc_find`),
        release the same client on both paths, and return the result or
        rethrow the fault unchanged. `choice` is the `rand()` of a bypassed
        pool. */
    method Rpc<T>(op: Op, choice: nat, reply: Outcome<T>) returns (r: Call<T>, ghost c: Client, ghost release: Event<Client>)
      requires Valid() && PoolOf(ServiceOf(op)).ServerIndexDefined()
      modifies PoolOf(ServiceOf(op))
      ensures Valid()
      ensures var p := PoolOf(ServiceOf(op));
        r.Blocked? <==> old(p.maxSize != 0 && p.poolSize >= p.maxSize && |p.idle| == 0)
      ensures var p := PoolOf(ServiceOf(op));
        r.Blocked? ==> p.leased == old(p.leased) && p.history == old(p.history) && p.waiting == old(p.waiting) + 1
      ensures var p := PoolOf(ServiceOf(op));
        r.Completed? ==> && r.outcome == reply && p.leased == old(p.leased)
                         && p.history == old(p.history) + [Acquired(c), release] && IsRelease(release, c)
    {
      var lease := Acquire(op, choice);
      if lease.MustWait? {
        return Blocked, *, *;
      }
      var client := lease.client;
      c := client;
      var outcome;
      outcome, release := CallAndRelease(op, client, reply);
      r := Completed(outcome);
    }

    /** `get_client` on the pool of the operation's service. */
    method Acquire(op: Op, choice: nat) returns (lease: GetOutcome<Client>)
      requires Valid() && PoolOf(ServiceOf(op)).ServerIndexDefined()
      modifies PoolOf(ServiceOf(op))
      ensures Valid()
      ensures var p := PoolOf(ServiceOf(op));
        lease.MustWait? <==> old(p.maxSize != 0 && p.poolSize >= p.maxSize && |p.idle| == 0)
      ensures var p := PoolOf(ServiceOf(op));
        lease.MustWait? ==> p.leased == old(p.leased) && p.history == old(p.history) && p.waiting == old(p.waiting) + 1
      ensures var p := PoolOf(ServiceOf(op));
        lease.Leased? ==> && lease.client in p.leased && p.leased == old(p.leased) + multiset{lease.client}
                          && p.history == old(p.history) + [Acquired(lease.client)]
    {
      lease := PoolOf(ServiceOf(op)).GetClient(choice);
    }

    /** The rest of a wrapper whose caller waited: once a release has queued
        a client, take it, call and release. */
    method ResumeRpc<T>(op: Op, reply: Outcome<T>) returns (r: Outcome<T>, ghost c: Client, ghost release: Event<Client>)
      requires Valid() && PoolOf(ServiceOf(op)).waiting > 0 && |PoolOf(ServiceOf(op)).idle| > 0
      modifies PoolOf(ServiceOf(op))
      ensures Valid()
      ensures var p := PoolOf(ServiceOf(op));
        && r == reply && p.leased == old(p.leased) && p.waiting == old(p.waiting) - 1
        && p.history == old(p.history) + [Acquired(c), release] && IsRelease(release, c)
    {
      var p := PoolOf(ServiceOf(op));
      var client := p.ResumeWaiting();
      c := client;
      r, release := CallAndRelease(op, client, reply);
    }

    /** The call inside the try block, then `release_client` on the normal
        path or in `catch (...)` before `throw;`. */
    method CallAndRelease<T>(op: Op, c: Client, reply: Outcome<T>) returns (r: Outcome<T>, ghost release: Event<Client>)
      requires Valid() && c in PoolOf(ServiceOf(op)).leased
      modifies PoolOf(ServiceOf(op))
      ensures Valid()
      ensures var p := PoolOf(ServiceOf(op));
        && r == reply && p.leased == old(p.leased) - multiset{c} && p.waiting == old(p.waiting)
        && p.history == old(p.history) + [release] && IsRelease(release, c)
    {
      var p := PoolOf(ServiceOf(op));
      p.ReleaseClient(c);
      release := p.history[|p.history| - 1];
      r := reply;
    }
  }
}
