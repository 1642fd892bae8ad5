/** The older PostgreSQL-connected server, in app/account/service/server/
    include/buzzblog/postgres_connected_server.h: the same connection
    strings and one older (grow-to-max) pool of the single pool size per
    service with a database; `run_query` releases its connection on both
    paths and, only after a successful query, writes the request id and the
    query text to the query log. */
module LegacyPostgresServer {
  import opened Common
  import opened Pools
  import opened Config
  import opened Dispatch
  import opened PostgresServer
  import LegacyPools

  /** The constructor loop of the older copy: the same walk as
      PostgresServer.BuildPools, creating older pools of `poolSize`. */
  method BuildLegacyPools(split: string -> Option<Server>, conf: seq<ServiceConf>,
                          user: string, password: string, poolSize: int)
    returns (r: Option<map<string, LegacyPools.PostgresConnectionPool>>)
    ensures r.Some? <==> DbWith(split, user, password, conf).Some?
    ensures r.Some? ==> r.value.Keys == DbWith(split, user, password, conf).value.Keys
    ensures r.Some? ==> forall k :: k in r.value ==>
      fresh(r.value[k]) && r.value[k].Initial(DbWith(split, user, password, conf).value[k], poolSize)
  {
    var cp: map<string, LegacyPools.PostgresConnectionPool> := map[];
    ghost var strs: map<string, string> := map[];
    var i := 0;
    while i < |conf|
      invariant 0 <= i <= |conf|
      invariant DbWith(split, user, password, conf[..i]) == Some(strs)
      invariant cp.Keys == strs.Keys
      invariant forall k :: k in cp ==> fresh(cp[k]) && cp[k].Initial(strs[k], poolSize)
    {
      assert conf[..i + 1][..i] == conf[..i];
      var entry := conf[i];
      if entry.database.Some? {
        var db := split(entry.database.value);
        if db.None? {
          DbWithNoneExtends(split, user, password, conf, i + 1);
          return None;
        }
        var connStr := ConnString(user, password, db.value, entry.name);
        var pool := new LegacyPools.PostgresConnectionPool(connStr, poolSize);
        cp := cp[entry.name := pool];
        strs := strs[entry.name := connStr];
      }
      i := i + 1;
    }
    assert conf[..|conf|] == conf;
    return Some(cp);
  }

  /** One line of the query log, before formatting (the latency is left out). */
  datatype QueryLogEntry = QueryLogEntry(requestId: string, query: string)

  class PostgresConnectedServer {
    /** `_cp`: the pool of each service that declares a database. */
    const cp: map<string, LegacyPools.PostgresConnectionPool>
    /** What `query_logger` has written. */
    var queryLog: seq<QueryLogEntry>

    /** Every pool keeps its invariant; as in the newer copy, each method
        changes and keeps valid one pool only. */
    ghost predicate Valid()
      reads cp.Values
    {
      forall k :: k in cp ==> cp[k].Valid()
    }

    /** The constructor: one pool of `poolSize` per service with a database,
        with the service's connection string. */
    constructor (conf: seq<ServiceConf>, poolSize: int, user: string, password: string)
      requires DbStrings(user, password, conf).Some?
      ensures Valid() && queryLog == []
      ensures cp.Keys == DbStrings(user, password, conf).value.Keys
      ensures forall k :: k in cp ==>
        fresh(cp[k]) && cp[k].Initial(DbStrings(user, password, conf).value[k], poolSize)
    {
      var built := BuildLegacyPools(SplitHostPort, conf, user, password, poolSize);
      cp := built.value;
      queryLog := [];
    }

    /** `run_query(request_metadata, query, dbname)`: lease from
        `_cp[dbname]`, run `exec` (the query in one committed transaction)
        on the leased connection, release the connection on both paths,
        and log the request id and query only when the query returned. */
    method RunQuery<T>(requestId: string, query: string, dbname: string, exec: (PgConnection, string) -> Outcome<T>)
      returns (r: Call<T>, ghost c: PgConnection, ghost release: Event<PgConnection>)
      requires dbname in cp && cp[dbname].Valid()
      modifies cp[dbname], this`queryLog
      ensures cp[dbname].Valid()
      ensures var p := cp[dbname];
        r.Blocked? <==> old(p.maxSize != 0 && p.poolSize >= p.maxSize && |p.idle| == 0)
      ensures var p := cp[dbname];
        r.Blocked? ==> p.leased == old(p.leased) && p.history == old(p.history) && p.waiting == old(p.waiting) + 1
                       && queryLog == old(queryLog)
      ensures var p := cp[dbname];
        r.Completed? ==> && r.outcome == exec(c, query) && c.connStr == p.connStr && p.leased == old(p.leased)
                         && p.history == old(p.history) + [Acquired(c), release] && IsRelease(release, c)
      ensures r.Completed? ==>
        queryLog == old(queryLog) + (if exec(c, query).Ok? then [QueryLogEntry(requestId, query)] else [])
    {
      var lease := Acquire(dbname);
      if lease.MustWait? {
        return Blocked, *, *;
      }
      var conn := lease.client;
      c := conn;
      var outcome;
      outcome, release := ExecAndRelease(requestId, query, dbname, conn, exec);
      r := Completed(outcome);
    }

    /** `get_client` on the database's pool. */
    method Acquire(dbname: string) returns (lease: GetOutcome<PgConnection>)
      requires dbname in cp && cp[dbname].Valid()
      modifies cp[dbname]
      ensures cp[dbname].Valid()
      ensures var p := cp[dbname];
        lease.MustWait? <==> old(p.maxSize != 0 && p.poolSize >= p.maxSize && |p.idle| == 0)
      ensures var p := cp[dbname];
        lease.MustWait? ==> p.leased == old(p.leased) && p.history == old(p.history) && p.waiting == old(p.waiting) + 1
      ensures var p := cp[dbname];
        lease.Leased? ==> && lease.client in p.leased && p.leased == old(p.leased) + multiset{lease.client}
                          && p.history == old(p.history) + [Acquired(lease.client)] && lease.client.connStr == p.connStr
    {
      lease := cp[dbname].GetClient();
    }

    /** The rest of `run_query` for a caller that waited. */
    method ResumeQuery<T>(requestId: string, query: string, dbname: string, exec: (PgConnection, string) -> Outcome<T>)
      returns (r: Outcome<T>, ghost c: PgConnection, ghost release: Event<PgConnection>)
      requires dbname in cp && cp[dbname].Valid() && cp[dbname].waiting > 0 && |cp[dbname].idle| > 0
      modifies cp[dbname], this`queryLog
      ensures cp[dbname].Valid()
      ensures var p := cp[dbname];
        && r == exec(c, query) && c == old(p.idle)[0] && p.leased == old(p.leased) && p.waiting == old(p.waiting) - 1
        && p.history == old(p.history) + [Acquired(c), release] && IsRelease(release, c)
      ensures queryLog == old(queryLog) + (if r.Ok? then [QueryLogEntry(requestId, query)] else [])
    {
      var conn := cp[dbname].ResumeWaiting();
      c := conn;
      r, release := ExecAndRelease(requestId, query, dbname, conn, exec);
    }

    /** The transaction in the try block, `release_client` on the normal path
        or in `catch (...)` before `throw;`, then the log line, which a
        rethrown exception skips. */
    method ExecAndRelease<T>(requestId: string, query: string, dbname: string, c: PgConnection,
                             exec: (PgConnection, string) -> Outcome<T>)
      returns (r: Outcome<T>, ghost release: Event<PgConnection>)
      requires dbname in cp && cp[dbname].Valid() && c in cp[dbname].leased
      modifies cp[dbname], this`queryLog
      ensures cp[dbname].Valid()
      ensures var p := cp[dbname];
        && r == exec(c, query) && p.leased == old(p.leased) - multiset{c} && p.waiting == old(p.waiting)
        && p.history == old(p.history) + [release] && IsRelease(release, c)
      ensures queryLog == old(queryLog) + (if r.Ok? then [QueryLogEntry(requestId, query)] else [])
    {
      r := exec(c, query);
      var p := cp[dbname];
      p.ReleaseClient(c);
      release := p.history[|p.history| - 1];
      if r.Ok? {
        queryLog := queryLog + [QueryLogEntry(requestId, query)];
      }
    }
  }
}
