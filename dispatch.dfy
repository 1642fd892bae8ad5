/** The lease/call/release discipline of app/common/include/
    microservice_connected_server.h: one connection pool per remote service,
    and one `rpc_*` wrapper per remote operation. Every wrapper has the same
    shape (lease from its service's pool, call through `RPC_WRAPPER`, release
    on both paths, rethrow), so the 36 wrappers are one method over the
    operation. The remote call's outcome is an input; `RPC_WRAPPER` writes
    its trace line only after the call returns, and only when logging is on. */
module Dispatch {
  import opened Common
  import opened Pools
  import opened Config

  /** The remote services a BuzzBlog server may call. */
  datatype Service = AccountService | FollowService | LikeService | PostService
                   | UniquepairService | TrendingService | WordfilterService

  /** The service's key in the backend file and in trace labels. */
  function ServiceName(s: Service): string {
    match s
    case AccountService => "account"
    case FollowService => "follow"
    case LikeService => "like"
    case PostService => "post"
    case UniquepairService => "uniquepair"
    case TrendingService => "trending"
    case WordfilterService => "wordfilter"
  }

  /** The remote operations that have an `rpc_*` wrapper. */
  datatype Op =
    | AuthenticateUser | CreateAccount | RetrieveStandardAccount | RetrieveExpandedAccount
    | UpdateAccount | DeleteAccount
    | FollowAccount | RetrieveStandardFollow | RetrieveExpandedFollow | DeleteFollow
    | ListFollows | CheckFollow | CountFollowers | CountFollowees
    | LikePost | RetrieveStandardLike | RetrieveExpandedLike | DeleteLike | ListLikes
    | CountLikesByAccount | CountLikesOfPost
    | CreatePost | RetrieveStandardPost | RetrieveExpandedPost | DeletePost | ListPosts
    | CountPostsByAuthor
    | GetPair | AddPair | RemovePair | FindPair | FetchPairs | CountPairs
    | ProcessPost | FetchTrendingHashtags
    | IsValidWord

  /** The service an operation belongs to, whose pool its wrapper leases from. */
  function ServiceOf(op: Op): Service {
    match op
    case AuthenticateUser | CreateAccount | RetrieveStandardAccount | RetrieveExpandedAccount
       | UpdateAccount | DeleteAccount => AccountService
    case FollowAccount | RetrieveStandardFollow | RetrieveExpandedFollow | DeleteFollow
       | ListFollows | CheckFollow | CountFollowers | CountFollowees => FollowService
    case LikePost | RetrieveStandardLike | RetrieveExpandedLike | DeleteLike | ListLikes
       | CountLikesByAccount | CountLikesOfPost => LikeService
    case CreatePost | RetrieveStandardPost | RetrieveExpandedPost | DeletePost | ListPosts
       | CountPostsByAuthor => PostService
    case GetPair | AddPair | RemovePair | FindPair | FetchPairs | CountPairs => UniquepairService
    case ProcessPost | FetchTrendingHashtags => TrendingService
    case IsValidWord => WordfilterService
  }

  /** The operation's name in the service's Thrift interface. */
  function OpName(op: Op): string {
    match op
    case AuthenticateUser => "authenticate_user"
    case CreateAccount => "create_account"
    case RetrieveStandardAccount => "retrieve_standard_account"
    case RetrieveExpandedAccount => "retrieve_expanded_account"
    case UpdateAccount => "update_account"
    case DeleteAccount => "delete_account"
    case FollowAccount => "follow_account"
    case RetrieveStandardFollow => "retrieve_standard_follow"
    case RetrieveExpandedFollow => "retrieve_expanded_follow"
    case DeleteFollow => "delete_follow"
    case ListFollows => "list_follows"
    case CheckFollow => "check_follow"
    case CountFollowers => "count_followers"
    case CountFollowees => "count_followees"
    case LikePost => "like_post"
    case RetrieveStandardLike => "retrieve_standard_like"
    case RetrieveExpandedLike => "retrieve_expanded_like"
    case DeleteLike => "delete_like"
    case ListLikes => "list_likes"
    case CountLikesByAccount => "count_likes_by_account"
    case CountLikesOfPost => "count_likes_of_post"
    case CreatePost => "create_post"
    case RetrieveStandardPost => "retrieve_standard_post"
    case RetrieveExpandedPost => "retrieve_expanded_post"
    case DeletePost => "delete_post"
    case ListPosts => "list_posts"
    case CountPostsByAuthor => "count_posts_by_author"
    case GetPair => "get"
    case AddPair => "add"
    case RemovePair => "remove"
    case FindPair => "find"
    case FetchPairs => "fetch"
    case CountPairs => "count"
    case ProcessPost => "process_post"
    case FetchTrendingHashtags => "fetch_trending_hashtags"
    case IsValidWord => "is_valid_word"
  }

  /** The operation a trace label's `rs=` and `rf=` fields name, if any. */
  function OpNamed(service: string, name: string): Option<Op> {
    if service == "account" then
      if name == "authenticate_user" then Some(AuthenticateUser)
      else if name == "create_account" then Some(CreateAccount)
      else if name == "retrieve_standard_account" then Some(RetrieveStandardAccount)
      else if name == "retrieve_expanded_account" then Some(RetrieveExpandedAccount)
      else if name == "update_account" then Some(UpdateAccount)
      else if name == "delete_account" then Some(DeleteAccount)
      else None
    else if service == "follow" then
      if name == "follow_account" then Some(FollowAccount)
      else if name == "retrieve_standard_follow" then Some(RetrieveStandardFollow)
      else if name == "retrieve_expanded_follow" then Some(RetrieveExpandedFollow)
      else if name == "delete_follow" then Some(DeleteFollow)
      else if name == "list_follows" then Some(ListFollows)
      else if name == "check_follow" then Some(CheckFollow)
      else if name == "count_followers" then Some(CountFollowers)
      else if name == "count_followees" then Some(CountFollowees)
      else None
    else if service == "like" then
      if name == "like_post" then Some(LikePost)
      else if name == "retrieve_standard_like" then Some(RetrieveStandardLike)
      else if name == "retrieve_expanded_like" then Some(RetrieveExpandedLike)
      else if name == "delete_like" then Some(DeleteLike)
      else if name == "list_likes" then Some(ListLikes)
      else if name == "count_likes_by_account" then Some(CountLikesByAccount)
      else if name == "count_likes_of_post" then Some(CountLikesOfPost)
      else None
    else if service == "post" then
      if name == "create_post" then Some(CreatePost)
      else if name == "retrieve_standard_post" then Some(RetrieveStandardPost)
      else if name == "retrieve_expanded_post" then Some(RetrieveExpandedPost)
      else if name == "delete_post" then Some(DeletePost)
      else if name == "list_posts" then Some(ListPosts)
      else if name == "count_posts_by_author" then Some(CountPostsByAuthor)
      else None
    else if service == "uniquepair" then
      if name == "get" then Some(GetPair)
      else if name == "add" then Some(AddPair)
      else if name == "remove" then Some(RemovePair)
      else if name == "find" then Some(FindPair)
      else if name == "fetch" then Some(FetchPairs)
      else if name == "count" then Some(CountPairs)
      else None
    else if service == "trending" then
      if name == "process_post" then Some(ProcessPost)
      else if name == "fetch_trending_hashtags" then Some(FetchTrendingHashtags)
      else None
    else if service == "wordfilter" then
      if name == "is_valid_word" then Some(IsValidWord) else None
    else None
  }

  /** The service and function names of a trace label identify its
      operation: no two wrappers share a label. */
  lemma OpNamedInvertsNames(op: Op)
    ensures OpNamed(ServiceName(ServiceOf(op)), OpName(op)) == Some(op)
  {
    match ServiceOf(op)
    case AccountService => AccountNamesInvert(op);
    case FollowService => FollowNamesInvert(op);
    case LikeService => LikeNamesInvert(op);
    case PostService => PostNamesInvert(op);
    case UniquepairService => UniquepairNamesInvert(op);
    case TrendingService => TrendingNamesInvert(op);
    case WordfilterService => WordfilterNamesInvert(op);
  }

  lemma AccountNamesInvert(op: Op)
    requires ServiceOf(op) == AccountService
    ensures OpNamed("account", OpName(op)) == Some(op)
  {
  }

  lemma FollowNamesInvert(op: Op)
    requires ServiceOf(op) == FollowService
    ensures OpNamed("follow", OpName(op)) == Some(op)
  {
  }

  lemma LikeNamesInvert(op: Op)
    requires ServiceOf(op) == LikeService
    ensures OpNamed("like", OpName(op)) == Some(op)
  {
  }

  lemma PostNamesInvert(op: Op)
    requires ServiceOf(op) == PostService
    ensures OpNamed("post", OpName(op)) == Some(op)
  {
  }

  lemma UniquepairNamesInvert(op: Op)
    requires ServiceOf(op) == UniquepairService
    ensures OpNamed("uniquepair", OpName(op)) == Some(op)
  {
  }

  lemma TrendingNamesInvert(op: Op)
    requires ServiceOf(op) == TrendingService
    ensures OpNamed("trending", OpName(op)) == Some(op)
  {
  }

  lemma WordfilterNamesInvert(op: Op)
    requires ServiceOf(op) == WordfilterService
    ensures OpNamed("wordfilter", OpName(op)) == Some(op)
  {
  }

  /** The label `RPC_WRAPPER` logs for `op` called from `local`. */
  function TraceLabel(op: Op, local: string): string {
    "rs=" + ServiceName(ServiceOf(op)) + " rf=" + OpName(op) + " ls=" + local
  }

  /** One line of the call logger, before formatting: which operation was
      called from which local service. Its text is TraceLabel(op, local)
      followed by the latency field. */
  datatype TraceEntry = TraceEntry(op: Op, local: string)

  /** The two ways `release_client` can dispose of a client. */
  ghost predicate IsRelease<C>(e: Event<C>, c: C) {
    e == Requeued(c) || e == Closed(c)
  }

  /** What an `rpc_*` wrapper came to in one atomic step: `Blocked` when the
      pool had to wait (the call goes on in ResumeRpc), otherwise the remote
      outcome. */
  datatype Call<T> = Blocked | Completed(outcome: Outcome<T>)

  class MicroserviceConnectedServer {
    const localServiceName: string
    /** `logging != 0`: whether the loggers exist (they are null otherwise). */
    const logging: bool
    const accountPool: MicroserviceConnectionPool
    const followPool: MicroserviceConnectionPool
    const likePool: MicroserviceConnectionPool
    const postPool: MicroserviceConnectionPool
    const uniquepairPool: MicroserviceConnectionPool
    const trendingPool: MicroserviceConnectionPool
    const wordfilterPool: MicroserviceConnectionPool
    /** The lines written to the call logger, in order. */
    var trace: seq<TraceEntry>

    /** The pool a service's wrappers lease from. */
    function PoolOf(s: Service): MicroserviceConnectionPool {
      match s
      case AccountService => accountPool
      case FollowService => followPool
      case LikeService => likePool
      case PostService => postPool
      case UniquepairService => uniquepairPool
      case TrendingService => trendingPool
      case WordfilterService => wordfilterPool
    }

    /** Every pool keeps its invariant. Each wrapper changes one pool only,
        so the others keep theirs by framing. */
    ghost predicate Valid()
      reads this, accountPool, followPool, likePool, postPool, uniquepairPool, trendingPool, wordfilterPool
    {
      forall s :: PoolOf(s).Valid()
    }

    /** The seven pools as the constructor leaves them, stated for every service. */
    lemma AllInitial(service: map<string, seq<Server>>, minSize: int, maxSize: int, allowEphemeral: bool)
      requires accountPool.Initial(localServiceName, "account", ListAt(service, "account"), minSize, maxSize, allowEphemeral, 30000)
      requires followPool.Initial(localServiceName, "follow", ListAt(service, "follow"), minSize, maxSize, allowEphemeral, 30000)
      requires likePool.Initial(localServiceName, "like", ListAt(service, "like"), minSize, maxSize, allowEphemeral, 30000)
      requires postPool.Initial(localServiceName, "post", ListAt(service, "post"), minSize, maxSize, allowEphemeral, 30000)
      requires uniquepairPool.Initial(localServiceName, "uniquepair", ListAt(service, "uniquepair"),
                                      minSize, maxSize, allowEphemeral, 30000)
      requires trendingPool.Initial(localServiceName, "trending", ListAt(service, "trending"),
                                    minSize, maxSize, allowEphemeral, 30000)
      requires wordfilterPool.Initial(localServiceName, "wordfilter", ListAt(service, "wordfilter"),
                                      minSize, maxSize, allowEphemeral, 30000)
      ensures Valid()
      ensures forall s :: PoolOf(s).Initial(localServiceName, ServiceName(s), ListAt(service, ServiceName(s)),
                                            minSize, maxSize, allowEphemeral, 30000)
    {
    }

    /** The constructor: split the configured addresses and give every
        service's pool its own servers (none for a service the file does not
        list) and the same size settings and 30000 ms timeout. */
    constructor (localServiceName: string, conf: seq<ServiceConf>, minSize: int, maxSize: int,
                 allowEphemeral: bool, logging: int)
      requires ServiceTable(conf).Some? && 0 <= minSize <= maxSize
      ensures Valid() && trace == []
      ensures this.localServiceName == localServiceName && this.logging == (logging != 0)
      ensures fresh(accountPool) && fresh(followPool) && fresh(likePool) && fresh(postPool)
      ensures fresh(uniquepairPool) && fresh(trendingPool) && fresh(wordfilterPool)
      ensures forall s :: PoolOf(s).Initial(localServiceName, ServiceName(s), ListAt(ServiceTable(conf).value, ServiceName(s)),
                                            minSize, maxSize, allowEphemeral, 30000)
    {
      var table := BuildServiceTable(conf);
      var service := table.value;
      var a := new MicroserviceConnectionPool(localServiceName, "account", ListAt(service, "account"),
        minSize, maxSize, allowEphemeral, 30000);
      var f := new MicroserviceConnectionPool(localServiceName, "follow", ListAt(service, "follow"),
        minSize, maxSize, allowEphemeral, 30000);
      var l := new MicroserviceConnectionPool(localServiceName, "like", ListAt(service, "like"),
        minSize, maxSize, allowEphemeral, 30000);
      var p := new MicroserviceConnectionPool(localServiceName, "post", ListAt(service, "post"),
        minSize, maxSize, allowEphemeral, 30000);
      var u := new MicroserviceConnectionPool(localServiceName, "uniquepair", ListAt(service, "uniquepair"),
        minSize, maxSize, allowEphemeral, 30000);
      var t := new MicroserviceConnectionPool(localServiceName, "trending", ListAt(service, "trending"),
        minSize, maxSize, allowEphemeral, 30000);
      var w := new MicroserviceConnectionPool(localServiceName, "wordfilter", ListAt(service, "wordfilter"),
        minSize, maxSize, allowEphemeral, 30000);
      this.localServiceName := localServiceName;
      this.logging := logging != 0;
      accountPool, followPool, likePool, postPool := a, f, l, p;
      uniquepairPool, trendingPool, wordfilterPool := u, t, w;
      trace := [];
      new;
      AllInitial(service, minSize, maxSize, allowEphemeral);
    }

    /** An `rpc_*` wrapper for `op`: lease from the service's pool, make the
        remote call (whose outcome is `reply`), release the same client on
        both paths, and return the result or rethrow the fault unchanged.
        `choice` is the `rand()` of a bypassed pool. */
    method Rpc<T>(op: Op, choice: nat, reply: Outcome<T>) returns (r: Call<T>, ghost c: Client, ghost release: Event<Client>)
      requires Valid() && PoolOf(ServiceOf(op)).ServerIndexDefined()
      modifies PoolOf(ServiceOf(op)), this`trace
      ensures Valid()
      ensures var p := PoolOf(ServiceOf(op));
        r.Blocked? <==> old(GetDecision(p.currentSize, p.minSize, p.maxSize, |p.idle|, p.allowEphemeral)) == Wait
      ensures var p := PoolOf(ServiceOf(op));
        r.Blocked? ==> p.leased == old(p.leased) && p.history == old(p.history) && trace == old(trace)
                       && p.backlog == old(p.backlog) + 1
      ensures var p := PoolOf(ServiceOf(op));
        r.Completed? ==> && r.outcome == reply && p.leased == old(p.leased)
                         && p.history == old(p.history) + [Acquired(c), release] && IsRelease(release, c)
      ensures r.Completed? ==> trace == old(trace) + (if logging && reply.Ok? then [TraceEntry(op, localServiceName)] else [])
    {
      var lease := Acquire(op, choice);
      if lease.MustWait? {
        return Blocked, *, *;
      }
      var client := lease.client;
      c := client;
      var outcome;
      outcome, release := CallAndRelease(op, client, reply);
      r := Completed(outcome);
    }

    /** `get_client` on the pool of the operation's service. */
    method Acquire(op: Op, choice: nat) returns (lease: GetOutcome<Client>)
      requires Valid() && PoolOf(ServiceOf(op)).ServerIndexDefined()
      modifies PoolOf(ServiceOf(op))
      ensures Valid()
      ensures var p := PoolOf(ServiceOf(op));
        lease.MustWait? <==> old(GetDecision(p.currentSize, p.minSize, p.maxSize, |p.idle|, p.allowEphemeral)) == Wait
      ensures var p := PoolOf(ServiceOf(op));
        lease.MustWait? ==> p.leased == old(p.leased) && p.history == old(p.history) && p.backlog == old(p.backlog) + 1
      ensures var p := PoolOf(ServiceOf(op));
        lease.Leased? ==> && lease.client in p.leased && p.leased == old(p.leased) + multiset{lease.client}
                          && p.history == old(p.history) + [Acquired(lease.client)] && p.backlog == old(p.backlog)
    {
      lease := PoolOf(ServiceOf(op)).GetClient(choice);
    }

    /** The rest of a wrapper whose caller waited: once a release has queued
        a client, take it, call and release. */
    method ResumeRpc<T>(op: Op, reply: Outcome<T>) returns (r: Outcome<T>, ghost c: Client, ghost release: Event<Client>)
      requires Valid() && PoolOf(ServiceOf(op)).backlog > 0 && |PoolOf(ServiceOf(op)).idle| > 0
      modifies PoolOf(ServiceOf(op)), this`trace
      ensures Valid()
      ensures var p := PoolOf(ServiceOf(op));
        && r == reply && p.leased == old(p.leased) && p.backlog == old(p.backlog) - 1
        && p.history == old(p.history) + [Acquired(c), release] && IsRelease(release, c)
      ensures trace == old(trace) + (if logging && reply.Ok? then [TraceEntry(op, localServiceName)] else [])
    {
      var p := PoolOf(ServiceOf(op));
      var client := p.ResumeWaiting();
      c := client;
      r, release := CallAndRelease(op, client, reply);
    }

    /** `RPC_WRAPPER` inside the try block, then `release_client` on the
        normal path or in `catch (...)` before `throw;`. */
    method CallAndRelease<T>(op: Op, c: Client, reply: Outcome<T>) returns (r: Outcome<T>, ghost release: Event<Client>)
      requires Valid() && c in PoolOf(ServiceOf(op)).leased
      modifies PoolOf(ServiceOf(op)), this`trace
      ensures Valid()
      ensures var p := PoolOf(ServiceOf(op));
        && r == reply && p.leased == old(p.leased) - multiset{c} && p.backlog == old(p.backlog)
        && p.history == old(p.history) + [release] && IsRelease(release, c)
      ensures trace == old(trace) + (if logging && reply.Ok? then [TraceEntry(op, localServiceName)] else [])
    {
      var p := PoolOf(ServiceOf(op));
      if reply.Ok? && logging {
        trace := trace + [TraceEntry(op, localServiceName)];
      }
      p.ReleaseClient(c);
      release := p.history[|p.history| - 1];
      r := reply;
    }
  }
}
