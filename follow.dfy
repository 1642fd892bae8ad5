/** The follow service's handler (app/follow/service/server/src/
    follow_server.cpp): a follow is a uniquepair (follower, followee) in the
    "follow" domain. The uniquepair and account services are peers whose
    answers are inputs. */
module FollowService {
  import opened Common
  import opened Types
  import UniquepairService

  const Domain: string := "follow"

  /** The remote calls the handler makes, by their answers. */
  datatype Peers = Peers(
    add: (string, int, int) -> Outcome<Uniquepair>,
    get: int -> Outcome<Uniquepair>,
    remove: int -> Outcome<()>,
    find: (string, int, int) -> Outcome<bool>,
    fetch: (UniquepairQuery, int, int) -> Outcome<seq<Uniquepair>>,
    count: UniquepairQuery -> Outcome<int>,
    retrieveStandardAccount: int -> Outcome<Account>)

  /** The follow a stored pair stands for. */
  function FollowOfPair(u: Uniquepair): (f: Follow)
    ensures f.id == u.id && f.createdAt == u.createdAt
    ensures f.followerId == u.firstElem && f.followeeId == u.secondElem
    ensures f.follower.None? && f.followee.None?
  {
    Follow(u.id, u.createdAt, u.firstElem, u.secondElem, None, None)
  }

  /** `follow_account`: add (requester, account) to the domain; an existing
      pair is FollowAlreadyExists. The follow always has the requester as
      follower. */
  function FollowAccount(meta: RequestMetadata, accountId: int, peers: Peers): (r: Outcome<Follow>)
    ensures var a := peers.add(Domain, RequesterId(meta), accountId);
      && (a == Exc(UniquepairAlreadyExists) ==> r == Exc(FollowAlreadyExists))
      && (a.Exc? && a.fault != UniquepairAlreadyExists ==> r == Exc(a.fault))
      && (r.Ok? <==> a.Ok?)
      && (r.Ok? ==> r.value == Follow(a.value.id, a.value.createdAt, RequesterId(meta), accountId, None, None))
  {
    match peers.add(Domain, RequesterId(meta), accountId)
    case Exc(UniquepairAlreadyExists) => Exc(FollowAlreadyExists)
    case Exc(f) => Exc(f)
    case Ok(u) => Ok(Follow(u.id, u.createdAt, RequesterId(meta), accountId, None, None))
  }

  /** `retrieve_standard_follow`: the pair's first element is the follower,
      its second the followee; a missing pair is FollowNotFound. */
  function RetrieveStandardFollow(followId: int, peers: Peers): (r: Outcome<Follow>)
    ensures peers.get(followId) == Exc(UniquepairNotFound) ==> r == Exc(FollowNotFound)
    ensures peers.get(followId).Exc? && peers.get(followId).fault != UniquepairNotFound ==> r == Exc(peers.get(followId).fault)
    ensures r.Ok? <==> peers.get(followId).Ok?
    ensures r.Ok? ==> r.value == FollowOfPair(peers.get(followId).value)
  {
    match peers.get(followId)
    case Exc(UniquepairNotFound) => Exc(FollowNotFound)
    case Exc(f) => Exc(f)
    case Ok(u) => Ok(FollowOfPair(u))
  }

  /** Both accounts of a follow, follower first (the order of the `get`s). */
  function ExpandFollow(f: Follow, peers: Peers): (r: Outcome<Follow>)
    ensures r.Ok? <==> peers.retrieveStandardAccount(f.followerId).Ok? && peers.retrieveStandardAccount(f.followeeId).Ok?
    ensures r.Ok? ==> r.value == f.(follower := Some(peers.retrieveStandardAccount(f.followerId).value),
                                    followee := Some(peers.retrieveStandardAccount(f.followeeId).value))
    ensures peers.retrieveStandardAccount(f.followerId).Exc? ==> r == Exc(peers.retrieveStandardAccount(f.followerId).fault)
    ensures (peers.retrieveStandardAccount(f.followerId).Ok? && peers.retrieveStandardAccount(f.followeeId).Exc?)
            ==> r == Exc(peers.retrieveStandardAccount(f.followeeId).fault)
  {
    match peers.retrieveStandardAccount(f.followerId)
    case Exc(e) => Exc(e)
    case Ok(follower) =>
      match peers.retrieveStandardAccount(f.followeeId)
      case Exc(e) => Exc(e)
      case Ok(followee) => Ok(f.(follower := Some(follower), followee := Some(followee)))
  }

  /** `retrieve_expanded_follow`: the standard follow with both accounts. */
  function RetrieveExpandedFollow(followId: int, peers: Peers): (r: Outcome<Follow>)
    ensures RetrieveStandardFollow(followId, peers).Exc? ==> r == RetrieveStandardFollow(followId, peers)
    ensures RetrieveStandardFollow(followId, peers).Ok? ==> r == ExpandFollow(RetrieveStandardFollow(followId, peers).value, peers)
    ensures r.Ok? ==> && peers.get(followId).Ok?
                      && r.value.followerId == peers.get(followId).value.firstElem
                      && r.value.followeeId == peers.get(followId).value.secondElem
                      && r.value.follower == Some(peers.retrieveStandardAccount(r.value.followerId).value)
                      && r.value.followee == Some(peers.retrieveStandardAccount(r.value.followeeId).value)
  {
    match RetrieveStandardFollow(followId, peers)
    case Exc(e) => Exc(e)
    case Ok(f) => ExpandFollow(f, peers)
  }

  /** `delete_follow`: a missing pair is FollowNotFound, a requester other
      than the follower is FollowNotAuthorized, and only then is the pair
      removed (a pair gone meanwhile is FollowNotFound too). */
  function DeleteFollow(meta: RequestMetadata, followId: int, peers: Peers): (r: Outcome<()>)
    ensures peers.get(followId) == Exc(UniquepairNotFound) ==> r == Exc(FollowNotFound)
    ensures peers.get(followId).Ok? && RequesterId(meta) != peers.get(followId).value.firstElem
            ==> r == Exc(FollowNotAuthorized)
    ensures r.Ok? <==> && peers.get(followId).Ok? && RequesterId(meta) == peers.get(followId).value.firstElem
                       && peers.remove(followId).Ok?
    ensures (peers.get(followId).Ok? && RequesterId(meta) == peers.get(followId).value.firstElem
             && peers.remove(followId) == Exc(UniquepairNotFound)) ==> r == Exc(FollowNotFound)
  {
    match peers.get(followId)
    case Exc(UniquepairNotFound) => Exc(FollowNotFound)
    case Exc(f) => Exc(f)
    case Ok(u) =>
      if RequesterId(meta) != u.firstElem then Exc(FollowNotAuthorized)
      else match peers.remove(followId)
        case Exc(UniquepairNotFound) => Exc(FollowNotFound)
        case Exc(f) => Exc(f)
        case Ok(_) => Ok(())
  }

  /** The uniquepair query of a follow query: the follower filters the first
      element, the followee the second. */
  function PairQuery(query: FollowQuery): (q: UniquepairQuery)
    ensures q.domain == Domain
    ensures q.firstElem == query.followerId && q.secondElem == query.followeeId
  {
    UniquepairQuery(Domain, query.followerId, query.followeeId)
  }

  /** `list_follows`: fetch the pairs the query selects (with its limit and
      offset), then one expanded follow per pair, in fetch order; the first
      fault in pair order (follower before followee) is thrown. */
  method ListFollows(query: FollowQuery, limit: int, offset: int, peers: Peers) returns (r: Outcome<seq<Follow>>)
    ensures peers.fetch(PairQuery(query), limit, offset).Exc? ==> r == Exc(peers.fetch(PairQuery(query), limit, offset).fault)
    ensures var pairs := peers.fetch(PairQuery(query), limit, offset);
      pairs.Ok? ==> (r.Ok? <==> forall i :: 0 <= i < |pairs.value| ==> ExpandFollow(FollowOfPair(pairs.value[i]), peers).Ok?)
    ensures var pairs := peers.fetch(PairQuery(query), limit, offset);
      r.Ok? ==> && pairs.Ok? && |r.value| == |pairs.value|
                && forall i :: 0 <= i < |pairs.value| ==>
                     && r.value[i].id == pairs.value[i].id
                     && r.value[i].followerId == pairs.value[i].firstElem
                     && r.value[i].followeeId == pairs.value[i].secondElem
                     && r.value[i].follower == Some(peers.retrieveStandardAccount(pairs.value[i].firstElem).value)
                     && r.value[i].followee == Some(peers.retrieveStandardAccount(pairs.value[i].secondElem).value)
    ensures var pairs := peers.fetch(PairQuery(query), limit, offset);
      r.Ok? ==> && pairs.Ok? && |r.value| == |pairs.value|
                && forall i :: 0 <= i < |pairs.value| ==> ExpandFollow(FollowOfPair(pairs.value[i]), peers) == Ok(r.value[i])
    ensures var pairs := peers.fetch(PairQuery(query), limit, offset);
      pairs.Ok? && r.Exc? ==> FirstFault(u => ExpandFollow(FollowOfPair(u), peers), pairs.value, r.fault)
  {
    var pairs := peers.fetch(PairQuery(query), limit, offset);
    if pairs.Exc? {
      return Exc(pairs.fault);
    }
    r := Collect(u => ExpandFollow(FollowOfPair(u), peers), pairs.value);
  }

  /** `check_follow`: whether the pair (follower, followee) is stored; a
      NotFound is false, any other fault propagates. */
  function CheckFollow(followerId: int, followeeId: int, peers: Peers): (r: Outcome<bool>)
    ensures var found := peers.find(Domain, followerId, followeeId);
      && (r == Ok(true) <==> found.Ok?)
      && (r == Ok(false) <==> found == Exc(UniquepairNotFound))
      && (r.Exc? <==> found.Exc? && found.fault != UniquepairNotFound)
      && (r.Exc? ==> r == Exc(found.fault))
  {
    match peers.find(Domain, followerId, followeeId)
    case Ok(_) => Ok(true)
    case Exc(UniquepairNotFound) => Ok(false)
    case Exc(f) => Exc(f)
  }

  /** The query counting the account's followers: pairs whose second element
      is the account. */
  function FollowersQuery(accountId: int): (q: UniquepairQuery)
    ensures q == UniquepairQuery(Domain, None, Some(accountId))
  {
    PairQuery(FollowQuery(None, Some(accountId)))
  }

  /** The query counting the accounts the account follows: pairs whose first
      element is the account. */
  function FolloweesQuery(accountId: int): (q: UniquepairQuery)
    ensures q == UniquepairQuery(Domain, Some(accountId), None)
  {
    PairQuery(FollowQuery(Some(accountId), None))
  }

  /** `count_followers`: the count of pairs with the account second. */
  function CountFollowers(accountId: int, peers: Peers): (r: Outcome<int>)
    ensures r == peers.count(UniquepairQuery(Domain, None, Some(accountId)))
  {
    peers.count(FollowersQuery(accountId))
  }

  /** `count_followees`: the count of pairs with the account first. */
  function CountFollowees(accountId: int, peers: Peers): (r: Outcome<int>)
    ensures r == peers.count(UniquepairQuery(Domain, Some(accountId), None))
  {
    peers.count(FolloweesQuery(accountId))
  }

  /** The fixed text before the element in the followees count's clause. */
  lemma FirstPrefix()
    ensures UniquepairService.DomainIs + Domain + "'" + UniquepairService.FirstIs == "domain = 'follow' AND first_elem = "
  {
  }

  /** The fixed text before the element in the followers count's clause. */
  lemma SecondPrefix()
    ensures UniquepairService.DomainIs + Domain + "'" + UniquepairService.SecondIs == "domain = 'follow' AND second_elem = "
  {
  }

  /** The followers count filters on the second element only. */
  lemma FollowersWhere(accountId: int)
    ensures UniquepairService.WhereClause(FollowersQuery(accountId))
            == "domain = 'follow' AND second_elem = " + IntToString(accountId)
  {
    var n := IntToString(accountId);
    assert UniquepairService.WhereClause(FollowersQuery(accountId))
           == UniquepairService.DomainIs + Domain + "'" + UniquepairService.SecondIs + n;
    SecondPrefix();
  }

  /** The followees count filters on the first element only. */
  lemma FolloweesWhere(accountId: int)
    ensures UniquepairService.WhereClause(FolloweesQuery(accountId))
            == "domain = 'follow' AND first_elem = " + IntToString(accountId)
  {
    var n := IntToString(accountId);
    assert UniquepairService.WhereClause(FolloweesQuery(accountId))
           == UniquepairService.DomainIs + Domain + "'" + UniquepairService.FirstIs + n;
    FirstPrefix();
  }
}
