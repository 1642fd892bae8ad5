/** The like service's handler (app/like/service/server/src/like_server.cpp):
    a like is a uniquepair (account, post) in the "like" domain. The
    uniquepair, account and post services are peers whose answers are
    inputs. */
module LikeService {
  import opened Common
  import opened Types
  import UniquepairService

  const Domain: string := "like"

  /** The remote calls the handler makes, by their answers. */
  datatype Peers = Peers(
    add: (string, int, int) -> Outcome<Uniquepair>,
    get: int -> Outcome<Uniquepair>,
    remove: int -> Outcome<()>,
    fetch: (UniquepairQuery, int, int) -> Outcome<seq<Uniquepair>>,
    count: UniquepairQuery -> Outcome<int>,
    retrieveStandardAccount: int -> Outcome<Account>,
    retrieveExpandedPost: int -> Outcome<Post>)

  /** The like a stored pair stands for. */
  function LikeOfPair(u: Uniquepair): (l: Like)
    ensures l.id == u.id && l.createdAt == u.createdAt
    ensures l.accountId == u.firstElem && l.postId == u.secondElem
    ensures l.account.None? && l.post.None?
  {
    Like(u.id, u.createdAt, u.firstElem, u.secondElem, None, None)
  }

  /** `like_post`: add (requester, post) to the domain; an existing pair is
      LikeAlreadyExists. The like always has the requester as its account. */
  function LikePost(meta: RequestMetadata, postId: int, peers: Peers): (r: Outcome<Like>)
    ensures var a := peers.add(Domain, RequesterId(meta), postId);
      && (a == Exc(UniquepairAlreadyExists) ==> r == Exc(LikeAlreadyExists))
      && (a.Exc? && a.fault != UniquepairAlreadyExists ==> r == Exc(a.fault))
      && (r.Ok? <==> a.Ok?)
      && (r.Ok? ==> r.value == Like(a.value.id, a.value.createdAt, RequesterId(meta), postId, None, None))
  {
    match peers.add(Domain, RequesterId(meta), postId)
    case Exc(UniquepairAlreadyExists) => Exc(LikeAlreadyExists)
    case Exc(f) => Exc(f)
    case Ok(u) => Ok(Like(u.id, u.createdAt, RequesterId(meta), postId, None, None))
  }

  /** `retrieve_standard_like`: the pair's first element is the account, its
      second the post; a missing pair is LikeNotFound. */
  function RetrieveStandardLike(likeId: int, peers: Peers): (r: Outcome<Like>)
    ensures peers.get(likeId) == Exc(UniquepairNotFound) ==> r == Exc(LikeNotFound)
    ensures peers.get(likeId).Exc? && peers.get(likeId).fault != UniquepairNotFound ==> r == Exc(peers.get(likeId).fault)
    ensures r.Ok? <==> peers.get(likeId).Ok?
    ensures r.Ok? ==> r.value == LikeOfPair(peers.get(likeId).value)
  {
    match peers.get(likeId)
    case Exc(UniquepairNotFound) => Exc(LikeNotFound)
    case Exc(f) => Exc(f)
    case Ok(u) => Ok(LikeOfPair(u))
  }

  /** A like's standard account and expanded post, account first (the order
      of the `get`s). */
  function ExpandLike(l: Like, peers: Peers): (r: Outcome<Like>)
    ensures r.Ok? <==> peers.retrieveStandardAccount(l.accountId).Ok? && peers.retrieveExpandedPost(l.postId).Ok?
    ensures r.Ok? ==> r.value == l.(account := Some(peers.retrieveStandardAccount(l.accountId).value),
                                    post := Some(peers.retrieveExpandedPost(l.postId).value))
    ensures peers.retrieveStandardAccount(l.accountId).Exc? ==> r == Exc(peers.retrieveStandardAccount(l.accountId).fault)
    ensures (peers.retrieveStandardAccount(l.accountId).Ok? && peers.retrieveExpandedPost(l.postId).Exc?)
            ==> r == Exc(peers.retrieveExpandedPost(l.postId).fault)
  {
    match peers.retrieveStandardAccount(l.accountId)
    case Exc(e) => Exc(e)
    case Ok(account) =>
      match peers.retrieveExpandedPost(l.postId)
      case Exc(e) => Exc(e)
      case Ok(post) => Ok(l.(account := Some(account), post := Some(post)))
  }

  /** `retrieve_expanded_like`: the standard like with its account and post. */
  function RetrieveExpandedLike(likeId: int, peers: Peers): (r: Outcome<Like>)
    ensures RetrieveStandardLike(likeId, peers).Exc? ==> r == RetrieveStandardLike(likeId, peers)
    ensures RetrieveStandardLike(likeId, peers).Ok? ==> r == ExpandLike(RetrieveStandardLike(likeId, peers).value, peers)
    ensures r.Ok? ==> && peers.get(likeId).Ok?
                      && r.value.accountId == peers.get(likeId).value.firstElem
                      && r.value.postId == peers.get(likeId).value.secondElem
                      && r.value.account == Some(peers.retrieveStandardAccount(r.value.accountId).value)
                      && r.value.post == Some(peers.retrieveExpandedPost(r.value.postId).value)
  {
    match RetrieveStandardLike(likeId, peers)
    case Exc(e) => Exc(e)
    case Ok(l) => ExpandLike(l, peers)
  }

  /** `delete_like`: a missing pair is LikeNotFound, a requester other than
      the liking account is LikeNotAuthorized, and only then is the pair
      removed (a pair gone meanwhile is LikeNotFound too). */
  function DeleteLike(meta: RequestMetadata, likeId: int, peers: Peers): (r: Outcome<()>)
    ensures peers.get(likeId) == Exc(UniquepairNotFound) ==> r == Exc(LikeNotFound)
    ensures peers.get(likeId).Ok? && RequesterId(meta) != peers.get(likeId).value.firstElem
            ==> r == Exc(LikeNotAuthorized)
    ensures r.Ok? <==> && peers.get(likeId).Ok? && RequesterId(meta) == peers.get(likeId).value.firstElem
                       && peers.remove(likeId).Ok?
    ensures (peers.get(likeId).Ok? && RequesterId(meta) == peers.get(likeId).value.firstElem
             && peers.remove(likeId) == Exc(UniquepairNotFound)) ==> r == Exc(LikeNotFound)
  {
    match peers.get(likeId)
    case Exc(UniquepairNotFound) => Exc(LikeNotFound)
    case Exc(f) => Exc(f)
    case Ok(u) =>
      if RequesterId(meta) != u.firstElem then Exc(LikeNotAuthorized)
      else match peers.remove(likeId)
        case Exc(UniquepairNotFound) => Exc(LikeNotFound)
        case Exc(f) => Exc(f)
        case Ok(_) => Ok(())
  }

  /** The uniquepair query of a like query: the account filters the first
      element, the post the second. */
  function PairQuery(query: LikeQuery): (q: UniquepairQuery)
    ensures q.domain == Domain
    ensures q.firstElem == query.accountId && q.secondElem == query.postId
  {
    UniquepairQuery(Domain, query.accountId, query.postId)
  }

  /** `list_likes`: fetch the pairs the query selects (with its limit and
      offset), then one expanded like per pair, in fetch order; the first
      fault in pair order (account before post) is thrown. */
  method ListLikes(query: LikeQuery, limit: int, offset: int, peers: Peers) returns (r: Outcome<seq<Like>>)
    ensures peers.fetch(PairQuery(query), limit, offset).Exc? ==> r == Exc(peers.fetch(PairQuery(query), limit, offset).fault)
    ensures var pairs := peers.fetch(PairQuery(query), limit, offset);
      pairs.Ok? ==> (r.Ok? <==> forall i :: 0 <= i < |pairs.value| ==> ExpandLike(LikeOfPair(pairs.value[i]), peers).Ok?)
    ensures var pairs := peers.fetch(PairQuery(query), limit, offset);
      r.Ok? ==> && pairs.Ok? && |r.value| == |pairs.value|
                && forall i :: 0 <= i < |pairs.value| ==>
                     && r.value[i].id == pairs.value[i].id
                     && r.value[i].accountId == pairs.value[i].firstElem
                     && r.value[i].postId == pairs.value[i].secondElem
                     && r.value[i].account == Some(peers.retrieveStandardAccount(pairs.value[i].firstElem).value)
                     && r.value[i].post == Some(peers.retrieveExpandedPost(pairs.value[i].secondElem).value)
    ensures var pairs := peers.fetch(PairQuery(query), limit, offset);
      r.Ok? ==> && pairs.Ok? && |r.value| == |pairs.value|
                && forall i :: 0 <= i < |pairs.value| ==> ExpandLike(LikeOfPair(pairs.value[i]), peers) == Ok(r.value[i])
    ensures var pairs := peers.fetch(PairQuery(query), limit, offset);
      pairs.Ok? && r.Exc? ==> FirstFault(u => ExpandLike(LikeOfPair(u), peers), pairs.value, r.fault)
  {
    var pairs := peers.fetch(PairQuery(query), limit, offset);
    if pairs.Exc? {
      return Exc(pairs.fault);
    }
    r := Collect(u => ExpandLike(LikeOfPair(u), peers), pairs.value);
  }

  /** The query counting an account's likes: pairs whose first element is
      the account. */
  function ByAccountQuery(accountId: int): (q: UniquepairQuery)
    ensures q == UniquepairQuery(Domain, Some(accountId), None)
  {
    PairQuery(LikeQuery(Some(accountId), None))
  }

  /** The query counting a post's likes: pairs whose second element is the
      post. */
  function OfPostQuery(postId: int): (q: UniquepairQuery)
    ensures q == UniquepairQuery(Domain, None, Some(postId))
  {
    PairQuery(LikeQuery(None, Some(postId)))
  }

  /** `count_likes_by_account`: the count of pairs with the account first. */
  function CountLikesByAccount(accountId: int, peers: Peers): (r: Outcome<int>)
    ensures r == peers.count(UniquepairQuery(Domain, Some(accountId), None))
  {
    peers.count(ByAccountQuery(accountId))
  }

  /** `count_likes_of_post`: the count of pairs with the post second. */
  function CountLikesOfPost(postId: int, peers: Peers): (r: Outcome<int>)
    ensures r == peers.count(UniquepairQuery(Domain, None, Some(postId)))
  {
    peers.count(OfPostQuery(postId))
  }

  /** The fixed text before the element in the count by account's clause. */
  lemma FirstPrefix()
    ensures UniquepairService.DomainIs + Domain + "'" + UniquepairService.FirstIs == "domain = 'like' AND first_elem = "
  {
  }

  /** The fixed text before the element in the count of a post's clause. */
  lemma SecondPrefix()
    ensures UniquepairService.DomainIs + Domain + "'" + UniquepairService.SecondIs == "domain = 'like' AND second_elem = "
  {
  }

  /** The count by account filters on the first element only. */
  lemma ByAccountWhere(accountId: int)
    ensures UniquepairService.WhereClause(ByAccountQuery(accountId))
            == "domain = 'like' AND first_elem = " + IntToString(accountId)
  {
    var n := IntToString(accountId);
    assert UniquepairService.WhereClause(ByAccountQuery(accountId))
           == UniquepairService.DomainIs + Domain + "'" + UniquepairService.FirstIs + n;
    FirstPrefix();
  }

  /** The count of a post's likes filters on the second element only. */
  lemma OfPostWhere(postId: int)
    ensures UniquepairService.WhereClause(OfPostQuery(postId))
            == "domain = 'like' AND second_elem = " + IntToString(postId)
  {
    var n := IntToString(postId);
    assert UniquepairService.WhereClause(OfPostQuery(postId))
           == UniquepairService.DomainIs + Domain + "'" + UniquepairService.SecondIs + n;
    SecondPrefix();
  }
}
