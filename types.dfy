/** The BuzzBlog Thrift records that cross service boundaries, as the
    gateway and the backend servers build and read them. An `optional`
    Thrift field is an Option; the expanded-mode parts of a record, which
    the servers set all together, are one Option each. */
module Types {
  import opened Common

  /** `TRequestMetadata`: the request id, and the requester's account id on
      routes that require a login. */
  datatype RequestMetadata = RequestMetadata(id: string, requesterId: Option<int>)

  /** `request_metadata.requester_id` as the C++ servers read it: an unset
      Thrift `i32` field holds its default, 0. */
  function RequesterId(m: RequestMetadata): int {
    match m.requesterId
    case Some(i) => i
    case None => 0
  }

  /** The expanded-mode fields of `TAccount`. */
  datatype Activity = Activity(followsYou: bool, followedByYou: bool, nFollowers: int,
                               nFollowing: int, nPosts: int, nLikes: int)

  /** `TAccount`. */
  datatype Account = Account(id: int, createdAt: int, active: bool, username: string,
                             firstName: string, lastName: string, activity: Option<Activity>)

  /** `TPost`; `author` and `n_likes` are set in expanded mode. */
  datatype Post = Post(id: int, createdAt: int, active: bool, text: string, authorId: int,
                       author: Option<Account>, nLikes: Option<int>)

  /** `TFollow`; `follower` and `followee` are set in expanded mode. */
  datatype Follow = Follow(id: int, createdAt: int, followerId: int, followeeId: int,
                           follower: Option<Account>, followee: Option<Account>)

  /** `TLike`; `account` and `post` are set in expanded mode. */
  datatype Like = Like(id: int, createdAt: int, accountId: int, postId: int,
                       account: Option<Account>, post: Option<Post>)

  /** `TUniquepair`: an ordered pair of ids, unique within its domain. */
  datatype Uniquepair = Uniquepair(id: int, createdAt: int, domain: string, firstElem: int, secondElem: int)

  datatype AccountQuery = AccountQuery(username: Option<string>)
  datatype PostQuery = PostQuery(authorId: Option<int>)
  datatype FollowQuery = FollowQuery(followerId: Option<int>, followeeId: Option<int>)
  datatype LikeQuery = LikeQuery(accountId: Option<int>, postId: Option<int>)
  datatype UniquepairQuery = UniquepairQuery(domain: string, firstElem: Option<int>, secondElem: Option<int>)
}
