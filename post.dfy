/** The post service's handler (app/post/service/server/src/post_server.cpp),
    in the form of the account service's model: query outcomes and remote
    operations are inputs. */
module PostService {
  import opened Common
  import opened Types
  import opened Sql

  /** `validate_attributes`: a text of 1 to 200 bytes of UTF-8, so of at
      most 200 characters; 50 characters or fewer always fit. */
  predicate ValidateAttributes(text: string): (ok: bool)
    ensures ok ==> 0 < |text| <= 200
    ensures 0 < |text| <= 50 ==> ok
  {
    0 < Utf8Size(text) <= 200
  }

  /** For ASCII text the byte bound is the character bound. */
  lemma AsciiValidateAttributes(text: string)
    requires forall i :: 0 <= i < |text| ==> text[i] as int < 0x80
    ensures ValidateAttributes(text) <==> 0 < |text| <= 200
  {
    Utf8SizeOfAscii(text);
  }

  /** A 224-character text is rejected. */
  lemma LongTextRejected(text: string)
    requires |text| == 224
    ensures !ValidateAttributes(text)
  {
  }

  // ---------------------------------------------------------------------
  // WHERE clause of list_posts

  const AuthorIs: string := " AND author_id = "

  /** The WHERE clause of a listing: active posts, by the given author when
      the query sets one. */
  function WhereClause(query: PostQuery): (w: string)
    ensures |w| >= |ActiveOnly| && w[..|ActiveOnly|] == ActiveOnly
  {
    ActiveOnly + (match query.authorId case None => "" case Some(n) => AuthorIs + IntToString(n))
  }

  /** `build_where_clause`: stream the fixed part, then the author filter
      when set. */
  method BuildWhereClause(query: PostQuery) returns (w: string)
    ensures w == WhereClause(query)
  {
    w := ActiveOnly;
    if query.authorId.Some? {
      w := w + AuthorIs;
      w := w + IntToString(query.authorId.value);
    }
  }

  /** The author filter a WHERE clause holds (Some(None) for none), or None
      for a text of another shape. */
  function AuthorOfWhere(w: string): Option<Option<int>> {
    var p := ActiveOnly + AuthorIs;
    if w == ActiveOnly then Some(None)
    else if |w| > |p| && w[..|p|] == p then
      match ReadInt(w[|p|..])
      case Some((n, len)) => if len == |w| - |p| then Some(Some(n)) else None
      case None => None
    else None
  }

  /** The clause keeps the query: the filter is present iff the author is
      set, and names that author. */
  lemma WhereClauseReadsBack(query: PostQuery)
    ensures AuthorOfWhere(WhereClause(query)) == Some(query.authorId)
  {
    var w := WhereClause(query);
    var p := ActiveOnly + AuthorIs;
    if query.authorId.Some? {
      var n := query.authorId.value;
      assert w == p + IntToString(n);
      assert w[..|p|] == p;
      assert w[|p|..] == IntToString(n) + "";
      ReadIntOfIntToString(n, "");
    }
  }

  // ---------------------------------------------------------------------
  // Single-post operations

  /** `create_post`: validate before the trending call and the insert; the
      insert's fault comes first, then the trending call's; the post is
      active, holds the text, and its author is the requester. */
  function CreatePost(meta: RequestMetadata, text: string, db: Outcome<seq<Inserted>>, processPost: string -> Outcome<()>)
    : (r: Outcome<Post>)
    ensures !ValidateAttributes(text) ==> r == Exc(PostInvalidAttributes)
    ensures ValidateAttributes(text) && db.Exc? ==> r == Exc(db.fault)
    ensures ValidateAttributes(text) && db.Ok? && |db.value| > 0 && processPost(text).Exc?
            ==> r == Exc(processPost(text).fault)
    ensures r.Ok? <==> ValidateAttributes(text) && db.Ok? && |db.value| > 0 && processPost(text).Ok?
    ensures r.Ok? ==> r.value == Post(db.value[0].id, db.value[0].createdAt, true, text, RequesterId(meta), None, None)
  {
    if !ValidateAttributes(text) then Exc(PostInvalidAttributes)
    else
      match db
      case Exc(f) => Exc(f)
      case Ok(rows) =>
        if |rows| == 0 then Exc(OtherFault)
        else
          match processPost(text)
          case Exc(f) => Exc(f)
          case Ok(_) => Ok(Post(rows[0].id, rows[0].createdAt, true, text, RequesterId(meta), None, None))
  }

  /** The row `retrieve_standard_post` selects by id. */
  datatype PostRow = PostRow(createdAt: int, active: bool, text: string, authorId: int)

  /** `retrieve_standard_post`: NotFound when no row; the post carries the
      requested id and the stored fields. */
  function RetrieveStandardPost(postId: int, db: Outcome<seq<PostRow>>): (r: Outcome<Post>)
    ensures db.Exc? ==> r == Exc(db.fault)
    ensures db.Ok? && |db.value| == 0 ==> r == Exc(PostNotFound)
    ensures r.Ok? <==> db.Ok? && |db.value| > 0
    ensures r.Ok? ==> r.value == Post(postId, db.value[0].createdAt, db.value[0].active, db.value[0].text,
                                      db.value[0].authorId, None, None)
  {
    match db
    case Exc(f) => Exc(f)
    case Ok(rows) =>
      if |rows| == 0 then Exc(PostNotFound)
      else Ok(Post(postId, rows[0].createdAt, rows[0].active, rows[0].text, rows[0].authorId, None, None))
  }

  /** The remote operations the post service calls. */
  datatype Peers = Peers(retrieveStandardAccount: int -> Outcome<Account>, countLikesOfPost: int -> Outcome<int>)

  /** `retrieve_expanded_post`: the standard post, its author looked up by
      `author_id` and its like count by the post id, read in that order. */
  function RetrieveExpandedPost(postId: int, db: Outcome<seq<PostRow>>, peers: Peers): (r: Outcome<Post>)
    ensures RetrieveStandardPost(postId, db).Exc? ==> r == RetrieveStandardPost(postId, db)
    ensures r.Ok? ==> && RetrieveStandardPost(postId, db).Ok?
                      && peers.retrieveStandardAccount(db.value[0].authorId).Ok?
                      && peers.countLikesOfPost(postId).Ok?
                      && r.value == RetrieveStandardPost(postId, db).value.(
                           author := Some(peers.retrieveStandardAccount(db.value[0].authorId).value),
                           nLikes := Some(peers.countLikesOfPost(postId).value))
    ensures RetrieveStandardPost(postId, db).Ok? && peers.retrieveStandardAccount(db.value[0].authorId).Exc?
            ==> r == Exc(peers.retrieveStandardAccount(db.value[0].authorId).fault)
    ensures (RetrieveStandardPost(postId, db).Ok? && peers.retrieveStandardAccount(db.value[0].authorId).Ok?
             && peers.countLikesOfPost(postId).Exc?) ==> r == Exc(peers.countLikesOfPost(postId).fault)
  {
    match RetrieveStandardPost(postId, db)
    case Exc(f) => Exc(f)
    case Ok(post) =>
      match peers.retrieveStandardAccount(post.authorId)
      case Exc(f) => Exc(f)
      case Ok(author) =>
        match peers.countLikesOfPost(postId)
        case Exc(f) => Exc(f)
        case Ok(n) => Ok(post.(author := Some(author), nLikes := Some(n)))
  }

  /** `delete_post`: look the post up first (NotFound before anything else),
      then only its author may delete it; the deactivating update's fault, if
      any, is thrown. */
  function DeletePost(meta: RequestMetadata, postId: int, lookup: Outcome<seq<PostRow>>, update: Outcome<()>)
    : (r: Outcome<()>)
    ensures lookup.Ok? && |lookup.value| == 0 ==> r == Exc(PostNotFound)
    ensures lookup.Exc? ==> r == Exc(lookup.fault)
    ensures RetrieveStandardPost(postId, lookup).Ok?
            ==> (r == Exc(PostNotAuthorized) <==> RequesterId(meta) != lookup.value[0].authorId || update == Exc(PostNotAuthorized))
    ensures RetrieveStandardPost(postId, lookup).Ok? && RequesterId(meta) == lookup.value[0].authorId ==> r == update
  {
    match RetrieveStandardPost(postId, lookup)
    case Exc(f) => Exc(f)
    case Ok(post) =>
      if RequesterId(meta) != post.authorId then Exc(PostNotAuthorized)
      else update
  }

  /** `count_posts_by_author`: the single value of the `COUNT(*)` row. */
  function CountPostsByAuthor(db: Outcome<seq<int>>): (r: Outcome<int>)
    ensures db.Exc? ==> r == Exc(db.fault)
    ensures db.Ok? && |db.value| > 0 ==> r == Ok(db.value[0])
  {
    match db
    case Exc(f) => Exc(f)
    case Ok(rows) => if |rows| == 0 then Exc(OtherFault) else Ok(rows[0])
  }

  // ---------------------------------------------------------------------
  // list_posts

  /** A row of the listing query. */
  datatype ListRow = ListRow(id: int, createdAt: int, active: bool, text: string, authorId: int)

  /** One expanded post from a listed row: its author, then its like count. */
  function ExpandRow(peers: Peers, row: ListRow): (r: Outcome<Post>)
    ensures r.Ok? <==> peers.retrieveStandardAccount(row.authorId).Ok? && peers.countLikesOfPost(row.id).Ok?
    ensures r.Ok? ==> r.value == Post(row.id, row.createdAt, row.active, row.text, row.authorId,
                                      Some(peers.retrieveStandardAccount(row.authorId).value),
                                      Some(peers.countLikesOfPost(row.id).value))
  {
    match peers.retrieveStandardAccount(row.authorId)
    case Exc(f) => Exc(f)
    case Ok(author) =>
      match peers.countLikesOfPost(row.id)
      case Exc(f) => Exc(f)
      case Ok(n) => Ok(Post(row.id, row.createdAt, row.active, row.text, row.authorId, Some(author), Some(n)))
  }

  /** `list_posts`: the WHERE clause it queries with, and one expanded post per
      row, in row order, each with the author of its `author_id` and the like
      count of its id; the first fault in row order is thrown. */
  method ListPosts(query: PostQuery, db: Outcome<seq<ListRow>>, peers: Peers)
    returns (where: string, r: Outcome<seq<Post>>)
    ensures where == WhereClause(query)
    ensures db.Exc? ==> r == Exc(db.fault)
    ensures db.Ok? ==> (r.Ok? <==> forall i :: 0 <= i < |db.value| ==>
                          peers.retrieveStandardAccount(db.value[i].authorId).Ok? && peers.countLikesOfPost(db.value[i].id).Ok?)
    ensures r.Ok? ==> && db.Ok? && |r.value| == |db.value|
                      && forall i :: 0 <= i < |db.value| ==>
                           && r.value[i].id == db.value[i].id && r.value[i].authorId == db.value[i].authorId
                           && r.value[i].author == Some(peers.retrieveStandardAccount(db.value[i].authorId).value)
                           && r.value[i].nLikes == Some(peers.countLikesOfPost(db.value[i].id).value)
    ensures r.Ok? ==> && db.Ok? && |r.value| == |db.value|
                      && forall i :: 0 <= i < |db.value| ==> ExpandRow(peers, db.value[i]) == Ok(r.value[i])
    ensures db.Ok? && r.Exc? ==> FirstFault(row => ExpandRow(peers, row), db.value, r.fault)
  {
    where := BuildWhereClause(query);
    if db.Exc? {
      return where, Exc(db.fault);
    }
    r := Collect(row => ExpandRow(peers, row), db.value);
    if r.Ok? {
      forall i | 0 <= i < |db.value|
        ensures peers.retrieveStandardAccount(db.value[i].authorId).Ok? && peers.countLikesOfPost(db.value[i].id).Ok?
      {
        assert ExpandRow(peers, db.value[i]).Ok?;
      }
    }
  }
}
