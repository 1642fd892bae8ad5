/** The HTTP API gateway (app/apigateway/server/src/apigateway.py). Each
    route handler is a function of the request, the logged-in account (for
    routes behind `login_required`) and the outcome of the one backend call
    it makes; it gives back that call, if one was made, and the JSON body
    and status of the response. */
module Gateway {
  import opened Common
  import opened Types

  /** A JSON value. `flask.jsonify` writes an object's keys sorted, so an
      object is a map. */
  datatype Json =
    | JNull | JBool(b: bool) | JInt(i: int) | JStr(s: string)
    | JObj(obj: map<string, Json>) | JArr(items: seq<Json>)

  /** `{}`. */
  const Empty: Json := JObj(map[])

  /** The value under key `k` of an object. */
  function Field(j: Json, k: string): Option<Json> {
    if j.JObj? && k in j.obj then Some(j.obj[k]) else None
  }

  /** An HTTP request: its query arguments (`request_id` among them) and
      the JSON value of its body. */
  datatype Request = Request(args: map<string, string>, body: Json)

  /** The backend calls the gateway makes, with the arguments it passes. A
      value taken from the JSON body is passed on as it came. */
  datatype Rpc =
    | AuthenticateUser(meta: RequestMetadata, login: string, secret: string)
    | CreateAccount(meta: RequestMetadata, username: Json, password: Json, firstName: Json, lastName: Json)
    | RetrieveExpandedAccount(meta: RequestMetadata, accountId: int)
    | UpdateAccount(meta: RequestMetadata, accountId: int, password: Json, firstName: Json, lastName: Json)
    | DeleteAccount(meta: RequestMetadata, accountId: int)
    | ListAccounts(meta: RequestMetadata, accountQuery: AccountQuery, limit: int, offset: int)
    | FollowAccount(meta: RequestMetadata, followee: Json)
    | RetrieveExpandedFollow(meta: RequestMetadata, followId: int)
    | DeleteFollow(meta: RequestMetadata, followId: int)
    | ListFollows(meta: RequestMetadata, followQuery: FollowQuery, limit: int, offset: int)
    | CreatePost(meta: RequestMetadata, text: Json)
    | RetrieveExpandedPost(meta: RequestMetadata, postId: int)
    | DeletePost(meta: RequestMetadata, postId: int)
    | ListPosts(meta: RequestMetadata, postQuery: PostQuery, limit: int, offset: int)
    | LikePost(meta: RequestMetadata, likedPost: Json)
    | RetrieveExpandedLike(meta: RequestMetadata, likeId: int)
    | DeleteLike(meta: RequestMetadata, likeId: int)
    | ListLikes(meta: RequestMetadata, likeQuery: LikeQuery, limit: int, offset: int)
    | FetchTrendingHashtags(meta: RequestMetadata, limit: int)

  /** What a handler did: the backend call it made (None when it answered
      first), and the response body and status. */
  datatype Handled = Handled(call: Option<Rpc>, body: Json, status: int)

  /** An exception the handler does not catch: Flask answers 500 with its
      own error page, whose text is not modelled. */
  function ServerError(call: Option<Rpc>): Handled {
    Handled(call, JNull, 500)
  }

  /** A request without `request_id`: `flask.request.args["request_id"]`
      raises werkzeug's `BadRequestKeyError`, an HTTP exception that Flask
      answers with its 400 page (text not modelled) before any call. Under
      `login_required` it is raised inside `verify_password`, which
      flask_httpauth lets through, so those routes answer the same. */
  function BadRequest(): Handled {
    Handled(None, JNull, 400)
  }

  // ---------------------------------------------------------------------
  // Query arguments

  /** The white space Python's `int` strips: the characters for which
      `str.isspace` holds, wider than C's `isspace`. */
  predicate PyIsSpace(c: char) {
    || c == ' ' || '\t' <= c <= '\r' || '\U{1C}' <= c <= '\U{1F}' || c == '\U{85}' || c == '\U{A0}'
    || c == '\U{1680}' || '\U{2000}' <= c <= '\U{200A}' || c == '\U{2028}' || c == '\U{2029}'
    || c == '\U{202F}' || c == '\U{205F}' || c == '\U{3000}'
  }

  /** Number of leading characters of `s` satisfying PyIsSpace. */
  function PyLeadingSpaces(s: string): (k: nat)
    ensures k <= |s| && forall i :: 0 <= i < k ==> PyIsSpace(s[i])
    ensures k < |s| ==> !PyIsSpace(s[k])
  {
    if |s| > 0 && PyIsSpace(s[0]) then 1 + PyLeadingSpaces(s[1..]) else 0
  }

  /** Python `int(s)`: optional surrounding white space, an optional sign
      and at least one decimal digit; None for the `ValueError`. */
  function PyInt(s: string): (r: Option<int>)
    ensures r.Some? ==> exists i :: 0 <= i < |s| && IsDigit(s[i])
  {
    var k := PyLeadingSpaces(s);
    var r := PyIntTrimmed(s[k..]);
    assert r.Some? ==> IsDigit(s[k..][r.value.1]);
    if r.Some? then Some(r.value.0) else None
  }

  /** `int` after the leading white space: the value and the index of a
      digit of it. */
  function PyIntTrimmed(t: string): (r: Option<(int, nat)>)
    ensures r.Some? ==> r.value.1 < |t| && IsDigit(t[r.value.1])
  {
    var signLen := if |t| > 0 && (t[0] == '-' || t[0] == '+') then 1 else 0;
    var d := t[signLen..];
    var k := LeadingDigits(d);
    if k == 0 || exists i :: k <= i < |d| && !PyIsSpace(d[i]) then None
    else if signLen == 1 && t[0] == '-' then Some((-(DigitsValue(d[..k]) as int), signLen))
    else Some((DigitsValue(d[..k]), signLen))
  }

  /** White space before the number does not change what `int` reads. */
  lemma PyIntSkipsSpace(c: char, s: string)
    requires PyIsSpace(c)
    ensures PyInt([c] + s) == PyInt(s)
  {
    assert ([c] + s)[1..] == s;
    assert PyLeadingSpaces([c] + s) == 1 + PyLeadingSpaces(s);
    assert ([c] + s)[1 + PyLeadingSpaces(s)..] == s[PyLeadingSpaces(s)..];
  }

  /** `int` reads back every integer `str` writes, without the 32-bit bound
      of `std::stoi`. */
  lemma PyIntOfIntToString(i: int)
    ensures PyInt(IntToString(i)) == Some(i)
  {
    var s := IntToString(i);
    var digits := NatToDigits(if i < 0 then -i else i);
    DigitsValueOfNatToDigits(if i < 0 then -i else i);
    LeadingDigitsOfAllDigits(digits);
    assert PyLeadingSpaces(s) == 0;
    if i < 0 {
      assert s[0..][1..] == digits;
      assert digits[..|digits|] == digits;
    } else {
      assert s[0..] == digits;
      assert IsDigit(digits[0]);
      assert digits[0..] == digits;
      assert digits[..|digits|] == digits;
    }
  }

  /** `int(args[k]) if k in args else default`; None for a `ValueError`. */
  function IntArg(args: map<string, string>, k: string, default: int): (r: Option<int>)
    ensures k !in args ==> r == Some(default)
  {
    if k in args then PyInt(args[k]) else Some(default)
  }

  /** `int(args[k]) if k in args else None`; None for a `ValueError`. */
  function OptIntArg(args: map<string, string>, k: string): (r: Option<Option<int>>)
    ensures k !in args ==> r == Some(None)
  {
    if k in args then (match PyInt(args[k]) case None => None case Some(i) => Some(Some(i))) else Some(None)
  }

  // ---------------------------------------------------------------------
  // Projections

  /** An account in standard mode. */
  function StandardAccountJson(a: Account): (j: Json)
    ensures Field(j, "object") == Some(JStr("account")) && Field(j, "mode") == Some(JStr("standard"))
    ensures j.JObj? && j.obj.Keys == StandardAccountKeys()
  {
    JObj(map["object" := JStr("account"), "mode" := JStr("standard"), "id" := JInt(a.id),
             "created_at" := JInt(a.createdAt), "active" := JBool(a.active), "username" := JStr(a.username),
             "first_name" := JStr(a.firstName), "last_name" := JStr(a.lastName)])
  }

  function StandardAccountKeys(): set<string> {
    {"object", "mode", "id", "created_at", "active", "username", "first_name", "last_name"}
  }

  /** Reference reading of the standard fields of an account object. */
  function AccountOfJson(j: Json): Option<Account> {
    match (Field(j, "id"), Field(j, "created_at"), Field(j, "active"), Field(j, "username"),
           Field(j, "first_name"), Field(j, "last_name"))
    case (Some(JInt(id)), Some(JInt(c)), Some(JBool(act)), Some(JStr(u)), Some(JStr(f)), Some(JStr(l))) =>
      Some(Account(id, c, act, u, f, l, None))
    case _ => None
  }

  /** The standard projection keeps every standard field of the account. */
  lemma StandardAccountJsonReadsBack(a: Account)
    ensures AccountOfJson(StandardAccountJson(a)) == Some(a.(activity := None))
  {
  }

  function OptBool(b: Option<bool>): Json {
    match b case None => JNull case Some(x) => JBool(x)
  }

  function OptInt(i: Option<int>): Json {
    match i case None => JNull case Some(x) => JInt(x)
  }

  /** An account in expanded mode: the standard fields, with mode
      "expanded", and the six activity fields. */
  function ExpandedAccountJson(a: Account): (j: Json)
    ensures Field(j, "object") == Some(JStr("account")) && Field(j, "mode") == Some(JStr("expanded"))
    ensures a.activity.Some? ==> && Field(j, "follows_you") == Some(JBool(a.activity.value.followsYou))
                                 && Field(j, "n_likes") == Some(JInt(a.activity.value.nLikes))
    ensures a.activity.None? ==> Field(j, "follows_you") == Some(JNull) && Field(j, "n_likes") == Some(JNull)
  {
    var act := a.activity;
    JObj(StandardAccountJson(a).obj["mode" := JStr("expanded")]
           ["follows_you" := OptBool(if act.Some? then Some(act.value.followsYou) else None)]
           ["followed_by_you" := OptBool(if act.Some? then Some(act.value.followedByYou) else None)]
           ["n_followers" := OptInt(if act.Some? then Some(act.value.nFollowers) else None)]
           ["n_following" := OptInt(if act.Some? then Some(act.value.nFollowing) else None)]
           ["n_posts" := OptInt(if act.Some? then Some(act.value.nPosts) else None)]
           ["n_likes" := OptInt(if act.Some? then Some(act.value.nLikes) else None)])
  }

  /** The expanded projection keeps every standard field of the account. */
  lemma ExpandedAccountJsonReadsBack(a: Account)
    ensures AccountOfJson(ExpandedAccountJson(a)) == Some(a.(activity := None))
  {
    var j := ExpandedAccountJson(a);
    assert Field(j, "id") == Some(JInt(a.id));
    assert Field(j, "created_at") == Some(JInt(a.createdAt));
    assert Field(j, "active") == Some(JBool(a.active));
    assert Field(j, "username") == Some(JStr(a.username));
    assert Field(j, "first_name") == Some(JStr(a.firstName));
    assert Field(j, "last_name") == Some(JStr(a.lastName));
  }

  /** A post in standard mode. */
  function StandardPostJson(p: Post): (j: Json)
    ensures Field(j, "object") == Some(JStr("post")) && Field(j, "mode") == Some(JStr("standard"))
    ensures Field(j, "text") == Some(JStr(p.text)) && Field(j, "author_id") == Some(JInt(p.authorId))
    ensures Field(j, "author") == None
  {
    JObj(map["object" := JStr("post"), "mode" := JStr("standard"), "id" := JInt(p.id),
             "created_at" := JInt(p.createdAt), "active" := JBool(p.active), "text" := JStr(p.text),
             "author_id" := JInt(p.authorId)])
  }

  /** A post in expanded mode, with its author in standard mode; None for
      the `AttributeError` of a post whose author is unset. */
  function ExpandedPostJson(p: Post): (r: Option<Json>)
    ensures r.Some? <==> p.author.Some?
    ensures r.Some? ==> && Field(r.value, "object") == Some(JStr("post"))
                        && Field(r.value, "mode") == Some(JStr("expanded"))
                        && Field(r.value, "text") == Some(JStr(p.text))
                        && Field(r.value, "author") == Some(StandardAccountJson(p.author.value))
                        && Field(r.value, "n_likes") == Some(OptInt(p.nLikes))
  {
    match p.author
    case None => None
    case Some(author) =>
      Some(JObj(map["object" := JStr("post"), "mode" := JStr("expanded"), "id" := JInt(p.id),
                    "created_at" := JInt(p.createdAt), "active" := JBool(p.active), "text" := JStr(p.text),
                    "author_id" := JInt(p.authorId), "author" := StandardAccountJson(author),
                    "n_likes" := OptInt(p.nLikes)]))
  }

  /** A follow in standard mode. */
  function StandardFollowJson(f: Follow): (j: Json)
    ensures Field(j, "object") == Some(JStr("follow")) && Field(j, "mode") == Some(JStr("standard"))
    ensures Field(j, "follower_id") == Some(JInt(f.followerId)) && Field(j, "followee_id") == Some(JInt(f.followeeId))
  {
    JObj(map["object" := JStr("follow"), "mode" := JStr("standard"), "id" := JInt(f.id),
             "created_at" := JInt(f.createdAt), "follower_id" := JInt(f.followerId),
             "followee_id" := JInt(f.followeeId)])
  }

  /** A follow in expanded mode, with both accounts in standard mode; None
      when either account is unset. */
  function ExpandedFollowJson(f: Follow): (r: Option<Json>)
    ensures r.Some? <==> f.follower.Some? && f.followee.Some?
    ensures r.Some? ==> && Field(r.value, "mode") == Some(JStr("expanded"))
                        && Field(r.value, "follower_id") == Some(JInt(f.followerId))
                        && Field(r.value, "follower") == Some(StandardAccountJson(f.follower.value))
                        && Field(r.value, "followee") == Some(StandardAccountJson(f.followee.value))
  {
    match (f.follower, f.followee)
    case (Some(follower), Some(followee)) =>
      Some(JObj(map["object" := JStr("follow"), "mode" := JStr("expanded"), "id" := JInt(f.id),
                    "created_at" := JInt(f.createdAt), "follower_id" := JInt(f.followerId),
                    "followee_id" := JInt(f.followeeId), "follower" := StandardAccountJson(follower),
                    "followee" := StandardAccountJson(followee)]))
    case _ => None
  }

  /** A like in standard mode. */
  function StandardLikeJson(l: Like): (j: Json)
    ensures Field(j, "object") == Some(JStr("like")) && Field(j, "mode") == Some(JStr("standard"))
    ensures Field(j, "account_id") == Some(JInt(l.accountId)) && Field(j, "post_id") == Some(JInt(l.postId))
  {
    JObj(map["object" := JStr("like"), "mode" := JStr("standard"), "id" := JInt(l.id),
             "created_at" := JInt(l.createdAt), "account_id" := JInt(l.accountId), "post_id" := JInt(l.postId)])
  }

  /** A like in expanded mode: its account in standard mode and its post in
      expanded mode, whose author is in standard mode; None when any of
      them is unset. */
  function ExpandedLikeJson(l: Like): (r: Option<Json>)
    ensures r.Some? <==> l.account.Some? && l.post.Some? && l.post.value.author.Some?
    ensures r.Some? ==> && Field(r.value, "mode") == Some(JStr("expanded"))
                        && Field(r.value, "account") == Some(StandardAccountJson(l.account.value))
                        && Field(r.value, "post") == ExpandedPostJson(l.post.value)
  {
    match (l.account, l.post)
    case (Some(account), Some(post)) =>
      (match ExpandedPostJson(post)
       case None => None
       case Some(pj) =>
         Some(JObj(map["object" := JStr("like"), "mode" := JStr("expanded"), "id" := JInt(l.id),
                       "created_at" := JInt(l.createdAt), "account_id" := JInt(l.accountId),
                       "post_id" := JInt(l.postId), "account" := StandardAccountJson(account), "post" := pj])))
    case _ => None
  }

  /** `flask.jsonify([... for x in xs])`; None when one item raises. */
  function JsonList<T>(render: T -> Option<Json>, xs: seq<T>): (r: Option<Json>)
    ensures r.Some? <==> forall i :: 0 <= i < |xs| ==> render(xs[i]).Some?
    ensures r.Some? ==> r.value.JArr? && |r.value.items| == |xs|
                        && forall i :: 0 <= i < |xs| ==> r.value.items[i] == render(xs[i]).value
  {
    MapAllFails(render, xs);
    match MapAll(render, xs)
    case None => None
    case Some(items) => Some(JArr(items))
  }

  // ---------------------------------------------------------------------
  // Exception tables

  /** Each route's mapping from a caught backend exception to a status;
      an exception outside the table reaches Flask as a 500. */
  function CreateAccountErrors(): map<Fault, int> {
    map[AccountInvalidAttributes := 400, AccountUsernameAlreadyExists := 400]
  }
  function RetrieveAccountErrors(): map<Fault, int> { map[AccountNotFound := 404] }
  function UpdateAccountErrors(): map<Fault, int> {
    map[AccountInvalidAttributes := 400, AccountNotAuthorized := 403, AccountNotFound := 404]
  }
  function DeleteAccountErrors(): map<Fault, int> { map[AccountNotAuthorized := 403, AccountNotFound := 404] }
  function NoErrors(): map<Fault, int> { map[] }
  function FollowAccountErrors(): map<Fault, int> { map[FollowAlreadyExists := 400] }
  function RetrieveFollowErrors(): map<Fault, int> { map[FollowNotFound := 404] }
  function DeleteFollowErrors(): map<Fault, int> { map[FollowNotAuthorized := 403, FollowNotFound := 404] }
  function ListFollowsErrors(): map<Fault, int> { map[AccountNotFound := 400] }
  function CreatePostErrors(): map<Fault, int> { map[PostInvalidAttributes := 400] }
  function RetrievePostErrors(): map<Fault, int> { map[PostNotFound := 404] }
  function DeletePostErrors(): map<Fault, int> { map[PostNotAuthorized := 403, PostNotFound := 404] }
  function ListPostsErrors(): map<Fault, int> { map[AccountNotFound := 400] }
  function LikePostErrors(): map<Fault, int> { map[LikeAlreadyExists := 400] }
  function RetrieveLikeErrors(): map<Fault, int> { map[LikeNotFound := 404] }
  function DeleteLikeErrors(): map<Fault, int> { map[LikeNotAuthorized := 403, LikeNotFound := 404] }
  function ListLikesErrors(): map<Fault, int> { map[AccountNotFound := 400, PostNotFound := 400] }

  /** The reference outcome of a call that was made: a fault in the table
      gives `({}, status)`, any other fault a 500; a result gives its
      rendering with 200, or a 500 when rendering raises. */
  ghost predicate Answered<T>(h: Handled, call: Rpc, reply: Outcome<T>, table: map<Fault, int>, render: T -> Option<Json>) {
    && h.call == Some(call)
    && (reply.Exc? && reply.fault in table ==> h.body == Empty && h.status == table[reply.fault])
    && (reply.Exc? && reply.fault !in table ==> h == ServerError(Some(call)))
    && (reply.Ok? && render(reply.value).Some? ==> h.body == render(reply.value).value && h.status == 200)
    && (reply.Ok? && render(reply.value).None? ==> h == ServerError(Some(call)))
  }

  /** `{}` for a call without a result. */
  function EmptyBody(u: ()): Option<Json> { Some(Empty) }

  /** Whether the body is an object with every key of `ks`; a body that is
      not an object raises `TypeError`, a missing key the caught `KeyError`. */
  predicate HasKeys(body: Json, ks: set<string>) {
    body.JObj? && ks <= body.obj.Keys
  }

  /** The metadata of an anonymous route: the request id only. */
  function AnonMeta(req: Request): RequestMetadata
    requires "request_id" in req.args
  {
    RequestMetadata(req.args["request_id"], None)
  }

  /** The metadata of a `login_required` route: the request id and the id
      of `auth.current_user()`. */
  function UserMeta(req: Request, user: Account): RequestMetadata
    requires "request_id" in req.args
  {
    RequestMetadata(req.args["request_id"], Some(user.id))
  }

  /** flask_httpauth's answer when `verify_password` gave no account: its
      default 401 page, before the route runs. */
  function Unauthorized(): Handled {
    Handled(None, JStr("Unauthorized Access"), 401)
  }

  // ---------------------------------------------------------------------
  // Authentication

  /** `verify_password`: ask the account service to authenticate; any
      exception from the call means no account. A request without
      `request_id` raises before the call (None). */
  function VerifyPassword(req: Request, username: string, password: string, reply: Outcome<Account>)
    : (r: Option<(Rpc, Option<Account>)>)
    ensures r.Some? <==> "request_id" in req.args
    ensures r.Some? ==> r.value.0 == AuthenticateUser(AnonMeta(req), username, password)
    ensures r.Some? ==> (r.value.1.Some? <==> reply.Ok?)
    ensures r.Some? && reply.Ok? ==> r.value.1 == Some(reply.value)
  {
    if "request_id" !in req.args then None
    else
      var call := AuthenticateUser(RequestMetadata(req.args["request_id"], None), username, password);
      match reply
      case Ok(account) => Some((call, Some(account)))
      case Exc(_) => Some((call, None))
  }

  // ---------------------------------------------------------------------
  // Account routes
  //
  // The ids in a route's path are `nat`: werkzeug's `<int:...>` converter
  // matches unsigned digits only, so a negative id is a routing 404 that
  // never reaches the handler.

  /** `POST /account`. */
  function PostAccount(req: Request, reply: Outcome<Account>): (h: Handled)
    ensures "request_id" !in req.args ==> h == BadRequest()
    ensures "request_id" in req.args && !req.body.JObj? ==> h == ServerError(None)
    ensures "request_id" in req.args && req.body.JObj? && !HasKeys(req.body, {"username", "password", "first_name", "last_name"})
            ==> h == Handled(None, Empty, 400)
    ensures "request_id" in req.args && HasKeys(req.body, {"username", "password", "first_name", "last_name"}) ==>
      Answered(h, CreateAccount(AnonMeta(req), req.body.obj["username"], req.body.obj["password"],
                                req.body.obj["first_name"], req.body.obj["last_name"]),
               reply, CreateAccountErrors(), a => Some(StandardAccountJson(a)))
  {
    if "request_id" !in req.args then BadRequest()
    else if !req.body.JObj? then ServerError(None)
    else
      var params := req.body.obj;
      if "username" !in params || "password" !in params || "first_name" !in params || "last_name" !in params then
        Handled(None, Empty, 400)
      else
        var call := Some(CreateAccount(RequestMetadata(req.args["request_id"], None), params["username"],
                                       params["password"], params["first_name"], params["last_name"]));
        match reply
        case Exc(AccountInvalidAttributes) => Handled(call, Empty, 400)
        case Exc(AccountUsernameAlreadyExists) => Handled(call, Empty, 400)
        case Exc(_) => ServerError(call)
        case Ok(account) => Handled(call, StandardAccountJson(account), 200)
  }

  /** `GET /account/<account_id>`. */
  function GetAccount(req: Request, accountId: nat, reply: Outcome<Account>): (h: Handled)
    ensures "request_id" !in req.args ==> h == BadRequest()
    ensures "request_id" in req.args ==>
      Answered(h, RetrieveExpandedAccount(AnonMeta(req), accountId), reply, RetrieveAccountErrors(),
               a => Some(ExpandedAccountJson(a)))
  {
    if "request_id" !in req.args then BadRequest()
    else
      var call := Some(RetrieveExpandedAccount(RequestMetadata(req.args["request_id"], None), accountId));
      match reply
      case Exc(AccountNotFound) => Handled(call, Empty, 404)
      case Exc(_) => ServerError(call)
      case Ok(account) => Handled(call, ExpandedAccountJson(account), 200)
  }

  /** `PUT /account/<account_id>`, behind `login_required`; `user` is what
      `verify_password` gave. */
  function PutAccount(req: Request, user: Option<Account>, accountId: nat, reply: Outcome<Account>): (h: Handled)
    ensures "request_id" !in req.args ==> h == BadRequest()
    ensures "request_id" in req.args && user.None? ==> h == Unauthorized()
    ensures "request_id" in req.args && user.Some? && !req.body.JObj? ==> h == ServerError(None)
    ensures ("request_id" in req.args && user.Some? && req.body.JObj?
             && !HasKeys(req.body, {"password", "first_name", "last_name"})) ==> h == Handled(None, Empty, 400)
    ensures "request_id" in req.args && user.Some? && HasKeys(req.body, {"password", "first_name", "last_name"}) ==>
      Answered(h, UpdateAccount(UserMeta(req, user.value), accountId, req.body.obj["password"],
                                req.body.obj["first_name"], req.body.obj["last_name"]),
               reply, UpdateAccountErrors(), a => Some(StandardAccountJson(a)))
  {
    if "request_id" !in req.args then BadRequest()
    else if user.None? then Unauthorized()
    else if !req.body.JObj? then ServerError(None)
    else
      var params := req.body.obj;
      if "password" !in params || "first_name" !in params || "last_name" !in params then
        Handled(None, Empty, 400)
      else
        var call := Some(UpdateAccount(RequestMetadata(req.args["request_id"], Some(user.value.id)), accountId,
                                       params["password"], params["first_name"], params["last_name"]));
        match reply
        case Exc(AccountInvalidAttributes) => Handled(call, Empty, 400)
        case Exc(AccountNotAuthorized) => Handled(call, Empty, 403)
        case Exc(AccountNotFound) => Handled(call, Empty, 404)
        case Exc(_) => ServerError(call)
        case Ok(account) => Handled(call, StandardAccountJson(account), 200)
  }

  /** `DELETE /account/<account_id>`, behind `login_required`. */
  function DelAccount(req: Request, user: Option<Account>, accountId: nat, reply: Outcome<()>): (h: Handled)
    ensures "request_id" !in req.args ==> h == BadRequest()
    ensures "request_id" in req.args && user.None? ==> h == Unauthorized()
    ensures "request_id" in req.args && user.Some? ==>
      Answered(h, DeleteAccount(UserMeta(req, user.value), accountId), reply, DeleteAccountErrors(), EmptyBody)
  {
    if "request_id" !in req.args then BadRequest()
    else if user.None? then Unauthorized()
    else
      var call := Some(DeleteAccount(RequestMetadata(req.args["request_id"], Some(user.value.id)), accountId));
      match reply
      case Exc(AccountNotAuthorized) => Handled(call, Empty, 403)
      case Exc(AccountNotFound) => Handled(call, Empty, 404)
      case Exc(_) => ServerError(call)
      case Ok(_) => Handled(call, Empty, 200)
  }

  /** `GET /account`: 32 results from offset 0 unless the arguments say
      otherwise, filtered by `username` when given; no exception is caught. */
  function GetAccounts(req: Request, reply: Outcome<seq<Account>>): (h: Handled)
    ensures "request_id" !in req.args ==> h == BadRequest()
    ensures ("request_id" in req.args && (IntArg(req.args, "limit", 32).None?
             || IntArg(req.args, "offset", 0).None?)) ==> h == ServerError(None)
    ensures ("request_id" in req.args && IntArg(req.args, "limit", 32).Some?
             && IntArg(req.args, "offset", 0).Some?) ==>
      Answered(h, ListAccounts(AnonMeta(req), AccountQuery(Lookup(req.args, "username")),
                               IntArg(req.args, "limit", 32).value, IntArg(req.args, "offset", 0).value),
               reply, NoErrors(), accounts => JsonList(a => Some(ExpandedAccountJson(a)), accounts))
  {
    if "request_id" !in req.args then BadRequest()
    else
      var limit := IntArg(req.args, "limit", 32);
      var offset := IntArg(req.args, "offset", 0);
      if limit.None? || offset.None? then ServerError(None)
      else
        var query := AccountQuery(if "username" in req.args then Some(req.args["username"]) else None);
        var call := Some(ListAccounts(RequestMetadata(req.args["request_id"], None), query, limit.value, offset.value));
        match reply
        case Exc(_) => ServerError(call)
        case Ok(accounts) =>
          match JsonList(a => Some(ExpandedAccountJson(a)), accounts)
          case None => ServerError(call)
          case Some(j) => Handled(call, j, 200)
  }

  // ---------------------------------------------------------------------
  // Follow routes

  /** `POST /follow`, behind `login_required`. */
  function PostFollow(req: Request, user: Option<Account>, reply: Outcome<Follow>): (h: Handled)
    ensures "request_id" !in req.args ==> h == BadRequest()
    ensures "request_id" in req.args && user.None? ==> h == Unauthorized()
    ensures "request_id" in req.args && user.Some? && !req.body.JObj? ==> h == ServerError(None)
    ensures "request_id" in req.args && user.Some? && req.body.JObj? && !HasKeys(req.body, {"account_id"})
            ==> h == Handled(None, Empty, 400)
    ensures "request_id" in req.args && user.Some? && HasKeys(req.body, {"account_id"}) ==>
      Answered(h, FollowAccount(UserMeta(req, user.value), req.body.obj["account_id"]), reply,
               FollowAccountErrors(), f => Some(StandardFollowJson(f)))
  {
    if "request_id" !in req.args then BadRequest()
    else if user.None? then Unauthorized()
    else if !req.body.JObj? then ServerError(None)
    else if "account_id" !in req.body.obj then Handled(None, Empty, 400)
    else
      var call := Some(FollowAccount(RequestMetadata(req.args["request_id"], Some(user.value.id)),
                                     req.body.obj["account_id"]));
      match reply
      case Exc(FollowAlreadyExists) => Handled(call, Empty, 400)
      case Exc(_) => ServerError(call)
      case Ok(follow) => Handled(call, StandardFollowJson(follow), 200)
  }

  /** `GET /follow/<follow_id>`. */
  function GetFollow(req: Request, followId: nat, reply: Outcome<Follow>): (h: Handled)
    ensures "request_id" !in req.args ==> h == BadRequest()
    ensures "request_id" in req.args ==>
      Answered(h, RetrieveExpandedFollow(AnonMeta(req), followId), reply, RetrieveFollowErrors(), ExpandedFollowJson)
  {
    if "request_id" !in req.args then BadRequest()
    else
      var call := Some(RetrieveExpandedFollow(RequestMetadata(req.args["request_id"], None), followId));
      match reply
      case Exc(FollowNotFound) => Handled(call, Empty, 404)
      case Exc(_) => ServerError(call)
      case Ok(follow) =>
        match ExpandedFollowJson(follow)
        case None => ServerError(call)
        case Some(j) => Handled(call, j, 200)
  }

  /** `DELETE /follow/<follow_id>`, behind `login_required`. */
  function DelFollow(req: Request, user: Option<Account>, followId: nat, reply: Outcome<()>): (h: Handled)
    ensures "request_id" !in req.args ==> h == BadRequest()
    ensures "request_id" in req.args && user.None? ==> h == Unauthorized()
    ensures "request_id" in req.args && user.Some? ==>
      Answered(h, DeleteFollow(UserMeta(req, user.value), followId), reply, DeleteFollowErrors(), EmptyBody)
  {
    if "request_id" !in req.args then BadRequest()
    else if user.None? then Unauthorized()
    else
      var call := Some(DeleteFollow(RequestMetadata(req.args["request_id"], Some(user.value.id)), followId));
      match reply
      case Exc(FollowNotAuthorized) => Handled(call, Empty, 403)
      case Exc(FollowNotFound) => Handled(call, Empty, 404)
      case Exc(_) => ServerError(call)
      case Ok(_) => Handled(call, Empty, 200)
  }

  /** `GET /follow`. */
  function GetFollows(req: Request, reply: Outcome<seq<Follow>>): (h: Handled)
    ensures "request_id" !in req.args ==> h == BadRequest()
    ensures ("request_id" in req.args && (|| IntArg(req.args, "limit", 32).None? || IntArg(req.args, "offset", 0).None?
             || OptIntArg(req.args, "follower_id").None? || OptIntArg(req.args, "followee_id").None?))
            ==> h == ServerError(None)
    ensures (&& "request_id" in req.args
             && IntArg(req.args, "limit", 32).Some? && IntArg(req.args, "offset", 0).Some?
             && OptIntArg(req.args, "follower_id").Some? && OptIntArg(req.args, "followee_id").Some?) ==>
      Answered(h, ListFollows(AnonMeta(req), FollowQuery(OptIntArg(req.args, "follower_id").value,
                                                         OptIntArg(req.args, "followee_id").value),
                              IntArg(req.args, "limit", 32).value, IntArg(req.args, "offset", 0).value),
               reply, ListFollowsErrors(), follows => JsonList(ExpandedFollowJson, follows))
  {
    if "request_id" !in req.args then BadRequest()
    else
      var limit := IntArg(req.args, "limit", 32);
      var offset := IntArg(req.args, "offset", 0);
      var followerId := OptIntArg(req.args, "follower_id");
      var followeeId := OptIntArg(req.args, "followee_id");
      if limit.None? || offset.None? || followerId.None? || followeeId.None? then ServerError(None)
      else
        var call := Some(ListFollows(RequestMetadata(req.args["request_id"], None),
                                     FollowQuery(followerId.value, followeeId.value), limit.value, offset.value));
        match reply
        case Exc(AccountNotFound) => Handled(call, Empty, 400)
        case Exc(_) => ServerError(call)
        case Ok(follows) =>
          match JsonList(ExpandedFollowJson, follows)
          case None => ServerError(call)
          case Some(j) => Handled(call, j, 200)
  }

  // ---------------------------------------------------------------------
  // Post routes

  /** `POST /post`, behind `login_required`. */
  function PostPost(req: Request, user: Option<Account>, reply: Outcome<Post>): (h: Handled)
    ensures "request_id" !in req.args ==> h == BadRequest()
    ensures "request_id" in req.args && user.None? ==> h == Unauthorized()
    ensures "request_id" in req.args && user.Some? && !req.body.JObj? ==> h == ServerError(None)
    ensures "request_id" in req.args && user.Some? && req.body.JObj? && !HasKeys(req.body, {"text"})
            ==> h == Handled(None, Empty, 400)
    ensures "request_id" in req.args && user.Some? && HasKeys(req.body, {"text"}) ==>
      Answered(h, CreatePost(UserMeta(req, user.value), req.body.obj["text"]), reply,
               CreatePostErrors(), p => Some(StandardPostJson(p)))
  {
    if "request_id" !in req.args then BadRequest()
    else if user.None? then Unauthorized()
    else if !req.body.JObj? then ServerError(None)
    else if "text" !in req.body.obj then Handled(None, Empty, 400)
    else
      var call := Some(CreatePost(RequestMetadata(req.args["request_id"], Some(user.value.id)), req.body.obj["text"]));
      match reply
      case Exc(PostInvalidAttributes) => Handled(call, Empty, 400)
      case Exc(_) => ServerError(call)
      case Ok(post) => Handled(call, StandardPostJson(post), 200)
  }

  /** `GET /post/<post_id>`. */
  function GetPost(req: Request, postId: nat, reply: Outcome<Post>): (h: Handled)
    ensures "request_id" !in req.args ==> h == BadRequest()
    ensures "request_id" in req.args ==>
      Answered(h, RetrieveExpandedPost(AnonMeta(req), postId), reply, RetrievePostErrors(), ExpandedPostJson)
  {
    if "request_id" !in req.args then BadRequest()
    else
      var call := Some(RetrieveExpandedPost(RequestMetadata(req.args["request_id"], None), postId));
      match reply
      case Exc(PostNotFound) => Handled(call, Empty, 404)
      case Exc(_) => ServerError(call)
      case Ok(post) =>
        match ExpandedPostJson(post)
        case None => ServerError(call)
        case Some(j) => Handled(call, j, 200)
  }

  /** `DELETE /post/<post_id>`, behind `login_required`. */
  function DelPost(req: Request, user: Option<Account>, postId: nat, reply: Outcome<()>): (h: Handled)
    ensures "request_id" !in req.args ==> h == BadRequest()
    ensures "request_id" in req.args && user.None? ==> h == Unauthorized()
    ensures "request_id" in req.args && user.Some? ==>
      Answered(h, DeletePost(UserMeta(req, user.value), postId), reply, DeletePostErrors(), EmptyBody)
  {
    if "request_id" !in req.args then BadRequest()
    else if user.None? then Unauthorized()
    else
      var call := Some(DeletePost(RequestMetadata(req.args["request_id"], Some(user.value.id)), postId));
      match reply
      case Exc(PostNotAuthorized) => Handled(call, Empty, 403)
      case Exc(PostNotFound) => Handled(call, Empty, 404)
      case Exc(_) => ServerError(call)
      case Ok(_) => Handled(call, Empty, 200)
  }

  /** `GET /post`. */
  function GetPosts(req: Request, reply: Outcome<seq<Post>>): (h: Handled)
    ensures "request_id" !in req.args ==> h == BadRequest()
    ensures ("request_id" in req.args && (|| IntArg(req.args, "limit", 32).None? || IntArg(req.args, "offset", 0).None?
             || OptIntArg(req.args, "author_id").None?)) ==> h == ServerError(None)
    ensures (&& "request_id" in req.args
             && IntArg(req.args, "limit", 32).Some? && IntArg(req.args, "offset", 0).Some?
             && OptIntArg(req.args, "author_id").Some?) ==>
      Answered(h, ListPosts(AnonMeta(req), PostQuery(OptIntArg(req.args, "author_id").value),
                            IntArg(req.args, "limit", 32).value, IntArg(req.args, "offset", 0).value),
               reply, ListPostsErrors(), posts => JsonList(ExpandedPostJson, posts))
  {
    if "request_id" !in req.args then BadRequest()
    else
      var limit := IntArg(req.args, "limit", 32);
      var offset := IntArg(req.args, "offset", 0);
      var authorId := OptIntArg(req.args, "author_id");
      if limit.None? || offset.None? || authorId.None? then ServerError(None)
      else
        var call := Some(ListPosts(RequestMetadata(req.args["request_id"], None), PostQuery(authorId.value),
                                   limit.value, offset.value));
        match reply
        case Exc(AccountNotFound) => Handled(call, Empty, 400)
        case Exc(_) => ServerError(call)
        case Ok(posts) =>
          match JsonList(ExpandedPostJson, posts)
          case None => ServerError(call)
          case Some(j) => Handled(call, j, 200)
  }

  // ---------------------------------------------------------------------
  // Like routes

  /** `POST /like`, behind `login_required`. */
  function PostLike(req: Request, user: Option<Account>, reply: Outcome<Like>): (h: Handled)
    ensures "request_id" !in req.args ==> h == BadRequest()
    ensures "request_id" in req.args && user.None? ==> h == Unauthorized()
    ensures "request_id" in req.args && user.Some? && !req.body.JObj? ==> h == ServerError(None)
    ensures "request_id" in req.args && user.Some? && req.body.JObj? && !HasKeys(req.body, {"post_id"})
            ==> h == Handled(None, Empty, 400)
    ensures "request_id" in req.args && user.Some? && HasKeys(req.body, {"post_id"}) ==>
      Answered(h, LikePost(UserMeta(req, user.value), req.body.obj["post_id"]), reply,
               LikePostErrors(), l => Some(StandardLikeJson(l)))
  {
    if "request_id" !in req.args then BadRequest()
    else if user.None? then Unauthorized()
    else if !req.body.JObj? then ServerError(None)
    else if "post_id" !in req.body.obj then Handled(None, Empty, 400)
    else
      var call := Some(LikePost(RequestMetadata(req.args["request_id"], Some(user.value.id)), req.body.obj["post_id"]));
      match reply
      case Exc(LikeAlreadyExists) => Handled(call, Empty, 400)
      case Exc(_) => ServerError(call)
      case Ok(like) => Handled(call, StandardLikeJson(like), 200)
  }

  /** `GET /like/<like_id>`. */
  function GetLike(req: Request, likeId: nat, reply: Outcome<Like>): (h: Handled)
    ensures "request_id" !in req.args ==> h == BadRequest()
    ensures "request_id" in req.args ==>
      Answered(h, RetrieveExpandedLike(AnonMeta(req), likeId), reply, RetrieveLikeErrors(), ExpandedLikeJson)
  {
    if "request_id" !in req.args then BadRequest()
    else
      var call := Some(RetrieveExpandedLike(RequestMetadata(req.args["request_id"], None), likeId));
      match reply
      case Exc(LikeNotFound) => Handled(call, Empty, 404)
      case Exc(_) => ServerError(call)
      case Ok(like) =>
        match ExpandedLikeJson(like)
        case None => ServerError(call)
        case Some(j) => Handled(call, j, 200)
  }

  /** `DELETE /like/<like_id>`, behind `login_required`. */
  function DelLike(req: Request, user: Option<Account>, likeId: nat, reply: Outcome<()>): (h: Handled)
    ensures "request_id" !in req.args ==> h == BadRequest()
    ensures "request_id" in req.args && user.None? ==> h == Unauthorized()
    ensures "request_id" in req.args && user.Some? ==>
      Answered(h, DeleteLike(UserMeta(req, user.value), likeId), reply, DeleteLikeErrors(), EmptyBody)
  {
    if "request_id" !in req.args then BadRequest()
    else if user.None? then Unauthorized()
    else
      var call := Some(DeleteLike(RequestMetadata(req.args["request_id"], Some(user.value.id)), likeId));
      match reply
      case Exc(LikeNotAuthorized) => Handled(call, Empty, 403)
      case Exc(LikeNotFound) => Handled(call, Empty, 404)
      case Exc(_) => ServerError(call)
      case Ok(_) => Handled(call, Empty, 200)
  }

  /** `GET /like`. */
  function GetLikes(req: Request, reply: Outcome<seq<Like>>): (h: Handled)
    ensures "request_id" !in req.args ==> h == BadRequest()
    ensures ("request_id" in req.args && (|| IntArg(req.args, "limit", 32).None? || IntArg(req.args, "offset", 0).None?
             || OptIntArg(req.args, "account_id").None? || OptIntArg(req.args, "post_id").None?))
            ==> h == ServerError(None)
    ensures (&& "request_id" in req.args
             && IntArg(req.args, "limit", 32).Some? && IntArg(req.args, "offset", 0).Some?
             && OptIntArg(req.args, "account_id").Some? && OptIntArg(req.args, "post_id").Some?) ==>
      Answered(h, ListLikes(AnonMeta(req), LikeQuery(OptIntArg(req.args, "account_id").value,
                                                     OptIntArg(req.args, "post_id").value),
                            IntArg(req.args, "limit", 32).value, IntArg(req.args, "offset", 0).value),
               reply, ListLikesErrors(), likes => JsonList(ExpandedLikeJson, likes))
  {
    if "request_id" !in req.args then BadRequest()
    else
      var limit := IntArg(req.args, "limit", 32);
      var offset := IntArg(req.args, "offset", 0);
      var accountId := OptIntArg(req.args, "account_id");
      var postId := OptIntArg(req.args, "post_id");
      if limit.None? || offset.None? || accountId.None? || postId.None? then ServerError(None)
      else
        var call := Some(ListLikes(RequestMetadata(req.args["request_id"], None),
                                   LikeQuery(accountId.value, postId.value), limit.value, offset.value));
        match reply
        case Exc(AccountNotFound) => Handled(call, Empty, 400)
        case Exc(PostNotFound) => Handled(call, Empty, 400)
        case Exc(_) => ServerError(call)
        case Ok(likes) =>
          match JsonList(ExpandedLikeJson, likes)
          case None => ServerError(call)
          case Some(j) => Handled(call, j, 200)
  }

  // ---------------------------------------------------------------------
  // Trending

  /** `GET /trending`: the ten top hashtags unless `limit` says otherwise;
      no exception is caught. */
  function GetTrending(req: Request, reply: Outcome<seq<string>>): (h: Handled)
    ensures "request_id" !in req.args ==> h == BadRequest()
    ensures "request_id" in req.args && IntArg(req.args, "limit", 10).None? ==> h == ServerError(None)
    ensures "request_id" in req.args && IntArg(req.args, "limit", 10).Some? ==>
      Answered(h, FetchTrendingHashtags(AnonMeta(req), IntArg(req.args, "limit", 10).value), reply,
               NoErrors(), tags => JsonList((t: string) => Some(JStr(t)), tags))
  {
    if "request_id" !in req.args then BadRequest()
    else
      var limit := IntArg(req.args, "limit", 10);
      if limit.None? then ServerError(None)
      else
        var call := Some(FetchTrendingHashtags(RequestMetadata(req.args["request_id"], None), limit.value));
        match reply
        case Exc(_) => ServerError(call)
        case Ok(tags) =>
          match JsonList((t: string) => Some(JStr(t)), tags)
          case None => ServerError(call)
          case Some(j) => Handled(call, j, 200)
  }
}
