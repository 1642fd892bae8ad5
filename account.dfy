/** The account service's handler (app/account/service/server/src/
    account_server.cpp). A handler is a function of its arguments, the
    outcome of its query (`run_query` either gives the result rows or
    throws), and the remote operations it calls, passed in as functions of
    their arguments. */
module AccountService {
  import opened Common
  import opened Types
  import opened Sql

  /** Between 1 and `max` bytes: `size()` counts the UTF-8 bytes. A valid
      string has at most `max` characters, and one of at most `max / 4`
      characters is valid whatever they are. */
  predicate ValidLength(s: string, max: nat): (ok: bool)
    ensures ok ==> 0 < |s| <= max
    ensures 0 < |s| && 4 * |s| <= max ==> ok
  {
    0 < Utf8Size(s) <= max
  }

  /** For ASCII text the byte bound is the character bound. */
  lemma AsciiValidLength(s: string, max: nat)
    requires forall i :: 0 <= i < |s| ==> s[i] as int < 0x80
    ensures ValidLength(s, max) <==> 0 < |s| <= max
  {
    Utf8SizeOfAscii(s);
  }

  /** Twenty copies of "é" have 20 characters but 40 bytes, so they are not
      a valid username. */
  lemma WideUsernameRejected(password: string, firstName: string, lastName: string)
    ensures !ValidateAttributes(seq(20, _ => '\U{E9}'), password, firstName, lastName)
  {
    var s := seq(20, _ => '\U{E9}');
    assert forall i :: 0 <= i <= 20 ==> Utf8Size(s[..i]) == 2 * i by {
      forall i | 0 <= i <= 20
        ensures Utf8Size(s[..i]) == 2 * i
      {
        WideSize(s, i);
      }
    }
    assert s[..20] == s;
  }

  lemma {:induction false} WideSize(s: string, i: nat)
    requires i <= |s| && forall j :: 0 <= j < |s| ==> s[j] == '\U{E9}'
    ensures Utf8Size(s[..i]) == 2 * i
  {
    if i > 0 {
      WideSize(s, i - 1);
      assert s[..i][..i - 1] == s[..i - 1];
    }
  }

  /** `validate_attributes`: each of the four strings has 1 to 32 bytes, so
      in particular 1 to 32 characters. */
  predicate ValidateAttributes(username: string, password: string, firstName: string, lastName: string): (ok: bool)
    ensures ok ==> 0 < |username| <= 32 && 0 < |password| <= 32 && 0 < |firstName| <= 32 && 0 < |lastName| <= 32
    ensures (0 < |username| <= 8 && 0 < |password| <= 8 && 0 < |firstName| <= 8 && 0 < |lastName| <= 8) ==> ok
  {
    ValidLength(username, 32) && ValidLength(password, 32) && ValidLength(firstName, 32) && ValidLength(lastName, 32)
  }

  /** A 1024-character username is rejected, whatever the other fields. */
  lemma LongUsernameRejected(username: string, password: string, firstName: string, lastName: string)
    requires |username| == 1024
    ensures !ValidateAttributes(username, password, firstName, lastName)
  {
  }

  /** `update_account` validates with the placeholder "john.doe", so only the
      three updated fields are checked. */
  lemma PlaceholderUsernameIsValid(password: string, firstName: string, lastName: string)
    ensures ValidateAttributes("john.doe", password, firstName, lastName)
            <==> ValidLength(password, 32) && ValidLength(firstName, 32) && ValidLength(lastName, 32)
  {
  }

  // ---------------------------------------------------------------------
  // WHERE clause of list_accounts

  const UsernameIs: string := " AND username = '"

  /** The WHERE clause of a listing: active accounts, with the given username
      when the query sets one. */
  function WhereClause(query: AccountQuery): (w: string)
    ensures |w| >= |ActiveOnly| && w[..|ActiveOnly|] == ActiveOnly
  {
    ActiveOnly + (match query.username case None => "" case Some(u) => UsernameIs + u + "'")
  }

  /** `build_where_clause`: stream the fixed part, then the username filter
      when set. */
  method BuildWhereClause(query: AccountQuery) returns (w: string)
    ensures w == WhereClause(query)
  {
    w := ActiveOnly;
    if query.username.Some? {
      w := w + UsernameIs;
      w := w + query.username.value;
      w := w + "'";
    }
  }

  /** The username filter a WHERE clause holds (Some(None) for none), or None
      for a text of another shape. */
  function UsernameOfWhere(w: string): Option<Option<string>> {
    var p := ActiveOnly + UsernameIs;
    if w == ActiveOnly then Some(None)
    else if |w| > |p| && w[..|p|] == p && w[|w| - 1] == '\'' then Some(Some(w[|p|..|w| - 1]))
    else None
  }

  /** The clause keeps the query: the filter is present iff the username is
      set, and holds it unchanged. */
  lemma WhereClauseReadsBack(query: AccountQuery)
    ensures UsernameOfWhere(WhereClause(query)) == Some(query.username)
  {
    var w := WhereClause(query);
    var p := ActiveOnly + UsernameIs;
    if query.username.Some? {
      var u := query.username.value;
      assert w == p + u + "'";
      assert w[..|p|] == p;
      assert w[|p|..|w| - 1] == u;
    }
  }

  // ---------------------------------------------------------------------
  // Single-account operations

  /** The row `authenticate_user` selects by username. */
  datatype CredentialsRow = CredentialsRow(id: int, createdAt: int, active: bool, password: string,
                                           firstName: string, lastName: string)

  /** `authenticate_user`: no row means invalid credentials, then an
      inactive account is refused, then the password must match; the
      account returned is active and carries the given username. */
  function AuthenticateUser(username: string, password: string, db: Outcome<seq<CredentialsRow>>): (r: Outcome<Account>)
    ensures db.Exc? ==> r == Exc(db.fault)
    ensures db.Ok? && |db.value| == 0 ==> r == Exc(AccountInvalidCredentials)
    ensures db.Ok? && |db.value| > 0 && !db.value[0].active ==> r == Exc(AccountDeactivated)
    ensures db.Ok? && |db.value| > 0 && db.value[0].active && db.value[0].password != password
            ==> r == Exc(AccountInvalidCredentials)
    ensures r.Ok? <==> db.Ok? && |db.value| > 0 && db.value[0].active && db.value[0].password == password
    ensures r.Ok? ==> && r.value.id == db.value[0].id && r.value.createdAt == db.value[0].createdAt
                      && r.value.active && r.value.username == username
                      && r.value.firstName == db.value[0].firstName && r.value.lastName == db.value[0].lastName
                      && r.value.activity.None?
  {
    match db
    case Exc(f) => Exc(f)
    case Ok(rows) =>
      if |rows| == 0 then Exc(AccountInvalidCredentials)
      else if !rows[0].active then Exc(AccountDeactivated)
      else if password != rows[0].password then Exc(AccountInvalidCredentials)
      else Ok(Account(rows[0].id, rows[0].createdAt, true, username, rows[0].firstName, rows[0].lastName, None))
  }

  /** `create_account`: validate before any query, report any SQL error of
      the insert as a taken username, and echo the inputs as an active
      account. */
  function CreateAccount(username: string, password: string, firstName: string, lastName: string,
                         db: Outcome<seq<Inserted>>): (r: Outcome<Account>)
    ensures !ValidateAttributes(username, password, firstName, lastName) ==> r == Exc(AccountInvalidAttributes)
    ensures ValidateAttributes(username, password, firstName, lastName) && db == Exc(SqlError)
            ==> r == Exc(AccountUsernameAlreadyExists)
    ensures ValidateAttributes(username, password, firstName, lastName) && db.Exc? && db.fault != SqlError
            ==> r == Exc(db.fault)
    ensures r.Ok? <==> ValidateAttributes(username, password, firstName, lastName) && db.Ok? && |db.value| > 0
    ensures r.Ok? ==> r.value == Account(db.value[0].id, db.value[0].createdAt, true, username, firstName, lastName, None)
  {
    if !ValidateAttributes(username, password, firstName, lastName) then Exc(AccountInvalidAttributes)
    else
      match db
      case Exc(SqlError) => Exc(AccountUsernameAlreadyExists)
      case Exc(f) => Exc(f)
      case Ok(rows) =>
        if |rows| == 0 then Exc(OtherFault)
        else Ok(Account(rows[0].id, rows[0].createdAt, true, username, firstName, lastName, None))
  }

  /** The row `retrieve_standard_account` selects by id. */
  datatype StandardRow = StandardRow(createdAt: int, active: bool, username: string, firstName: string, lastName: string)

  /** `retrieve_standard_account`: NotFound when no row; the account carries
      the requested id and the stored fields. */
  function RetrieveStandardAccount(accountId: int, db: Outcome<seq<StandardRow>>): (r: Outcome<Account>)
    ensures db.Exc? ==> r == Exc(db.fault)
    ensures db.Ok? && |db.value| == 0 ==> r == Exc(AccountNotFound)
    ensures r.Ok? <==> db.Ok? && |db.value| > 0
    ensures r.Ok? ==> r.value == Account(accountId, db.value[0].createdAt, db.value[0].active, db.value[0].username,
                                         db.value[0].firstName, db.value[0].lastName, None)
  {
    match db
    case Exc(f) => Exc(f)
    case Ok(rows) =>
      if |rows| == 0 then Exc(AccountNotFound)
      else Ok(Account(accountId, rows[0].createdAt, rows[0].active, rows[0].username, rows[0].firstName,
                      rows[0].lastName, None))
  }

  /** The remote operations the account service calls, through the
      connected server's wrappers. */
  datatype Peers = Peers(
    checkFollow: (int, int) -> Outcome<bool>,
    countFollowers: int -> Outcome<int>,
    countFollowees: int -> Outcome<int>,
    countPostsByAuthor: int -> Outcome<int>,
    countLikesByAccount: int -> Outcome<int>)

  /** The six activity fields of `account_id` as seen by `requester`, read
      in the order of the `future.get()` calls, so the first fault in that
      order is the one thrown. */
  function ActivityOf(peers: Peers, requester: int, accountId: int): (r: Outcome<Activity>)
    ensures r.Ok? <==> && peers.checkFollow(accountId, requester).Ok? && peers.checkFollow(requester, accountId).Ok?
                       && peers.countFollowers(accountId).Ok? && peers.countFollowees(accountId).Ok?
                       && peers.countPostsByAuthor(accountId).Ok? && peers.countLikesByAccount(accountId).Ok?
    ensures r.Ok? ==> r.value == Activity(peers.checkFollow(accountId, requester).value,
                                          peers.checkFollow(requester, accountId).value,
                                          peers.countFollowers(accountId).value,
                                          peers.countFollowees(accountId).value,
                                          peers.countPostsByAuthor(accountId).value,
                                          peers.countLikesByAccount(accountId).value)
    ensures peers.checkFollow(accountId, requester).Exc? ==> r == Exc(peers.checkFollow(accountId, requester).fault)
    ensures peers.checkFollow(accountId, requester).Ok? && peers.checkFollow(requester, accountId).Exc?
            ==> r == Exc(peers.checkFollow(requester, accountId).fault)
  {
    match (peers.checkFollow(accountId, requester), peers.checkFollow(requester, accountId))
    case (Exc(f), _) => Exc(f)
    case (_, Exc(f)) => Exc(f)
    case (Ok(followsYou), Ok(followedByYou)) =>
      match (peers.countFollowers(accountId), peers.countFollowees(accountId))
      case (Exc(f), _) => Exc(f)
      case (_, Exc(f)) => Exc(f)
      case (Ok(nFollowers), Ok(nFollowing)) =>
        match (peers.countPostsByAuthor(accountId), peers.countLikesByAccount(accountId))
        case (Exc(f), _) => Exc(f)
        case (_, Exc(f)) => Exc(f)
        case (Ok(nPosts), Ok(nLikes)) => Ok(Activity(followsYou, followedByYou, nFollowers, nFollowing, nPosts, nLikes))
  }

  /** `retrieve_expanded_account`: the standard account, then its activity
      relative to the requester. */
  function RetrieveExpandedAccount(meta: RequestMetadata, accountId: int, db: Outcome<seq<StandardRow>>, peers: Peers)
    : (r: Outcome<Account>)
    ensures RetrieveStandardAccount(accountId, db).Exc? ==> r == RetrieveStandardAccount(accountId, db)
    ensures RetrieveStandardAccount(accountId, db).Ok? && ActivityOf(peers, RequesterId(meta), accountId).Exc?
            ==> r == Exc(ActivityOf(peers, RequesterId(meta), accountId).fault)
    ensures r.Ok? ==> && RetrieveStandardAccount(accountId, db).Ok?
                      && r.value == RetrieveStandardAccount(accountId, db).value.(activity := Some(ActivityOf(peers, RequesterId(meta), accountId).value))
    ensures r.Ok? ==> && r.value.activity.value.followsYou == peers.checkFollow(accountId, RequesterId(meta)).value
                      && r.value.activity.value.followedByYou == peers.checkFollow(RequesterId(meta), accountId).value
  {
    match RetrieveStandardAccount(accountId, db)
    case Exc(f) => Exc(f)
    case Ok(account) =>
      match ActivityOf(peers, RequesterId(meta), accountId)
      case Exc(f) => Exc(f)
      case Ok(activity) => Ok(account.(activity := Some(activity)))
  }

  /** The row `update_account` returns. */
  datatype UpdatedRow = UpdatedRow(createdAt: int, active: bool, username: string)

  /** `update_account`: only the account itself may update it, checked
      before validation; the username is not validated (it does not change);
      NotFound when no row is updated. */
  function UpdateAccount(meta: RequestMetadata, accountId: int, password: string, firstName: string, lastName: string,
                         db: Outcome<seq<UpdatedRow>>): (r: Outcome<Account>)
    ensures RequesterId(meta) != accountId ==> r == Exc(AccountNotAuthorized)
    ensures RequesterId(meta) == accountId && !ValidateAttributes("john.doe", password, firstName, lastName)
            ==> r == Exc(AccountInvalidAttributes)
    ensures RequesterId(meta) == accountId && ValidateAttributes("john.doe", password, firstName, lastName)
            ==> && (db.Exc? ==> r == Exc(db.fault))
                && (db.Ok? && |db.value| == 0 ==> r == Exc(AccountNotFound))
    ensures r.Ok? <==> && RequesterId(meta) == accountId && ValidateAttributes("john.doe", password, firstName, lastName)
                       && db.Ok? && |db.value| > 0
    ensures r.Ok? ==> && db.Ok? && |db.value| > 0
                      && r.value == Account(accountId, db.value[0].createdAt, db.value[0].active, db.value[0].username,
                                            firstName, lastName, None)
  {
    if RequesterId(meta) != accountId then Exc(AccountNotAuthorized)
    else if !ValidateAttributes("john.doe", password, firstName, lastName) then Exc(AccountInvalidAttributes)
    else
      match db
      case Exc(f) => Exc(f)
      case Ok(rows) =>
        if |rows| == 0 then Exc(AccountNotFound)
        else Ok(Account(accountId, rows[0].createdAt, rows[0].active, rows[0].username, firstName, lastName, None))
  }

  /** `delete_account`: only the account itself may delete it, checked
      before the query; NotFound when no row is deactivated. */
  function DeleteAccount(meta: RequestMetadata, accountId: int, db: Outcome<seq<int>>): (r: Outcome<()>)
    ensures RequesterId(meta) != accountId ==> r == Exc(AccountNotAuthorized)
    ensures RequesterId(meta) == accountId && db.Exc? ==> r == Exc(db.fault)
    ensures RequesterId(meta) == accountId && db.Ok? && |db.value| == 0 ==> r == Exc(AccountNotFound)
    ensures r.Ok? <==> RequesterId(meta) == accountId && db.Ok? && |db.value| > 0
  {
    if RequesterId(meta) != accountId then Exc(AccountNotAuthorized)
    else
      match db
      case Exc(f) => Exc(f)
      case Ok(rows) => if |rows| == 0 then Exc(AccountNotFound) else Ok(())
  }

  // ---------------------------------------------------------------------
  // list_accounts

  /** A row of the listing query. */
  datatype ListRow = ListRow(id: int, createdAt: int, active: bool, username: string, firstName: string, lastName: string)

  /** One expanded account from a listed row. */
  function ExpandRow(peers: Peers, requester: int, row: ListRow): (r: Outcome<Account>)
    ensures r.Ok? <==> ActivityOf(peers, requester, row.id).Ok?
    ensures r.Ok? ==> r.value == Account(row.id, row.createdAt, row.active, row.username, row.firstName, row.lastName,
                                         Some(ActivityOf(peers, requester, row.id).value))
  {
    match ActivityOf(peers, requester, row.id)
    case Exc(f) => Exc(f)
    case Ok(activity) => Ok(Account(row.id, row.createdAt, row.active, row.username, row.firstName, row.lastName, Some(activity)))
  }

  /** `list_accounts`: the WHERE clause it queries with, and one expanded
      account per result row, in row order; the first fault of a row's
      activity, in row order, is thrown. */
  method ListAccounts(meta: RequestMetadata, query: AccountQuery, db: Outcome<seq<ListRow>>, peers: Peers)
    returns (where: string, r: Outcome<seq<Account>>)
    ensures where == WhereClause(query)
    ensures db.Exc? ==> r == Exc(db.fault)
    ensures db.Ok? ==> (r.Ok? <==> forall i :: 0 <= i < |db.value| ==> ActivityOf(peers, RequesterId(meta), db.value[i].id).Ok?)
    ensures r.Ok? ==> && db.Ok? && |r.value| == |db.value|
                      && forall i :: 0 <= i < |db.value| ==>
                           && r.value[i].id == db.value[i].id && r.value[i].username == db.value[i].username
                           && r.value[i].activity == Some(ActivityOf(peers, RequesterId(meta), db.value[i].id).value)
    ensures r.Ok? ==> && db.Ok? && |r.value| == |db.value|
                      && forall i :: 0 <= i < |db.value| ==>
                           ExpandRow(peers, RequesterId(meta), db.value[i]) == Ok(r.value[i])
    ensures db.Ok? && r.Exc? ==> FirstFault(row => ExpandRow(peers, RequesterId(meta), row), db.value, r.fault)
  {
    where := BuildWhereClause(query);
    if db.Exc? {
      return where, Exc(db.fault);
    }
    var requester := RequesterId(meta);
    r := Collect(row => ExpandRow(peers, requester, row), db.value);
    if r.Ok? {
      forall i | 0 <= i < |db.value|
        ensures ActivityOf(peers, requester, db.value[i].id).Ok?
      {
        assert ExpandRow(peers, requester, db.value[i]).Ok?;
      }
    }
  }
}
