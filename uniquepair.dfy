/** The uniquepair service's handler (app/uniquepair/service/server/src/
    uniquepair_server.cpp): ordered pairs of ids, unique within a domain,
    stored in PostgreSQL. Query outcomes are inputs. */
module UniquepairService {
  import opened Common
  import opened Types
  import opened Sql

  // ---------------------------------------------------------------------
  // WHERE clause of fetch and count

  const DomainIs: string := "domain = '"
  const FirstIs: string := " AND first_elem = "
  const SecondIs: string := " AND second_elem = "

  /** ` AND <column> = <n>` when the element is set, nothing otherwise. */
  function Filter(lead: string, elem: Option<int>): string {
    match elem case None => "" case Some(n) => lead + IntToString(n)
  }

  /** The WHERE clause of a query: its domain, then the first element's
      filter, then the second's, each only when set. */
  function WhereClause(query: UniquepairQuery): (w: string)
    ensures |w| > |DomainIs| + |query.domain| && w[..|DomainIs|] == DomainIs
    ensures w[|DomainIs|..|DomainIs| + |query.domain|] == query.domain
  {
    DomainIs + query.domain + "'" + (Filter(FirstIs, query.firstElem) + Filter(SecondIs, query.secondElem))
  }

  /** `build_where_clause`: stream the domain, then each filter that is set. */
  method BuildWhereClause(query: UniquepairQuery) returns (w: string)
    ensures w == WhereClause(query)
  {
    var filters := "";
    if query.firstElem.Some? {
      filters := FirstIs + IntToString(query.firstElem.value);
    }
    assert filters == Filter(FirstIs, query.firstElem);
    if query.secondElem.Some? {
      filters := filters + (SecondIs + IntToString(query.secondElem.value));
    }
    assert filters == Filter(FirstIs, query.firstElem) + Filter(SecondIs, query.secondElem);
    w := DomainIs + query.domain + "'" + filters;
  }

  /** Read an optional filter at the front of `s`: its value and the rest. */
  function ReadFilter(lead: string, s: string): Option<(Option<int>, string)> {
    if |s| >= |lead| && s[..|lead|] == lead then
      match ReadInt(s[|lead|..])
      case None => None
      case Some((n, len)) => Some((Some(n), s[|lead| + len..]))
    else Some((None, s))
  }

  /** Read the two filters that follow the domain, and nothing after them. */
  function ReadFilters(s: string): Option<(Option<int>, Option<int>)> {
    match ReadFilter(FirstIs, s)
    case None => None
    case Some((first, tail)) =>
      match ReadFilter(SecondIs, tail)
      case None => None
      case Some((second, tail')) => if tail' == "" then Some((first, second)) else None
  }

  /** The query a WHERE clause was built from, or None for a text of another
      shape. The domain ends at the first quote. */
  function QueryOfWhere(w: string): Option<UniquepairQuery> {
    if !(|w| >= |DomainIs| && w[..|DomainIs|] == DomainIs) then None
    else
      var rest := w[|DomainIs|..];
      match Find(rest, '\'')
      case None => None
      case Some(k) =>
        match ReadFilters(rest[k + 1..])
        case None => None
        case Some((first, second)) => Some(UniquepairQuery(rest[..k], first, second))
  }

  lemma FindAfter(d: string, t: string)
    requires '\'' !in d
    ensures Find(d + "'" + t, '\'') == Some(|d|)
  {
    assert (d + "'" + t)[|d|] == '\'';
  }

  lemma ReadFilterOf(lead: string, elem: Option<int>, rest: string)
    requires |lead| > 0 && lead[0] == ' '
    requires |rest| == 0 || rest[0] == ' '
    requires elem.None? ==> !(|rest| >= |lead| && rest[..|lead|] == lead)
    ensures ReadFilter(lead, Filter(lead, elem) + rest) == Some((elem, rest))
  {
    if elem.Some? {
      var s := Filter(lead, elem) + rest;
      var n := elem.value;
      assert s == lead + (IntToString(n) + rest);
      assert s[..|lead|] == lead;
      assert s[|lead|..] == IntToString(n) + rest;
      ReadIntOfIntToString(n, rest);
      assert s[|lead| + |IntToString(n)|..] == rest;
    } else {
      assert Filter(lead, elem) + rest == rest;
    }
  }

  lemma ReadFiltersOf(first: Option<int>, second: Option<int>)
    ensures ReadFilters(Filter(FirstIs, first) + Filter(SecondIs, second)) == Some((first, second))
  {
    var f2 := Filter(SecondIs, second);
    if first.None? && |f2| >= |FirstIs| {
      assert f2[5] != FirstIs[5];
    }
    ReadFilterOf(FirstIs, first, f2);
    ReadFilterOf(SecondIs, second, "");
    assert f2 + "" == f2;
  }

  /** A clause keeps its query, as long as the domain holds no quote (a
      quote in the domain ends the string literal early). */
  lemma WhereClauseReadsBack(query: UniquepairQuery)
    requires '\'' !in query.domain
    ensures QueryOfWhere(WhereClause(query)) == Some(query)
  {
    var w := WhereClause(query);
    var t := Filter(FirstIs, query.firstElem) + Filter(SecondIs, query.secondElem);
    var rest := w[|DomainIs|..];
    assert rest == query.domain + "'" + t;
    FindAfter(query.domain, t);
    var k := |query.domain|;
    assert rest[..k] == query.domain;
    assert rest[k + 1..] == t;
    ReadFiltersOf(query.firstElem, query.secondElem);
  }

  // ---------------------------------------------------------------------
  // Single-pair operations

  /** The row `get` selects by id. */
  datatype PairRow = PairRow(createdAt: int, domain: string, firstElem: int, secondElem: int)

  /** `get`: NotFound when no row; otherwise the stored pair, under the
      requested id. */
  function Get(pairId: int, db: Outcome<seq<PairRow>>): (r: Outcome<Uniquepair>)
    ensures db.Exc? ==> r == Exc(db.fault)
    ensures db.Ok? && |db.value| == 0 ==> r == Exc(UniquepairNotFound)
    ensures r.Ok? <==> db.Ok? && |db.value| > 0
    ensures r.Ok? ==> r.value == Uniquepair(pairId, db.value[0].createdAt, db.value[0].domain,
                                            db.value[0].firstElem, db.value[0].secondElem)
  {
    match db
    case Exc(f) => Exc(f)
    case Ok(rows) =>
      if |rows| == 0 then Exc(UniquepairNotFound)
      else Ok(Uniquepair(pairId, rows[0].createdAt, rows[0].domain, rows[0].firstElem, rows[0].secondElem))
  }

  /** `add`: any SQL error of the insert (the unique constraint, for a pair
      already stored) is AlreadyExists; the pair echoes its inputs. */
  function Add(domain: string, firstElem: int, secondElem: int, db: Outcome<seq<Inserted>>): (r: Outcome<Uniquepair>)
    ensures db == Exc(SqlError) ==> r == Exc(UniquepairAlreadyExists)
    ensures db.Exc? && db.fault != SqlError ==> r == Exc(db.fault)
    ensures r.Ok? <==> db.Ok? && |db.value| > 0
    ensures r.Ok? ==> r.value == Uniquepair(db.value[0].id, db.value[0].createdAt, domain, firstElem, secondElem)
  {
    match db
    case Exc(SqlError) => Exc(UniquepairAlreadyExists)
    case Exc(f) => Exc(f)
    case Ok(rows) =>
      if |rows| == 0 then Exc(OtherFault)
      else Ok(Uniquepair(rows[0].id, rows[0].createdAt, domain, firstElem, secondElem))
  }

  /** `remove`: NotFound when the delete returns no row. */
  function Remove(db: Outcome<seq<int>>): (r: Outcome<()>)
    ensures db.Exc? ==> r == Exc(db.fault)
    ensures r.Ok? <==> db.Ok? && |db.value| > 0
    ensures db.Ok? && |db.value| == 0 ==> r == Exc(UniquepairNotFound)
  {
    match db
    case Exc(f) => Exc(f)
    case Ok(rows) => if |rows| == 0 then Exc(UniquepairNotFound) else Ok(())
  }

  /** `find`: NotFound when no row matches; otherwise the pair, echoing the
      inputs with the stored id and creation time. */
  function FindPair(domain: string, firstElem: int, secondElem: int, db: Outcome<seq<Inserted>>): (r: Outcome<Uniquepair>)
    ensures db.Exc? ==> r == Exc(db.fault)
    ensures db.Ok? && |db.value| == 0 ==> r == Exc(UniquepairNotFound)
    ensures r.Ok? <==> db.Ok? && |db.value| > 0
    ensures r.Ok? ==> r.value == Uniquepair(db.value[0].id, db.value[0].createdAt, domain, firstElem, secondElem)
  {
    match db
    case Exc(f) => Exc(f)
    case Ok(rows) =>
      if |rows| == 0 then Exc(UniquepairNotFound)
      else Ok(Uniquepair(rows[0].id, rows[0].createdAt, domain, firstElem, secondElem))
  }

  // ---------------------------------------------------------------------
  // fetch and count

  /** A row of the fetch query. */
  datatype FetchRow = FetchRow(id: int, createdAt: int, firstElem: int, secondElem: int)

  /** `fetch`: the WHERE clause it queries with, and one pair per row, in
      row order, each in the query's domain. */
  method Fetch(query: UniquepairQuery, db: Outcome<seq<FetchRow>>) returns (where: string, r: Outcome<seq<Uniquepair>>)
    ensures where == WhereClause(query)
    ensures db.Exc? ==> r == Exc(db.fault)
    ensures r.Ok? <==> db.Ok?
    ensures r.Ok? ==> && |r.value| == |db.value|
                      && forall i :: 0 <= i < |db.value| ==>
                           r.value[i] == Uniquepair(db.value[i].id, db.value[i].createdAt, query.domain,
                                                    db.value[i].firstElem, db.value[i].secondElem)
  {
    where := BuildWhereClause(query);
    if db.Exc? {
      return where, Exc(db.fault);
    }
    var rows := db.value;
    var pairs: seq<Uniquepair> := [];
    var i := 0;
    while i < |rows|
      invariant 0 <= i <= |rows| && |pairs| == i
      invariant forall j :: 0 <= j < i ==>
                  pairs[j] == Uniquepair(rows[j].id, rows[j].createdAt, query.domain, rows[j].firstElem, rows[j].secondElem)
    {
      pairs := pairs + [Uniquepair(rows[i].id, rows[i].createdAt, query.domain, rows[i].firstElem, rows[i].secondElem)];
      i := i + 1;
    }
    r := Ok(pairs);
  }

  /** `count`: the WHERE clause it counts with, and the value of the
      `COUNT(*)` row. */
  method Count(query: UniquepairQuery, db: Outcome<seq<int>>) returns (where: string, r: Outcome<int>)
    ensures where == WhereClause(query)
    ensures db.Exc? ==> r == Exc(db.fault)
    ensures db.Ok? && |db.value| == 0 ==> r == Exc(OtherFault)
    ensures db.Ok? && |db.value| > 0 ==> r == Ok(db.value[0])
  {
    where := BuildWhereClause(query);
    if db.Exc? {
      return where, Exc(db.fault);
    }
    if |db.value| == 0 {
      return where, Exc(OtherFault);
    }
    r := Ok(db.value[0]);
  }
}
