/** Values and string helpers shared by every component of the model. */
module Common {

  datatype Option<+T> = None | Some(value: T)

  /** The exceptions that cross a service boundary: those of the BuzzBlog
      Thrift interface, PostgreSQL's `sql_error`, and any other failure (a
      transport error, say), which no component of the core catches. */
  datatype Fault =
    | AccountInvalidCredentials | AccountDeactivated | AccountInvalidAttributes
    | AccountUsernameAlreadyExists | AccountNotAuthorized | AccountNotFound
    | FollowAlreadyExists | FollowNotAuthorized | FollowNotFound
    | LikeAlreadyExists | LikeNotAuthorized | LikeNotFound
    | PostInvalidAttributes | PostNotAuthorized | PostNotFound
    | UniquepairAlreadyExists | UniquepairNotFound
    | SqlError
    | OtherFault

  /** What a remote call, a query or a handler came to: a value or a thrown fault. */
  datatype Outcome<+T> = Ok(value: T) | Exc(fault: Fault)

  /** `f` applied to every element, in order; None as soon as one gives None. */
  function MapAll<A, B>(f: A -> Option<B>, xs: seq<A>): (r: Option<seq<B>>)
    ensures r.Some? ==> |r.value| == |xs|
    ensures r.Some? ==> forall i :: 0 <= i < |xs| ==> f(xs[i]) == Some(r.value[i])
  {
    if |xs| == 0 then Some([])
    else
      var init := xs[..|xs| - 1];
      assert forall i :: 0 <= i < |init| ==> init[i] == xs[i];
      match MapAll(f, init)
      case None => None
      case Some(ys) =>
        match f(xs[|xs| - 1])
        case None => None
        case Some(y) => Some(ys + [y])
  }

  /** MapAll fails iff some element fails. */
  lemma {:induction false} MapAllFails<A, B>(f: A -> Option<B>, xs: seq<A>)
    ensures MapAll(f, xs).None? <==> exists i :: 0 <= i < |xs| && f(xs[i]).None?
  {
    if |xs| > 0 {
      var init := xs[..|xs| - 1];
      MapAllFails(f, init);
      assert forall i :: 0 <= i < |init| ==> init[i] == xs[i];
    }
  }

  /** MapAll of a concatenation is the concatenation of the MapAlls. */
  lemma {:induction false} MapAllAppend<A, B>(f: A -> Option<B>, a: seq<A>, b: seq<A>)
    ensures MapAll(f, a + b) ==
      if MapAll(f, a).Some? && MapAll(f, b).Some? then Some(MapAll(f, a).value + MapAll(f, b).value) else None
    decreases |b|
  {
    if |b| == 0 {
      assert a + b == a;
      assert MapAll(f, b) == Some([]);
      if MapAll(f, a).Some? {
        assert MapAll(f, a).value + [] == MapAll(f, a).value;
      }
    } else {
      var b' := b[..|b| - 1];
      assert (a + b)[..|a + b| - 1] == a + b';
      assert (a + b)[|a + b| - 1] == b[|b| - 1];
      MapAllAppend(f, a, b');
      var y := f(b[|b| - 1]);
      if MapAll(f, a).Some? && MapAll(f, b').Some? && y.Some? {
        assert MapAll(f, b) == Some(MapAll(f, b').value + [y.value]);
        assert MapAll(f, a + b) == Some(MapAll(f, a + b').value + [y.value]);
        assert (MapAll(f, a).value + MapAll(f, b').value) + [y.value]
            == MapAll(f, a).value + (MapAll(f, b').value + [y.value]);
      }
    }
  }

  /** `xs[i]` is the first element on which `f` throws, and it throws `e`. */
  ghost predicate FirstFault<A, B>(f: A -> Outcome<B>, xs: seq<A>, e: Fault) {
    exists i :: 0 <= i < |xs| && f(xs[i]) == Exc(e) && forall j :: 0 <= j < i ==> f(xs[j]).Ok?
  }

  /** A loop that builds one result per element, in order, with `f`, and
      rethrows the first fault `f` throws. */
  method Collect<A, B>(f: A -> Outcome<B>, xs: seq<A>) returns (r: Outcome<seq<B>>)
    ensures r.Ok? <==> forall i :: 0 <= i < |xs| ==> f(xs[i]).Ok?
    ensures r.Ok? ==> |r.value| == |xs| && forall i :: 0 <= i < |xs| ==> f(xs[i]) == Ok(r.value[i])
    ensures r.Exc? ==> FirstFault(f, xs, r.fault)
  {
    var acc: seq<B> := [];
    var i := 0;
    while i < |xs|
      invariant 0 <= i <= |xs| && |acc| == i
      invariant forall j :: 0 <= j < i ==> f(xs[j]) == Ok(acc[j])
    {
      var o := f(xs[i]);
      if o.Exc? {
        return Exc(o.fault);
      }
      acc := acc + [o.value];
      i := i + 1;
    }
    return Ok(acc);
  }

  /** `table[k]` on a map of lists, where a missing key reads as the empty list. */
  function ListAt<K, V>(table: map<K, seq<V>>, k: K): seq<V> {
    if k in table then table[k] else []
  }

  /** `m[k]` when present, None otherwise. */
  function Lookup<K, V>(m: map<K, V>, k: K): Option<V> {
    if k in m then Some(m[k]) else None
  }

  /** The table after pushing `vs` one by one at the back of the list under
      `k`: the entry is created by the first push only. */
  function Extend<K(!new), V>(table: map<K, seq<V>>, k: K, vs: seq<V>): (t: map<K, seq<V>>)
    ensures ListAt(t, k) == ListAt(table, k) + vs
    ensures forall k' :: k' != k ==> ListAt(t, k') == ListAt(table, k')
    ensures t.Keys == if vs == [] then table.Keys else table.Keys + {k}
  {
    if vs == [] then table else table[k := ListAt(table, k) + vs]
  }

  /** One more push under `k`. */
  lemma ExtendSnoc<K(!new), V>(table: map<K, seq<V>>, k: K, vs: seq<V>, v: V)
    ensures Extend(table, k, vs + [v]) == Extend(table, k, vs)[k := ListAt(Extend(table, k, vs), k) + [v]]
  {
    assert ListAt(table, k) + (vs + [v]) == (ListAt(table, k) + vs) + [v];
  }

  /** Convert each element of `xs` with `f` and push it under `k`, stopping
      with None at the first element `f` rejects. */
  method PushAll<K(!new), A, B>(table: map<K, seq<B>>, k: K, f: A -> Option<B>, xs: seq<A>)
    returns (r: Option<map<K, seq<B>>>)
    ensures r == match MapAll(f, xs) case None => None case Some(ys) => Some(Extend(table, k, ys))
  {
    var t := table;
    var j := 0;
    while j < |xs|
      invariant 0 <= j <= |xs|
      invariant MapAll(f, xs[..j]).Some?
      invariant t == Extend(table, k, MapAll(f, xs[..j]).value)
    {
      assert xs[..j + 1][..j] == xs[..j];
      var y := f(xs[j]);
      if y.None? {
        MapAllFails(f, xs);
        return None;
      }
      assert MapAll(f, xs[..j + 1]) == Some(MapAll(f, xs[..j]).value + [y.value]);
      ExtendSnoc(table, k, MapAll(f, xs[..j]).value, y.value);
      t := t[k := ListAt(t, k) + [y.value]];
      j := j + 1;
    }
    assert xs[..|xs|] == xs;
    return Some(t);
  }

  /** The number of bytes UTF-8 uses for `c`. */
  function Utf8Width(c: char): nat {
    if c as int < 0x80 then 1 else if c as int < 0x800 then 2 else if c as int < 0x1_0000 then 3 else 4
  }

  /** `std::string::size()` of a string a Thrift peer sends: Thrift carries
      strings as their UTF-8 bytes, so the size counts bytes, between one
      and four per character. */
  function Utf8Size(s: string): (n: nat)
    ensures |s| <= n <= 4 * |s|
  {
    if |s| == 0 then 0 else Utf8Size(s[..|s| - 1]) + Utf8Width(s[|s| - 1])
  }

  /** For text of ASCII characters, bytes and characters agree. */
  lemma {:induction false} Utf8SizeOfAscii(s: string)
    requires forall i :: 0 <= i < |s| ==> s[i] as int < 0x80
    ensures Utf8Size(s) == |s|
  {
    if |s| > 0 {
      Utf8SizeOfAscii(s[..|s| - 1]);
    }
  }

  /** The size of a concatenation is the sum of the sizes. */
  lemma {:induction false} Utf8SizeAppend(s: string, t: string)
    ensures Utf8Size(s + t) == Utf8Size(s) + Utf8Size(t)
  {
    if |t| > 0 {
      assert (s + t)[..|s + t| - 1] == s + t[..|t| - 1];
      Utf8SizeAppend(s, t[..|t| - 1]);
    } else {
      assert s + t == s;
    }
  }

  /** 32-bit signed bounds of the C++ `int` that `std::stoi` returns. */
  const Int32Min: int := -0x8000_0000
  const Int32Max: int := 0x7FFF_FFFF

  predicate IsDigit(c: char) { '0' <= c <= '9' }

  /** `isspace` in the C locale. */
  predicate IsSpace(c: char) {
    c == ' ' || c == '\t' || c == '\n' || c == '\U{000B}' || c == '\U{000C}' || c == '\r'
  }

  predicate AllDigits(s: string) { forall i :: 0 <= i < |s| ==> IsDigit(s[i]) }

  predicate AllSpaces(s: string) { forall i :: 0 <= i < |s| ==> IsSpace(s[i]) }

  /** `s.find(c)`: the first index holding `c`, or None for `npos`. */
  function Find(s: string, c: char): (r: Option<nat>)
    ensures r.None? <==> c !in s
    ensures r.Some? ==> r.value < |s| && s[r.value] == c && c !in s[..r.value]
  {
    if |s| == 0 then None
    else if s[0] == c then Some(0)
    else match Find(s[1..], c)
      case None => None
      case Some(i) =>
        assert s[..i + 1] == [s[0]] + s[1..][..i];
        Some(i + 1)
  }

  /** Number of leading characters of `s` satisfying IsDigit. */
  function LeadingDigits(s: string): (k: nat)
    ensures k <= |s| && AllDigits(s[..k])
    ensures k < |s| ==> !IsDigit(s[k])
  {
    if |s| > 0 && IsDigit(s[0]) then
      var k := 1 + LeadingDigits(s[1..]);
      assert s[..k] == [s[0]] + s[1..][..k - 1];
      k
    else 0
  }

  /** Number of leading characters of `s` satisfying IsSpace. */
  function LeadingSpaces(s: string): (k: nat)
    ensures k <= |s| && AllSpaces(s[..k])
    ensures k < |s| ==> !IsSpace(s[k])
  {
    if |s| > 0 && IsSpace(s[0]) then
      var k := 1 + LeadingSpaces(s[1..]);
      assert s[..k] == [s[0]] + s[1..][..k - 1];
      k
    else 0
  }

  /** The decimal value of a digit string, most significant digit first. */
  function DigitsValue(s: string): nat
    requires AllDigits(s)
  {
    if |s| == 0 then 0
    else DigitsValue(s[..|s| - 1]) * 10 + (s[|s| - 1] as int - '0' as int)
  }

  /** `std::stoi(s)` in base 10: skip leading white space, read an optional
      sign and the longest run of digits; None stands for the exceptions
      `std::invalid_argument` (no digits) and `std::out_of_range`. */
  function Stoi(s: string): (r: Option<int>)
    ensures r.Some? ==> Int32Min <= r.value <= Int32Max
  {
    var t := s[LeadingSpaces(s)..];
    var signLen := if |t| > 0 && (t[0] == '-' || t[0] == '+') then 1 else 0;
    var d := t[signLen..];
    var k := LeadingDigits(d);
    if k == 0 then None
    else
      var v: int := if signLen == 1 && t[0] == '-' then -(DigitsValue(d[..k]) as int) else DigitsValue(d[..k]);
      if Int32Min <= v <= Int32Max then Some(v) else None
  }

  function DigitChar(d: nat): char
    requires d < 10
  {
    ('0' as int + d) as char
  }

  /** Decimal digits of a natural number, without leading zeros. */
  function NatToDigits(n: nat): (s: string)
    ensures |s| > 0 && AllDigits(s)
  {
    if n < 10 then [DigitChar(n)] else NatToDigits(n / 10) + [DigitChar(n % 10)]
  }

  /** The text `printf("%d")` and `ostream << int` produce. */
  function IntToString(i: int): string {
    if i < 0 then "-" + NatToDigits(-i) else NatToDigits(i)
  }

  lemma {:induction false} DigitsValueOfNatToDigits(n: nat)
    ensures DigitsValue(NatToDigits(n)) == n
  {
    if n >= 10 {
      DigitsValueOfNatToDigits(n / 10);
      var s := NatToDigits(n);
      assert s[..|s| - 1] == NatToDigits(n / 10);
    }
  }

  lemma LeadingDigitsOfAllDigits(s: string)
    requires AllDigits(s)
    ensures LeadingDigits(s) == |s|
  {
  }

  /** `std::stoi` reads back every 32-bit value that `%d` writes. */
  lemma StoiOfIntToString(i: int)
    requires Int32Min <= i <= Int32Max
    ensures Stoi(IntToString(i)) == Some(i)
  {
    var s := IntToString(i);
    var digits := NatToDigits(if i < 0 then -i else i);
    DigitsValueOfNatToDigits(if i < 0 then -i else i);
    LeadingDigitsOfAllDigits(digits);
    assert LeadingSpaces(s) == 0;
    if i < 0 {
      assert s[0..][1..] == digits;
      assert digits[..|digits|] == digits;
    } else {
      assert s[0..] == digits;
      assert IsDigit(digits[0]);
      assert digits[0..] == digits;
      assert digits[..|digits|] == digits;
    }
  }
}
