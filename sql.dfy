/** What the backend servers read back from PostgreSQL, and the reading of
    the integers they print into WHERE clauses. */
module Sql {
  import opened Common

  /** The filter every listing of accounts and posts starts with. */
  const ActiveOnly: string := "active = true"

  /** The row of an `INSERT ... RETURNING id, created_at`. */
  datatype Inserted = Inserted(id: int, createdAt: int)

  /** An optional `-` and the longest run of digits at the front of `s`:
      their value and how many characters they take. */
  function ReadInt(s: string): (r: Option<(int, nat)>)
    ensures r.Some? ==> 0 < r.value.1 <= |s|
  {
    var signLen := if |s| > 0 && s[0] == '-' then 1 else 0;
    var d := s[signLen..];
    var k := LeadingDigits(d);
    if k == 0 then None
    else Some((if signLen == 1 then -(DigitsValue(d[..k]) as int) else DigitsValue(d[..k]), signLen + k))
  }

  lemma {:induction false} LeadingDigitsOfPrefix(ds: string, rest: string)
    requires AllDigits(ds)
    requires |rest| == 0 || !IsDigit(rest[0])
    ensures LeadingDigits(ds + rest) == |ds|
  {
    if |ds| > 0 {
      assert (ds + rest)[1..] == ds[1..] + rest;
      LeadingDigitsOfPrefix(ds[1..], rest);
    } else {
      assert ds + rest == rest;
    }
  }

  /** A run of digits followed by anything but a digit reads back as its value. */
  lemma ReadDigits(digits: string, rest: string)
    requires |digits| > 0 && AllDigits(digits)
    requires |rest| == 0 || !IsDigit(rest[0])
    ensures ReadInt(digits + rest) == Some((DigitsValue(digits) as int, |digits|))
  {
    LeadingDigitsOfPrefix(digits, rest);
    assert IsDigit(digits[0]);
    assert (digits + rest)[0..] == digits + rest;
    assert (digits + rest)[..|digits|] == digits;
  }

  /** What `<< n` printed, followed by anything but a digit, reads back as `n`. */
  lemma ReadIntOfIntToString(n: int, rest: string)
    requires |rest| == 0 || !IsDigit(rest[0])
    ensures ReadInt(IntToString(n) + rest) == Some((n, |IntToString(n)|))
  {
    var digits := NatToDigits(if n < 0 then -n else n);
    DigitsValueOfNatToDigits(if n < 0 then -n else n);
    LeadingDigitsOfPrefix(digits, rest);
    if n < 0 {
      var s := IntToString(n) + rest;
      assert s[1..] == digits + rest;
      assert (digits + rest)[..|digits|] == digits;
    } else {
      ReadDigits(digits, rest);
    }
  }
}
