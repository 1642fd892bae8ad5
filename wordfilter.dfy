/** The wordfilter service (app/wordfilter/service/server/src/
    wordfilter_server.cpp): a blocklist built once at start-up, holding
    "corinthians" and then random 11-character alphanumeric strings, and
    `is_valid_word`, which rejects exactly the listed words. `rand()` is
    the input `rand`, giving the value of the `k`-th call for every `k`. */
module Wordfilter {

  /** The characters `gen_random_string` draws from: digits, upper case,
      lower case. */
  const Alphanum: string := "0123456789ABCDEFGHIJKLMNOPQRSTUVWXYZabcdefghijklmnopqrstuvwxyz"

  /** The first entry of every nonempty blocklist. */
  const FirstWord: string := "corinthians"

  /** The length of the random entries. */
  const RandomLength: nat := 11

  /** A string of length `len` over the alphabet. */
  predicate IsEntry(w: string, len: nat) {
    |w| == len && forall i :: 0 <= i < |w| ==> w[i] in Alphanum
  }

  /** The alphabet holds 62 characters, so `rand() % 62` indexes all of it. */
  lemma AlphanumSize()
    ensures |Alphanum| == 62
  {
  }

  /** `gen_random_string(len)` whose calls to `rand()` are the ones numbered
      `base`, `base + 1`, …: character `i` is `alphanum[rand() % 62]`. */
  function RandomString(len: nat, rand: nat -> nat, base: nat): (s: string) {
    seq(len, (i: nat) => Alphanum[rand(base + i) % 62])
  }

  /** A random string has the requested length and only characters of the
      alphabet. */
  lemma RandomStringShape(len: nat, rand: nat -> nat, base: nat)
    ensures IsEntry(RandomString(len, rand, base), len)
  {
  }

  /** The random entries after "corinthians", `len` characters each: entry
      `k` uses the `len` calls to `rand()` from `len * k` on. */
  function RandomEntries(count: nat, len: nat, rand: nat -> nat): seq<string> {
    seq(count, (k: nat) => RandomString(len, rand, len * k))
  }

  /** The blocklist the constructor builds for `n_invalid_words = n`. */
  function Blocklist(n: int, rand: nat -> nat): seq<string> {
    if n > 0 then [FirstWord] + RandomEntries(n - 1, RandomLength, rand) else []
  }

  /** The blocklist has max(n, 0) entries, starts with "corinthians" when
      n > 0, and every other entry is 11 alphanumeric characters. */
  lemma BlocklistShape(n: int, rand: nat -> nat)
    ensures |Blocklist(n, rand)| == if n > 0 then n else 0
    ensures n > 0 ==> Blocklist(n, rand)[0] == FirstWord
    ensures forall i :: 1 <= i < |Blocklist(n, rand)| ==> IsEntry(Blocklist(n, rand)[i], RandomLength)
  {
    if n > 0 {
      forall i | 1 <= i < |Blocklist(n, rand)|
        ensures IsEntry(Blocklist(n, rand)[i], RandomLength)
      {
        BlocklistAt(n, rand, i);
        RandomStringShape(RandomLength, rand, RandomLength * (i - 1));
      }
    }
  }

  /** Entry `i` after "corinthians" is the random string drawn `i - 1`-th. */
  lemma BlocklistAt(n: int, rand: nat -> nat, i: nat)
    requires n > 0 && 1 <= i < |Blocklist(n, rand)|
    ensures Blocklist(n, rand)[i] == RandomString(RandomLength, rand, RandomLength * (i - 1))
  {
    assert Blocklist(n, rand)[i] == RandomEntries(n - 1, RandomLength, rand)[i - 1];
  }

  /** Every entry of the blocklist, "corinthians" included, has length 11. */
  lemma BlocklistLengths(n: int, rand: nat -> nat)
    ensures forall w :: w in Blocklist(n, rand) ==> |w| == RandomLength
  {
    BlocklistShape(n, rand);
    var b := Blocklist(n, rand);
    forall w | w in b
      ensures |w| == RandomLength
    {
      var i :| 0 <= i < |b| && b[i] == w;
      if i == 0 && n > 0 {
        assert w == FirstWord;
      }
    }
  }

  class TWordfilterServiceHandler {
    /** `invalid_words`. */
    var invalidWords: seq<string>

    /** Whether `is_valid_word` accepts `w`. */
    predicate Accepts(w: string)
      reads this
    {
      w !in invalidWords
    }

    /** The constructor: "corinthians" when n > 0, then n - 1 random strings
        of length 11. The logging flag is unused. */
    constructor (nInvalidWords: int, rand: nat -> nat)
      ensures invalidWords == Blocklist(nInvalidWords, rand)
    {
      var words: seq<string> := [];
      if nInvalidWords > 0 {
        words := words + [FirstWord];
      }
      var i := 0;
      while i < nInvalidWords - 1
        invariant 0 <= i && (nInvalidWords > 0 ==> i <= nInvalidWords - 1)
        invariant nInvalidWords > 0 ==> words == [FirstWord] + RandomEntries(i, RandomLength, rand)
        invariant nInvalidWords <= 0 ==> words == [] && i == 0
        decreases nInvalidWords - 1 - i
      {
        var s := GenRandomString(RandomLength, rand, RandomLength * i);
        words := words + [s];
        i := i + 1;
      }
      invalidWords := words;
    }

    /** `is_valid_word`: scan the list and answer false at the first entry
        equal to the word, true when none is. */
    method IsValidWord(word: string) returns (valid: bool)
      ensures valid <==> word !in invalidWords
      ensures valid == Accepts(word)
    {
      for k := 0 to |invalidWords|
        invariant word !in invalidWords[..k]
      {
        if word == invalidWords[k] {
          return false;
        }
      }
      assert invalidWords[..|invalidWords|] == invalidWords;
      return true;
    }

    /** `gen_random_string(len)`: append `len` characters drawn from the
        alphabet, using the calls to `rand()` from `base` on. */
    static method GenRandomString(len: int, rand: nat -> nat, base: nat) returns (s: string)
      ensures len >= 0 ==> s == RandomString(len, rand, base)
      ensures len < 0 ==> s == []
    {
      s := [];
      var i := 0;
      while i < len
        invariant 0 <= i && (len >= 0 ==> i <= len) && (len < 0 ==> i == 0)
        invariant s == RandomString(i, rand, base)
        decreases len - i
      {
        s := s + [Alphanum[rand(base + i) % 62]];
        i := i + 1;
      }
    }

    /** A word whose length is not 11 is accepted by every list the
        constructor builds. */
    lemma OtherLengthsAccepted(n: int, rand: nat -> nat, w: string)
      requires invalidWords == Blocklist(n, rand)
      requires |w| != RandomLength
      ensures Accepts(w)
    {
      BlocklistLengths(n, rand);
    }

    /** The wordfilter test: with a nonempty list, "corinthians" is
        rejected and "foobar" accepted. */
    lemma TestWords(n: int, rand: nat -> nat)
      requires invalidWords == Blocklist(n, rand) && n > 0
      ensures !Accepts("corinthians")
      ensures Accepts("foobar")
    {
      BlocklistShape(n, rand);
      OtherLengthsAccepted(n, rand, "foobar");
    }
  }
}
