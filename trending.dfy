/** The trending service's `process_post` (app/trending/service/server/src/
    trending_server.cpp): split a post's text into whitespace-separated
    words, and add one to the "hashtags" score of every `#word` the
    wordfilter accepts. The Redis sorted set is the `scores` map; the
    wordfilter's answers are an input. */
module Trending {
  import opened Common

  // ---------------------------------------------------------------------
  // Word extraction, as `std::istream >> std::string` does it

  /** The first position at or after `pos` that is not whitespace. */
  function SkipSpaces(s: string, pos: nat): (k: nat)
    requires pos <= |s|
    ensures pos <= k <= |s| && (k < |s| ==> !IsSpace(s[k]))
    ensures forall i :: pos <= i < k ==> IsSpace(s[i])
    decreases |s| - pos
  {
    if pos < |s| && IsSpace(s[pos]) then SkipSpaces(s, pos + 1) else pos
  }

  /** The first position at or after `pos` that is whitespace, or the end. */
  function WordEnd(s: string, pos: nat): (k: nat)
    requires pos <= |s|
    ensures pos <= k <= |s| && (k < |s| ==> IsSpace(s[k]))
    ensures forall i :: pos <= i < k ==> !IsSpace(s[i])
    decreases |s| - pos
  {
    if pos < |s| && !IsSpace(s[pos]) then WordEnd(s, pos + 1) else pos
  }

  /** One extraction from position `pos`: the word (empty once only
      whitespace is left) and the position after it. */
  function NextWord(s: string, pos: nat): (r: (string, nat))
    requires pos <= |s|
    ensures pos <= r.1 <= |s|
    ensures r.0 == "" ==> r.1 == |s|
    ensures r.0 != "" ==> pos < r.1 && (r.1 < |s| ==> IsSpace(s[r.1]))
  {
    var st := SkipSpaces(s, pos);
    var e := WordEnd(s, st);
    (s[st..e], e)
  }

  /** The words extracted from position `pos` on, in order. */
  function TokensFrom(s: string, pos: nat): seq<string>
    requires pos <= |s|
    decreases |s| - pos
  {
    var r := NextWord(s, pos);
    if r.0 == "" then [] else [r.0] + TokensFrom(s, r.1)
  }

  /** The words of a text. */
  function Tokens(s: string): seq<string> {
    TokensFrom(s, 0)
  }

  /** A nonempty string without whitespace. */
  predicate IsWord(w: string) {
    |w| > 0 && forall i :: 0 <= i < |w| ==> !IsSpace(w[i])
  }

  /** Every one of the strings is a word. */
  predicate AllWords(ws: seq<string>)
    decreases |ws|
  {
    |ws| == 0 || (IsWord(ws[0]) && AllWords(ws[1..]))
  }

  /** One extraction step of TokensFrom. */
  lemma {:induction false} TokensFromStep(s: string, pos: nat)
    requires pos <= |s|
    ensures NextWord(s, pos).0 == "" ==> TokensFrom(s, pos) == []
    ensures NextWord(s, pos).0 != "" ==> TokensFrom(s, pos) == [NextWord(s, pos).0] + TokensFrom(s, NextWord(s, pos).1)
  {
  }

  /** The hashtag a word carries: the text after a leading `#`, for words
      longer than the `#` alone. */
  function HashtagOf(w: string): (t: Option<string>)
    ensures t.Some? <==> |w| > 1 && w[0] == '#'
    ensures t.Some? ==> "#" + t.value == w && |t.value| > 0
  {
    if |w| > 1 && w[0] == '#' then Some(w[1..]) else None
  }

  // ---------------------------------------------------------------------
  // Scores

  /** A hashtag's score, 0 for one not in the set. */
  function Score(scores: map<string, int>, t: string): int {
    if t in scores then scores[t] else 0
  }

  /** `zincrby` by 1. */
  function Bump(scores: map<string, int>, t: string): (r: map<string, int>)
    ensures r.Keys == scores.Keys + {t}
    ensures Score(r, t) == Score(scores, t) + 1
    ensures forall u :: u != t ==> Score(r, u) == Score(scores, u)
  {
    scores[t := Score(scores, t) + 1]
  }

  /** The scores after the words `ws`, and whether a wordfilter call failed
      (which stops the walk, keeping the increments made before it). The
      wordfilter is asked about hashtags only. */
  function ProcessWords(scores: map<string, int>, ws: seq<string>, isValid: string -> Outcome<bool>)
    : (r: (map<string, int>, Outcome<()>))
    decreases |ws|
  {
    if |ws| == 0 then (scores, Ok(()))
    else match HashtagOf(ws[0])
      case None => ProcessWords(scores, ws[1..], isValid)
      case Some(t) =>
        match isValid(t)
        case Exc(f) => (scores, Exc(f))
        case Ok(valid) => ProcessWords(if valid then Bump(scores, t) else scores, ws[1..], isValid)
  }

  /** One word of ProcessWords. */
  lemma {:induction false} ProcessStep(scores: map<string, int>, w: string, rest: seq<string>, isValid: string -> Outcome<bool>)
    ensures HashtagOf(w).None? ==> ProcessWords(scores, [w] + rest, isValid) == ProcessWords(scores, rest, isValid)
    ensures (HashtagOf(w).Some? && isValid(HashtagOf(w).value).Exc?)
            ==> ProcessWords(scores, [w] + rest, isValid) == (scores, Exc(isValid(HashtagOf(w).value).fault))
    ensures HashtagOf(w).Some? && isValid(HashtagOf(w).value) == Ok(false)
            ==> ProcessWords(scores, [w] + rest, isValid) == ProcessWords(scores, rest, isValid)
    ensures HashtagOf(w).Some? && isValid(HashtagOf(w).value) == Ok(true)
            ==> ProcessWords(scores, [w] + rest, isValid) == ProcessWords(Bump(scores, HashtagOf(w).value), rest, isValid)
  {
    assert ([w] + rest)[0] == w && ([w] + rest)[1..] == rest;
  }

  /** How many of the words carry the hashtag `t`. */
  function Occurrences(ws: seq<string>, t: string): (n: nat)
    ensures n <= |ws|
    decreases |ws|
  {
    if |ws| == 0 then 0
    else (if HashtagOf(ws[0]) == Some(t) then 1 else 0) + Occurrences(ws[1..], t)
  }

  class TrendingServer {
    /** The "hashtags" sorted set of the "trending" Redis database. */
    var scores: map<string, int>

    constructor (initial: map<string, int>)
      ensures scores == initial
    {
      scores := initial;
    }

    /** `process_post`: extract the words one by one; for each hashtag, ask
        the wordfilter and, if it accepts, increment the hashtag's score.
        A failed wordfilter call is rethrown at once. */
    method ProcessPost(text: string, isValid: string -> Outcome<bool>) returns (r: Outcome<()>)
      modifies this
      ensures (scores, r) == ProcessWords(old(scores), Tokens(text), isValid)
    {
      var pos := 0;
      while pos < |text|
        invariant 0 <= pos <= |text|
        invariant ProcessWords(old(scores), Tokens(text), isValid) == ProcessWords(scores, TokensFrom(text, pos), isValid)
        decreases |text| - pos
      {
        var word, next := ExtractWord(text, pos);
        TokensFromStep(text, pos);
        ProcessStep(scores, word, TokensFrom(text, next), isValid);
        if |word| > 1 && word[0] == '#' {
          var tag := word[1..];
          var valid := isValid(tag);
          if valid.Exc? {
            return Exc(valid.fault);
          }
          if valid.value {
            scores := scores[tag := Score(scores, tag) + 1];
          }
        }
        pos := next;
      }
      r := Ok(());
    }

    /** `text_iss >> word`: skip whitespace, then take characters up to the
        next whitespace. */
    static method ExtractWord(text: string, pos: nat) returns (word: string, next: nat)
      requires pos <= |text|
      ensures (word, next) == NextWord(text, pos)
    {
      var start := pos;
      while start < |text| && IsSpace(text[start])
        invariant pos <= start <= |text|
        invariant SkipSpaces(text, start) == SkipSpaces(text, pos)
        decreases |text| - start
      {
        start := start + 1;
      }
      next := start;
      while next < |text| && !IsSpace(text[next])
        invariant start <= next <= |text|
        invariant WordEnd(text, next) == WordEnd(text, start)
        decreases |text| - next
      {
        next := next + 1;
      }
      word := text[start..next];
    }
  }

  // ---------------------------------------------------------------------
  // Properties

  /** Processing two word lists in a row is processing their concatenation;
      a failure in the first stops before the second. */
  lemma {:induction false} ProcessAppend(scores: map<string, int>, a: seq<string>, b: seq<string>,
                                         isValid: string -> Outcome<bool>)
    ensures var first := ProcessWords(scores, a, isValid);
      ProcessWords(scores, a + b, isValid)
      == if first.1.Exc? then first else ProcessWords(first.0, b, isValid)
    decreases |a|
  {
    if |a| == 0 {
      assert a + b == b;
    } else {
      assert (a + b)[0] == a[0] && (a + b)[1..] == a[1..] + b;
      match HashtagOf(a[0])
      case None => ProcessAppend(scores, a[1..], b, isValid);
      case Some(t) =>
        if isValid(t).Ok? {
          ProcessAppend(if isValid(t).value then Bump(scores, t) else scores, a[1..], b, isValid);
        }
    }
  }

  /** A wordfilter failure on a hashtag keeps exactly the scores of the words
      before it. */
  lemma {:induction false} FaultKeepsEarlier(scores: map<string, int>, a: seq<string>, w: string, b: seq<string>,
                          isValid: string -> Outcome<bool>)
    requires ProcessWords(scores, a, isValid).1.Ok?
    requires HashtagOf(w).Some? && isValid(HashtagOf(w).value).Exc?
    ensures ProcessWords(scores, a + [w] + b, isValid)
            == (ProcessWords(scores, a, isValid).0, Exc(isValid(HashtagOf(w).value).fault))
  {
    assert a + [w] + b == a + ([w] + b);
    ProcessAppend(scores, a, [w] + b, isValid);
    assert ([w] + b)[0] == w;
  }

  /** On success, a hashtag's score grows by one per accepted occurrence;
      a rejected hashtag's score is unchanged. */
  lemma {:induction false} ScoreCounts(scores: map<string, int>, ws: seq<string>, isValid: string -> Outcome<bool>, t: string)
    requires ProcessWords(scores, ws, isValid).1.Ok?
    ensures Occurrences(ws, t) > 0 ==> isValid(t).Ok?
    ensures Score(ProcessWords(scores, ws, isValid).0, t)
            == Score(scores, t) + (if isValid(t) == Ok(true) then Occurrences(ws, t) else 0)
    decreases |ws|
  {
    if |ws| > 0 {
      match HashtagOf(ws[0])
      case None => ScoreCounts(scores, ws[1..], isValid, t);
      case Some(u) =>
        ScoreCounts(if isValid(u).value then Bump(scores, u) else scores, ws[1..], isValid, t);
    }
  }

  /** A name no word carries as a hashtag keeps its score and its presence
      in the set, whatever the outcome. */
  lemma {:induction false} Untouched(scores: map<string, int>, ws: seq<string>, isValid: string -> Outcome<bool>, t: string)
    requires Occurrences(ws, t) == 0
    ensures (t in ProcessWords(scores, ws, isValid).0) == (t in scores)
    ensures t in scores ==> ProcessWords(scores, ws, isValid).0[t] == scores[t]
    decreases |ws|
  {
    if |ws| > 0 {
      match HashtagOf(ws[0])
      case None => Untouched(scores, ws[1..], isValid, t);
      case Some(u) =>
        if isValid(u).Ok? {
          Untouched(if isValid(u).value then Bump(scores, u) else scores, ws[1..], isValid, t);
        }
    }
  }

  /** The wordfilter is consulted on hashtags only: two filters that agree on
      the words' hashtags give the same outcome. */
  lemma {:induction false} ConsultsHashtagsOnly(scores: map<string, int>, ws: seq<string>,
                                                v1: string -> Outcome<bool>, v2: string -> Outcome<bool>)
    requires forall i :: 0 <= i < |ws| && HashtagOf(ws[i]).Some? ==> v1(HashtagOf(ws[i]).value) == v2(HashtagOf(ws[i]).value)
    ensures ProcessWords(scores, ws, v1) == ProcessWords(scores, ws, v2)
    decreases |ws|
  {
    if |ws| > 0 {
      match HashtagOf(ws[0])
      case None => ConsultsHashtagsOnly(scores, ws[1..], v1, v2);
      case Some(t) =>
        if v1(t).Ok? {
          ConsultsHashtagsOnly(if v1(t).value then Bump(scores, t) else scores, ws[1..], v1, v2);
        }
    }
  }

  /** Words none of which starts with `#` leave the scores as they were. */
  lemma {:induction false} NoHashtagWords(scores: map<string, int>, ws: seq<string>, isValid: string -> Outcome<bool>)
    requires forall i :: 0 <= i < |ws| ==> |ws[i]| > 0 && ws[i][0] != '#'
    ensures ProcessWords(scores, ws, isValid) == (scores, Ok(()))
    decreases |ws|
  {
    if |ws| > 0 {
      NoHashtagWords(scores, ws[1..], isValid);
    }
  }

  /** No word extracted from position `pos` on has whitespace in it. */
  lemma {:induction false} TokensAreWords(s: string, pos: nat)
    requires pos <= |s|
    ensures forall i :: 0 <= i < |TokensFrom(s, pos)| ==> IsWord(TokensFrom(s, pos)[i])
    decreases |s| - pos
  {
    TokensFromStep(s, pos);
    var w := NextWord(s, pos).0;
    var next := NextWord(s, pos).1;
    if w != "" {
      TokensAreWords(s, next);
      var st := SkipSpaces(s, pos);
      assert w == s[st..next];
      assert forall j :: 0 <= j < |w| ==> w[j] == s[st + j];
      assert IsWord(w);
    }
  }

  /** When the text holds no `#` from `pos` on, no word extracted from there
      starts with `#`. */
  lemma {:induction false} TokensWithoutHash(s: string, pos: nat)
    requires pos <= |s|
    requires forall i :: pos <= i < |s| ==> s[i] != '#'
    ensures forall i :: 0 <= i < |TokensFrom(s, pos)| ==> |TokensFrom(s, pos)[i]| > 0 && TokensFrom(s, pos)[i][0] != '#'
    decreases |s| - pos
  {
    TokensFromStep(s, pos);
    var next := NextWord(s, pos).1;
    if NextWord(s, pos).0 != "" {
      TokensWithoutHash(s, next);
      var st := SkipSpaces(s, pos);
      assert NextWord(s, pos).0[0] == s[st];
    }
  }

  /** A text without `#` leaves the scores as they were, and the wordfilter
      is never asked. */
  lemma {:induction false} NoHashUnchanged(scores: map<string, int>, text: string, isValid: string -> Outcome<bool>)
    requires forall i :: 0 <= i < |text| ==> text[i] != '#'
    ensures ProcessWords(scores, Tokens(text), isValid) == (scores, Ok(()))
  {
    TokensWithoutHash(text, 0);
    NoHashtagWords(scores, Tokens(text), isValid);
  }

  // ---------------------------------------------------------------------
  // Extraction from a joined text

  /** Whitespace at `q` is skipped. */
  lemma {:induction false} SpaceAt(s: string, q: nat)
    requires q < |s| && IsSpace(s[q])
    ensures TokensFrom(s, q) == TokensFrom(s, q + 1)
  {
    assert SkipSpaces(s, q) == SkipSpaces(s, q + 1);
    assert NextWord(s, q) == NextWord(s, q + 1);
    TokensFromStep(s, q);
    TokensFromStep(s, q + 1);
  }

  /** WordEnd is the end of the run of non-whitespace. */
  lemma {:induction false} WordEndAt(s: string, q: nat, e: nat)
    requires q <= e <= |s| && (e == |s| || IsSpace(s[e]))
    requires forall i :: q <= i < e ==> !IsSpace(s[i])
    ensures WordEnd(s, q) == e
    decreases e - q
  {
    if q < e {
      WordEndAt(s, q + 1, e);
    }
  }

  /** A word without whitespace at `q`, followed by whitespace or the end,
      is the next word extracted. */
  lemma {:induction false} WordAt(s: string, q: nat, w: string)
    requires q + |w| <= |s| && s[q..q + |w|] == w
    requires IsWord(w)
    requires q + |w| == |s| || IsSpace(s[q + |w|])
    ensures TokensFrom(s, q) == [w] + TokensFrom(s, q + |w|)
  {
    assert forall i :: q <= i < q + |w| ==> s[i] == w[i - q];
    assert SkipSpaces(s, q) == q;
    WordEndAt(s, q, q + |w|);
    TokensFromStep(s, q);
  }

  /** The words separated by single spaces. */
  function Join(ws: seq<string>): string
    decreases |ws|
  {
    if |ws| == 0 then "" else if |ws| == 1 then ws[0] else ws[0] + " " + Join(ws[1..])
  }

  /** The text from `q` on is the words `ws` separated by single spaces. */
  predicate JoinedAt(s: string, q: nat, ws: seq<string>)
    decreases |ws|
  {
    q <= |s| &&
    if |ws| == 0 then q == |s|
    else
      var e := q + |ws[0]|;
      e <= |s| && s[q..e] == ws[0] &&
      if |ws| == 1 then e == |s|
      else e < |s| && s[e] == ' ' && JoinedAt(s, e + 1, ws[1..])
  }

  /** Splitting words joined by spaces gives the words back, when each is
      nonempty and has no whitespace. */
  lemma {:induction false} TokensOfJoin(ws: seq<string>)
    requires AllWords(ws)
    ensures Tokens(Join(ws)) == ws
  {
    JoinIsJoinedAt(Join(ws), 0, ws);
    JoinedTokens(Join(ws), 0, ws);
  }

  /** Words separated by single spaces are extracted one by one. */
  lemma {:induction false} JoinedTokens(s: string, q: nat, ws: seq<string>)
    requires JoinedAt(s, q, ws) && AllWords(ws)
    ensures TokensFrom(s, q) == ws
    decreases |ws|
  {
    if |ws| == 0 {
      TokensFromStep(s, q);
    } else if |ws| == 1 {
      LastWord(s, q, ws[0]);
    } else {
      var e := q + |ws[0]|;
      WordThenSpace(s, q, ws[0]);
      JoinedTokens(s, e + 1, ws[1..]);
      assert ws == [ws[0]] + ws[1..];
    }
  }

  /** A word that ends the text is the last word extracted. */
  lemma {:induction false} LastWord(s: string, q: nat, w: string)
    requires q + |w| == |s| && s[q..q + |w|] == w && IsWord(w)
    ensures TokensFrom(s, q) == [w]
  {
    WordAt(s, q, w);
    TokensFromStep(s, q + |w|);
  }

  /** A word followed by a space is extracted, and extraction resumes after
      the space. */
  lemma {:induction false} WordThenSpace(s: string, q: nat, w: string)
    requires q + |w| < |s| && s[q..q + |w|] == w && IsWord(w) && s[q + |w|] == ' '
    ensures TokensFrom(s, q) == [w] + TokensFrom(s, q + |w| + 1)
  {
    WordAt(s, q, w);
    SpaceAt(s, q + |w|);
  }

  /** The join of the words, found at `q`, is the words joined at `q`. */
  lemma {:induction false} JoinIsJoinedAt(s: string, q: nat, ws: seq<string>)
    requires q <= |s| && s[q..] == Join(ws)
    ensures JoinedAt(s, q, ws)
    decreases |ws|
  {
    if |ws| == 1 {
      assert s[q..q + |ws[0]|] == s[q..];
    } else if |ws| > 1 {
      var w := ws[0];
      var rest := Join(ws[1..]);
      assert s[q..] == w + " " + rest;
      SplitAt(s, q, w, rest);
      JoinIsJoinedAt(s, q + |w| + 1, ws[1..]);
    }
  }

  /** The pieces of a word, a space and a rest found at `q`. */
  lemma {:induction false} SplitAt(s: string, q: nat, w: string, rest: string)
    requires q <= |s| && s[q..] == w + " " + rest
    ensures q + |w| + 1 <= |s|
    ensures s[q..q + |w|] == w && s[q + |w|] == ' ' && s[q + |w| + 1..] == rest
  {
    var t := s[q..];
    assert t[..|w|] == w;
    assert t[|w|] == ' ';
    assert t[|w| + 1..] == rest;
  }

  // ---------------------------------------------------------------------
  // Outcome and the posts of the service's tests

  /** `process_post` succeeds exactly when the wordfilter answers for every
      hashtag of the text. */
  lemma {:induction false} AnsweredSucceeds(scores: map<string, int>, ws: seq<string>, isValid: string -> Outcome<bool>)
    ensures ProcessWords(scores, ws, isValid).1.Ok?
            <==> forall i :: 0 <= i < |ws| && HashtagOf(ws[i]).Some? ==> isValid(HashtagOf(ws[i]).value).Ok?
    decreases |ws|
  {
    if |ws| > 0 {
      match HashtagOf(ws[0])
      case None =>
        AnsweredSucceeds(scores, ws[1..], isValid);
        assert forall i :: 1 <= i < |ws| ==> ws[i] == ws[1..][i - 1];
      case Some(t) =>
        if isValid(t).Ok? {
          AnsweredSucceeds(if isValid(t).value then Bump(scores, t) else scores, ws[1..], isValid);
          assert forall i :: 1 <= i < |ws| ==> ws[i] == ws[1..][i - 1];
        }
    }
  }

  /** When the wordfilter accepts every hashtag of the words, processing
      succeeds and every score grows by the number of its occurrences. */
  lemma {:induction false} AcceptedCounts(scores: map<string, int>, ws: seq<string>, isValid: string -> Outcome<bool>, t: string)
    requires forall i :: 0 <= i < |ws| && HashtagOf(ws[i]).Some? ==> isValid(HashtagOf(ws[i]).value) == Ok(true)
    ensures ProcessWords(scores, ws, isValid).1.Ok?
    ensures Score(ProcessWords(scores, ws, isValid).0, t) == Score(scores, t) + Occurrences(ws, t)
  {
    assert forall i :: 0 <= i < |ws| && HashtagOf(ws[i]).Some? ==> isValid(HashtagOf(ws[i]).value).Ok?;
    AnsweredSucceeds(scores, ws, isValid);
    ScoreCounts(scores, ws, isValid, t);
    if Occurrences(ws, t) > 0 {
      var i := OccurrenceAt(ws, t);
      assert isValid(t) == Ok(true);
    }
  }

  /** An occurrence of the hashtag `t` has a position. */
  lemma {:induction false} OccurrenceAt(ws: seq<string>, t: string) returns (i: nat)
    requires Occurrences(ws, t) > 0
    ensures i < |ws| && HashtagOf(ws[i]) == Some(t)
    decreases |ws|
  {
    if HashtagOf(ws[0]) == Some(t) {
      i := 0;
    } else {
      var j := OccurrenceAt(ws[1..], t);
      i := j + 1;
    }
  }

  const Post1: string := "#Lorem ipsum dolor sit amet"
  const Post2: string := "Lorem #ipsum dolor sit amet"
  const Post3: string := "Lorem ipsum #dolor #sit amet"
  const Words1: seq<string> := ["#Lorem", "ipsum", "dolor", "sit", "amet"]
  const Words2: seq<string> := ["Lorem", "#ipsum", "dolor", "sit", "amet"]
  const Words3: seq<string> := ["Lorem", "ipsum", "#dolor", "#sit", "amet"]

  /** The words of the first and fourth setup post. */
  lemma Post1Words()
    ensures Tokens(Post1) == Words1
  {
    Post1Join();
    Words1AreWords();
    TokensOfJoin(Words1);
  }

  /** The first and fourth setup post is its words joined by spaces. */
  lemma Post1Join()
    ensures Join(Words1) == Post1
  {
  }

  /** Every word of the first and fourth setup post is a word. */
  lemma Words1AreWords()
    ensures AllWords(Words1)
  {
  }

  /** The words of the second setup post. */
  lemma Post2Words()
    ensures Tokens(Post2) == Words2
  {
    Post2Join();
    Words2AreWords();
    TokensOfJoin(Words2);
  }

  /** The second setup post is its words joined by spaces. */
  lemma Post2Join()
    ensures Join(Words2) == Post2
  {
  }

  /** Every word of the second setup post is a word. */
  lemma Words2AreWords()
    ensures AllWords(Words2)
  {
  }

  /** The words of the third setup post. */
  lemma Post3Words()
    ensures Tokens(Post3) == Words3
  {
    Post3Join();
    Words3AreWords();
    TokensOfJoin(Words3);
  }

  /** The third setup post is its words joined by spaces. */
  lemma Post3Join()
    ensures Join(Words3) == Post3
  {
  }

  /** Every word of the third setup post is a word. */
  lemma Words3AreWords()
    ensures AllWords(Words3)
  {
  }

  /** The wordfilter accepts the four hashtags of the setup posts. */
  predicate AcceptsSetup(isValid: string -> Outcome<bool>) {
    isValid("Lorem") == Ok(true) && isValid("ipsum") == Ok(true)
    && isValid("dolor") == Ok(true) && isValid("sit") == Ok(true)
  }

  /** The scores of the five names of the setup posts, before and after. */
  predicate Grew(before: map<string, int>, after: map<string, int>, lorem: nat, ipsum: nat, dolor: nat, sit: nat) {
    Score(after, "Lorem") == Score(before, "Lorem") + lorem
    && Score(after, "ipsum") == Score(before, "ipsum") + ipsum
    && Score(after, "dolor") == Score(before, "dolor") + dolor
    && Score(after, "sit") == Score(before, "sit") + sit
    && Score(after, "amet") == Score(before, "amet")
  }

  /** Scores grown in two steps grew by the sums. */
  lemma GrewTrans(a: map<string, int>, b: map<string, int>, c: map<string, int>,
                  l1: nat, i1: nat, d1: nat, s1: nat, l2: nat, i2: nat, d2: nat, s2: nat)
    requires Grew(a, b, l1, i1, d1, s1) && Grew(b, c, l2, i2, d2, s2)
    ensures Grew(a, c, l1 + l2, i1 + i2, d1 + d2, s1 + s2)
  {
  }

  /** Bumping one of the setup hashtags grows that one only. */
  lemma BumpGrew(scores: map<string, int>, t: string)
    requires t in {"Lorem", "ipsum", "dolor", "sit"}
    ensures Grew(scores, Bump(scores, t), if t == "Lorem" then 1 else 0, if t == "ipsum" then 1 else 0,
                 if t == "dolor" then 1 else 0, if t == "sit" then 1 else 0)
  {
    assert t != "amet";
  }

  /** The words of "#Lorem ipsum dolor sit amet" bump "Lorem" and nothing else. */
  lemma Words1Effect(scores: map<string, int>, isValid: string -> Outcome<bool>)
    requires isValid("Lorem") == Ok(true)
    ensures ProcessWords(scores, Words1, isValid) == (Bump(scores, "Lorem"), Ok(()))
  {
    var ws := Words1;
    assert ws == [ws[0]] + ws[1..];
    assert HashtagOf(ws[0]) == Some("Lorem");
    ProcessStep(scores, ws[0], ws[1..], isValid);
    NoHashtagWords(Bump(scores, "Lorem"), ws[1..], isValid);
  }

  /** The words of "Lorem #ipsum dolor sit amet" bump "ipsum" and nothing else. */
  lemma Words2Effect(scores: map<string, int>, isValid: string -> Outcome<bool>)
    requires isValid("ipsum") == Ok(true)
    ensures ProcessWords(scores, Words2, isValid) == (Bump(scores, "ipsum"), Ok(()))
  {
    var ws := Words2;
    assert ws == [ws[0]] + ws[1..] && ws[1..] == [ws[1]] + ws[2..];
    assert HashtagOf(ws[1]) == Some("ipsum");
    ProcessStep(scores, ws[0], ws[1..], isValid);
    ProcessStep(scores, ws[1], ws[2..], isValid);
    NoHashtagWords(Bump(scores, "ipsum"), ws[2..], isValid);
  }

  /** The words of "Lorem ipsum #dolor #sit amet" bump "dolor", then "sit". */
  lemma Words3Effect(scores: map<string, int>, isValid: string -> Outcome<bool>)
    requires isValid("dolor") == Ok(true) && isValid("sit") == Ok(true)
    ensures ProcessWords(scores, Words3, isValid) == (Bump(Bump(scores, "dolor"), "sit"), Ok(()))
  {
    var ws := Words3;
    var after := Bump(scores, "dolor");
    assert ws == [ws[0]] + ws[1..] && ws[1..] == [ws[1]] + ws[2..];
    assert ws[2..] == [ws[2]] + ws[3..] && ws[3..] == [ws[3]] + ws[4..];
    assert HashtagOf(ws[2]) == Some("dolor") && HashtagOf(ws[3]) == Some("sit");
    ProcessStep(scores, ws[0], ws[1..], isValid);
    ProcessStep(scores, ws[1], ws[2..], isValid);
    ProcessStep(scores, ws[2], ws[3..], isValid);
    ProcessStep(after, ws[3], ws[4..], isValid);
    NoHashtagWords(Bump(after, "sit"), ws[4..], isValid);
  }

  /** The four posts the trending tests send before fetching: with the
      wordfilter accepting their hashtags, every post succeeds, "Lorem"
      gains two and "ipsum", "dolor" and "sit" one each, so all four are in
      the set afterwards. */
  lemma SetupPosts(scores: map<string, int>, isValid: string -> Outcome<bool>)
    requires AcceptsSetup(isValid)
    ensures var r1 := ProcessWords(scores, Tokens(Post1), isValid);
      var r2 := ProcessWords(r1.0, Tokens(Post2), isValid);
      var r3 := ProcessWords(r2.0, Tokens(Post3), isValid);
      var r4 := ProcessWords(r3.0, Tokens(Post1), isValid);
      && r1.1.Ok? && r2.1.Ok? && r3.1.Ok? && r4.1.Ok?
      && Grew(scores, r4.0, 2, 1, 1, 1)
      && {"Lorem", "ipsum", "dolor", "sit"} <= r4.0.Keys
  {
    var s1 := Bump(scores, "Lorem");
    var s2 := Bump(s1, "ipsum");
    var s3a := Bump(s2, "dolor");
    var s3 := Bump(s3a, "sit");
    var s4 := Bump(s3, "Lorem");
    Post1Words();
    Post2Words();
    Post3Words();
    Words1Effect(scores, isValid);
    Words2Effect(s1, isValid);
    Words3Effect(s2, isValid);
    Words1Effect(s3, isValid);
    BumpGrew(scores, "Lorem");
    BumpGrew(s1, "ipsum");
    GrewTrans(scores, s1, s2, 1, 0, 0, 0, 0, 1, 0, 0);
    BumpGrew(s2, "dolor");
    GrewTrans(scores, s2, s3a, 1, 1, 0, 0, 0, 0, 1, 0);
    BumpGrew(s3a, "sit");
    GrewTrans(scores, s3a, s3, 1, 1, 1, 0, 0, 0, 0, 1);
    BumpGrew(s3, "Lorem");
    GrewTrans(scores, s3, s4, 1, 1, 1, 1, 1, 0, 0, 0);
  }
}
