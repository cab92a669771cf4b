/** Fuzzy search: a greedy scan that is complete for subsequences, and a stable ranking. */
module Fuzzy {
  import opened Basics
  import opened Text

  datatype FuzzyMatch = FuzzyMatch(matches: bool, score: real)

  // ----- subsequences -----

  /** Strictly increasing positions in the text that spell the query. */
  predicate Spells(positions: seq<nat>, query: string, text: string) {
    && |positions| == |query|
    && (forall k :: 0 <= k < |positions| ==> positions[k] < |text| && text[positions[k]] == query[k])
    && (forall k :: 0 < k < |positions| ==> positions[k - 1] < positions[k])
  }

  ghost predicate IsSubsequence(query: string, text: string) {
    exists positions :: Spells(positions, query, text)
  }

  /** The leftmost such positions, from index `i` on. */
  function Leftmost(query: string, text: string, i: nat): Option<seq<nat>>
    requires i <= |text|
    decreases |text| - i
  {
    if query == "" then Some([])
    else if i == |text| then None
    else if text[i] == query[0] then
      var rest := Leftmost(query[1..], text, i + 1);
      if rest.Some? then Some([i] + rest.value) else None
    else Leftmost(query, text, i + 1)
  }

  lemma {:induction false} LeftmostSpells(query: string, text: string, i: nat)
    requires i <= |text| && Leftmost(query, text, i).Some?
    ensures var ps := Leftmost(query, text, i).value;
            Spells(ps, query, text) && (ps != [] ==> i <= ps[0])
    decreases |text| - i
  {
    if query != "" {
      if text[i] == query[0] {
        LeftmostSpells(query[1..], text, i + 1);
        var rest := Leftmost(query[1..], text, i + 1).value;
        var ps := [i] + rest;
        forall k | 0 <= k < |ps| ensures ps[k] < |text| && text[ps[k]] == query[k] && (k > 0 ==> ps[k - 1] < ps[k]) {
          if k > 0 { assert ps[k] == rest[k - 1] && query[k] == query[1..][k - 1]; }
          if k > 1 { assert ps[k - 1] == rest[k - 2]; }
        }
      } else {
        LeftmostSpells(query, text, i + 1);
      }
    }
  }

  /** If any positions from `i` on spell the query, the leftmost ones exist. */
  lemma {:induction false} LeftmostExists(query: string, text: string, i: nat, ps: seq<nat>)
    requires i <= |text| && Spells(ps, query, text) && (ps != [] ==> i <= ps[0])
    ensures Leftmost(query, text, i).Some?
    decreases |text| - i
  {
    if query != "" {
      if text[i] == query[0] {
        LeftmostExists(query[1..], text, i + 1, ps[1..]);
      } else {
        LeftmostExists(query, text, i + 1, ps);
      }
    }
  }

  /** The greedy scan finds a match exactly when there is one. */
  lemma GreedyIsComplete(query: string, text: string)
    ensures Leftmost(query, text, 0).Some? <==> IsSubsequence(query, text)
  {
    if Leftmost(query, text, 0).Some? {
      LeftmostSpells(query, text, 0);
    }
    if ps :| Spells(ps, query, text) {
      LeftmostExists(query, text, 0, ps);
    }
  }

  lemma {:induction false} TooLong(query: string, text: string, i: nat)
    requires i <= |text| && |query| > |text| - i
    ensures Leftmost(query, text, i).None?
    decreases |text| - i
  {
    if i < |text| {
      TooLong(query[1..], text, i + 1);
      if text[i] != query[0] { TooLong(query, text, i + 1); }
    }
  }

  // ----- scores -----

  predicate IsBoundary(text: string, i: nat)
    requires i <= |text|
  {
    i == 0 || IsSpace(text[i - 1]) || text[i - 1] in "-_./:"
  }

  /** The last position, -1 if there is none. */
  function Last(ps: seq<nat>): int { if ps == [] then -1 else ps[|ps| - 1] }

  /** How many matches up to the last one stand side by side, not counting the first of
      them unless it starts the text. */
  function Streak(ps: seq<nat>): nat {
    if ps == [] then 0
    else
      var n := |ps| - 1;
      if ps[n] == Last(ps[..n]) + 1 then Streak(ps[..n]) + 1 else 0
  }

  /** The reward of a streak or the penalty of a gap; the first match has none. */
  function Gap(streak: int, previous: int, i: int): int {
    if streak > 0 then -5 * streak else if previous >= 0 then (i - previous - 1) * 2 else 0
  }

  /** The score of matched positions: streaks and word starts are good, gaps and late
      matches bad. */
  function Score(ps: seq<nat>, text: string): real
    requires forall k :: 0 <= k < |ps| ==> ps[k] < |text|
  {
    if ps == [] then 0.0
    else
      var n := |ps| - 1;
      Score(ps[..n], text) + Gap(Streak(ps), Last(ps[..n]), ps[n]) as real
      + (if IsBoundary(text, ps[n]) then -10.0 else 0.0) + ps[n] as real * 0.1
  }

  /** The scan for one spelling of the query. */
  function ScanResult(query: string, text: string): FuzzyMatch {
    var ps := Leftmost(query, text, 0);
    if ps.None? then FuzzyMatch(false, 0.0)
    else
      assert forall k :: 0 <= k < |ps.value| ==> ps.value[k] < |text| by { LeftmostSpells(query, text, 0); }
      FuzzyMatch(true, Score(ps.value, text) + if query != "" && query == text then -100.0 else 0.0)
  }

  lemma ScoreSnoc(ps: seq<nat>, text: string, i: nat)
    requires (forall k :: 0 <= k < |ps| ==> ps[k] < |text|) && i < |text|
    ensures Streak(ps + [i]) == if i == Last(ps) + 1 then Streak(ps) + 1 else 0
    ensures Score(ps + [i], text) == Score(ps, text)
              + Gap(Streak(ps + [i]), Last(ps), i) as real
              + (if IsBoundary(text, i) then -10.0 else 0.0) + i as real * 0.1
  {
    assert (ps + [i])[..|ps|] == ps;
  }

  /** Going on a streak scores better than any later match that starts no word, or where
      the streak's next letter starts one, too. */
  lemma StreakBeatsGap(ps: seq<nat>, text: string, j: nat)
    requires ps != [] && (forall k :: 0 <= k < |ps| ==> ps[k] < |text|) && Last(ps) + 1 < j < |text|
    requires IsBoundary(text, j) ==> IsBoundary(text, Last(ps) + 1)
    ensures Score(ps + [Last(ps) + 1], text) < Score(ps + [j], text)
  {
    hide Score, Streak, IsBoundary;
    ScoreSnoc(ps, text, Last(ps) + 1);
    ScoreSnoc(ps, text, j);
  }

  /** A nearer match scores better than a later one. */
  lemma NearerIsBetter(ps: seq<nat>, text: string, i: nat, j: nat)
    requires (forall k :: 0 <= k < |ps| ==> ps[k] < |text|) && Last(ps) + 1 < i < j < |text|
    requires IsBoundary(text, j) ==> IsBoundary(text, i)
    ensures Score(ps + [i], text) < Score(ps + [j], text)
  {
    hide Score, Streak, IsBoundary;
    ScoreSnoc(ps, text, i);
    ScoreSnoc(ps, text, j);
  }

  /** The start of a word is worth ten. */
  lemma WordStartIsBetter(ps: seq<nat>, text: string, other: string, i: nat)
    requires (forall k :: 0 <= k < |ps| ==> ps[k] < |text| && ps[k] < |other|) && i < |text| && i < |other|
    requires Score(ps, text) == Score(ps, other) && IsBoundary(text, i) && !IsBoundary(other, i)
    ensures Score(ps + [i], text) == Score(ps + [i], other) - 10.0
  {
    hide Score, Streak, IsBoundary;
    ScoreSnoc(ps, text, i);
    ScoreSnoc(ps, other, i);
  }

  /** The scan's positions are the least: no other match has an earlier one. */
  lemma {:induction false} LeftmostIsLeast(query: string, text: string, i: nat, ps: seq<nat>, k: nat)
    requires i <= |text| && Spells(ps, query, text) && (ps != [] ==> i <= ps[0]) && k < |ps|
    ensures Leftmost(query, text, i).Some? && |Leftmost(query, text, i).value| == |ps|
    ensures Leftmost(query, text, i).value[k] <= ps[k]
    decreases |text| - i
  {
    LeftmostExists(query, text, i, ps);
    LeftmostSpells(query, text, i);
    if text[i] == query[0] {
      if k > 0 { LeftmostIsLeast(query[1..], text, i + 1, ps[1..], k - 1); }
    } else {
      LeftmostIsLeast(query, text, i + 1, ps, k);
    }
  }

  lemma SpellsAt(ps: seq<nat>, query: string, text: string, k: nat)
    requires Spells(ps, query, text) && k < |query|
    ensures |ps| == |query| && ps[k] < |text| && text[ps[k]] == query[k]
    ensures k > 0 ==> ps[k - 1] < ps[k] && text[ps[k - 1]] == query[k - 1]
  {
  }

  lemma SpellsWithin(ps: seq<nat>, query: string, text: string)
    requires Spells(ps, query, text)
    ensures |ps| == |query| && forall k :: 0 <= k < |ps| ==> ps[k] < |text|
  {
  }

  /** Positions grow at least by one each. */
  lemma {:induction false} SpellsFrom(ps: seq<nat>, query: string, text: string, k: nat)
    requires Spells(ps, query, text) && k < |query|
    ensures |ps| == |query| && k <= ps[k] && ps[k] + (|ps| - k) <= |text|
    decreases |query| - k
  {
    hide Spells;
    SpellsAtLeast(ps, query, text, k);
    SpellsAt(ps, query, text, k);
    if k + 1 < |query| {
      SpellsAt(ps, query, text, k + 1);
      SpellsFrom(ps, query, text, k + 1);
    }
  }

  lemma {:induction false} SpellsAtLeast(ps: seq<nat>, query: string, text: string, k: nat)
    requires Spells(ps, query, text) && k < |query|
    ensures |ps| == |query| && k <= ps[k]
  {
    hide Spells;
    SpellsAt(ps, query, text, k);
    if k > 0 { SpellsAtLeast(ps, query, text, k - 1); }
  }

  predicate Within(ps: seq<nat>, text: string) { forall k :: 0 <= k < |ps| ==> ps[k] < |text| }

  /** The first positions are a streak, and score at least as well as the second ones. */
  predicate NoWorse(own: seq<nat>, query: string, ps: seq<nat>, text: string, n: nat) {
    && Within(own, query) && Within(ps, text)
    && Streak(own) == n && Streak(ps) <= n && Score(own, query) <= Score(ps, text)
  }

  /** Position by position, no match scores better than the query in itself. */
  lemma {:induction false} ExactScoresLeast(query: string, text: string, own: seq<nat>, ps: seq<nat>, n: nat)
    requires Spells(own, query, query) && Spells(ps, query, text) && n <= |query|
    requires |own| == |query| == |ps|
    requires (forall k :: 0 <= k < |own| ==> own[k] < |query|) && (forall k :: 0 <= k < |ps| ==> ps[k] < |text|)
    ensures NoWorse(own[..n], query, ps[..n], text, n)
  {
    hide Score, Streak, IsBoundary, Gap, Spells, Cost;
    if n == 0 {
      NoScore(query);
      NoScore(text);
      assert own[..0] == [] && ps[..0] == [];
    } else {
      var m := n - 1;
      ExactScoresLeast(query, text, own, ps, m);
      SpellsFrom(own, query, query, m);
      SpellsFrom(ps, query, text, m);
      if m > 0 {
        SpellsFrom(own, query, query, m - 1);
        SpellsFrom(ps, query, text, m - 1);
      }
      assert own[..n] == own[..m] + [m] && ps[..n] == ps[..m] + [ps[m]];
      ScoreCosts(own[..m], query, m);
      ScoreCosts(ps[..m], text, ps[m]);
      SameBoundary(query, text, own, ps, m);
      StepLeast(m, ps[m], Streak(ps[..n]), Last(ps[..m]), IsBoundary(query, m), IsBoundary(text, ps[m]));
    }
  }

  lemma SameBoundary(query: string, text: string, own: seq<nat>, ps: seq<nat>, m: nat)
    requires Spells(own, query, query) && Spells(ps, query, text) && m < |query| == |own| == |ps|
             && own[m] == m <= ps[m]
    requires m > 0 ==> own[m - 1] == m - 1 <= ps[m - 1]
    requires ps[m] <= |text|
    ensures m == 0 ==> IsBoundary(query, m)
    ensures ps[m] == Last(ps[..m]) + 1 ==> IsBoundary(query, m) == IsBoundary(text, ps[m])
    ensures Last(own[..m]) == m - 1 && m - 1 <= Last(ps[..m]) < ps[m] && (m == 0 ==> Last(ps[..m]) == -1)
  {
    hide Spells;
    SpellsAt(ps, query, text, m);
    if m > 0 {
      assert Last(own[..m]) == own[m - 1] && Last(ps[..m]) == ps[m - 1];
    }
  }

  /** What one match adds to the score. */
  function Cost(streak: int, last: int, i: nat, boundary: bool): real {
    Gap(streak, last, i) as real + (if boundary then -10.0 else 0.0) + i as real * 0.1
  }

  lemma ScoreCosts(ps: seq<nat>, text: string, i: nat)
    requires (forall k :: 0 <= k < |ps| ==> ps[k] < |text|) && i < |text|
    ensures Streak(ps + [i]) == if i == Last(ps) + 1 then Streak(ps) + 1 else 0
    ensures Score(ps + [i], text) == Score(ps, text) + Cost(Streak(ps + [i]), Last(ps), i, IsBoundary(text, i))
  {
    ScoreSnoc(ps, text, i);
  }

  /** One more match costs at least what it costs the query in itself. */
  lemma StepLeast(m: nat, i: nat, streak: nat, last: int, own: bool, boundary: bool)
    requires m <= i && m - 1 <= last < i && (m == 0 ==> own && last == -1)
    requires if i == last + 1 then 1 <= streak <= m + 1 && own == boundary else streak == 0
    ensures Cost(m + 1, m - 1, m, own) <= Cost(streak, last, i, boundary)
  {
  }

  lemma SpellsItself(query: string)
    ensures IsSubsequence(query, query)
  {
    assert Spells(seq(|query|, k => k), query, query);
  }

  /** The text that is the query scores better than any other text it matches. */
  lemma ExactIsBest(query: string, text: string)
    requires query != "" && text != query && ScanResult(query, text).matches
    ensures ScanResult(query, query).matches && ScanResult(query, query).score < ScanResult(query, text).score
  {
    hide Score, Leftmost, Spells, IsSubsequence;
    SpellsItself(query);
    GreedyIsComplete(query, query);
    LeftmostSpells(query, query, 0);
    LeftmostSpells(query, text, 0);
    var own, ps := Leftmost(query, query, 0).value, Leftmost(query, text, 0).value;
    SpellsWithin(own, query, query);
    SpellsWithin(ps, query, text);
    ExactScoresLeast(query, text, own, ps, |query|);
    assert own[..|query|] == own && ps[..|query|] == ps;
  }

  method MatchQuery(query: string, text: string) returns (m: FuzzyMatch)
    ensures m == ScanResult(query, text)
  {
    hide Score, Streak, IsBoundary, Leftmost;
    if |query| == 0 {
      LeftmostEnds("", text, 0);
      assert Score([], text) == 0.0 by { NoScore(text); }
      return FuzzyMatch(true, 0.0);
    }
    if |query| > |text| {
      TooLong(query, text, 0);
      return FuzzyMatch(false, 0.0);
    }
    var queryIndex := 0;
    var score := 0.0;
    var lastMatchIndex := -1;
    var consecutiveMatches := 0;
    ghost var found: seq<nat> := [];
    var i := 0;
    NoScore(text);
    assert query[0..] == query;
    PrependNothing(found, Leftmost(query, text, 0));
    while i < |text| && queryIndex < |query|
      invariant 0 <= i <= |text| && queryIndex == |found| <= |query|
      invariant forall k :: 0 <= k < |found| ==> found[k] < i
      invariant lastMatchIndex == Last(found)
      invariant consecutiveMatches == Streak(found) && score == Score(found, text)
      invariant Leftmost(query, text, 0) == Prepend(found, Leftmost(query[queryIndex..], text, i))
    {
      LeftmostStep(query, text, i, queryIndex, found);
      if text[i] == query[queryIndex] {
        ScoreSnoc(found, text, i);
        var isWordBoundary := IsBoundary(text, i);
        if lastMatchIndex == i - 1 {
          consecutiveMatches := consecutiveMatches + 1;
          score := score - (consecutiveMatches * 5) as real;
        } else {
          consecutiveMatches := 0;
          if lastMatchIndex >= 0 {
            score := score + ((i - lastMatchIndex - 1) * 2) as real;
          }
        }
        if isWordBoundary {
          score := score - 10.0;
        }
        score := score + i as real * 0.1;
        lastMatchIndex := i;
        queryIndex := queryIndex + 1;
        found := found + [i];
      }
      i := i + 1;
    }
    LeftmostEnds(query[queryIndex..], text, i);
    if queryIndex < |query| {
      return FuzzyMatch(false, 0.0);
    }
    assert query[queryIndex..] == "" && found + [] == found;
    if query == text {
      score := score - 100.0;
    }
    return FuzzyMatch(true, score);
  }

  lemma LeftmostEnds(query: string, text: string, i: nat)
    requires i <= |text|
    ensures query == "" ==> Leftmost(query, text, i) == Some([])
    ensures query != "" && i == |text| ==> Leftmost(query, text, i) == None
  {
  }

  lemma NoScore(text: string)
    ensures Score([], text) == 0.0 && Streak([]) == 0
  {
  }

  function Prepend(found: seq<nat>, more: Option<seq<nat>>): Option<seq<nat>> {
    if more.Some? then Some(found + more.value) else None
  }

  lemma PrependNothing(found: seq<nat>, more: Option<seq<nat>>)
    requires found == []
    ensures Prepend(found, more) == more
  {
    if more.Some? { assert found + more.value == more.value; }
  }

  lemma LeftmostStep(query: string, text: string, i: nat, q: nat, found: seq<nat>)
    requires i < |text| && q < |query|
    ensures Prepend(found, Leftmost(query[q..], text, i)) ==
              if text[i] == query[q] then Prepend(found + [i], Leftmost(query[q + 1..], text, i + 1))
              else Prepend(found, Leftmost(query[q..], text, i + 1))
  {
    assert query[q..][1..] == query[q + 1..];
    var rest := Leftmost(query[q + 1..], text, i + 1);
    if rest.Some? { assert found + ([i] + rest.value) == found + [i] + rest.value; }
  }

  // ----- one query -----

  predicate Letters(s: string) { |s| > 0 && forall i :: 0 <= i < |s| ==> 'a' <= s[i] <= 'z' }

  /** Letters then digits, or digits then letters. */
  predicate Parts(query: string, n: nat) {
    n <= |query| && ((Letters(query[..n]) && Digits(query[n..])) || (Digits(query[..n]) && Letters(query[n..])))
  }

  function FirstPart(query: string, n: nat): Option<nat>
    requires n <= |query|
    ensures var r := FirstPart(query, n);
            if r.Some? then Parts(query, r.value)
            else forall k: nat :: n <= k ==> !Parts(query, k)
    decreases |query| - n
  {
    if Parts(query, n) then Some(n) else if n == |query| then None else FirstPart(query, n + 1)
  }

  /** The query with its letters and digits swapped, or nothing. */
  function Swapped(query: string): string {
    var n := FirstPart(query, 0);
    if n.Some? then query[n.value..] + query[..n.value] else ""
  }

  predicate IsLetter(c: char) { 'a' <= c <= 'z' }

  lemma CutChangesKind(query: string, n: nat)
    requires Parts(query, n)
    ensures 0 < n < |query| && IsLetter(query[n]) != IsLetter(query[0])
    ensures forall k :: 0 <= k < n ==> IsLetter(query[k]) == IsLetter(query[0])
  {
    assert query[n] == query[n..][0] && query[0] == query[..n][0];
    forall k | 0 <= k < n ensures IsLetter(query[k]) == IsLetter(query[0]) { assert query[..n][k] == query[k]; }
  }

  /** A query has at most one such cut, so the swap is well defined. */
  lemma OneCut(query: string, m: nat, n: nat)
    requires Parts(query, m) && Parts(query, n)
    ensures m == n
  {
    CutChangesKind(query, m);
    CutChangesKind(query, n);
  }

  lemma SwappedIsSwap(query: string, n: nat)
    requires Parts(query, n)
    ensures Swapped(query) == query[n..] + query[..n] && Swapped(query) != ""
  {
    var m := FirstPart(query, 0);
    assert m.Some?;
    OneCut(query, m.value, n);
  }

  /** What it means to match, without any scan. */
  ghost predicate Hits(query: string, text: string, lower: string -> string) {
    || IsSubsequence(lower(query), lower(text))
    || exists n: nat :: Parts(lower(query), n) && IsSubsequence(lower(query)[n..] + lower(query)[..n], lower(text))
  }

  function MatchResult(query: string, text: string, lower: string -> string): FuzzyMatch {
    var queryLower, textLower := lower(query), lower(text);
    var primary := ScanResult(queryLower, textLower);
    if primary.matches || Swapped(queryLower) == "" || !ScanResult(Swapped(queryLower), textLower).matches then primary
    else FuzzyMatch(true, ScanResult(Swapped(queryLower), textLower).score + 5.0)
  }

  /** The matcher accepts exactly what it should. */
  lemma MatchesIffHits(query: string, text: string, lower: string -> string)
    ensures MatchResult(query, text, lower).matches <==> Hits(query, text, lower)
  {
    hide Leftmost, Score, IsSubsequence, Letters, Digits;
    var q, t := lower(query), lower(text);
    GreedyIsComplete(q, t);
    GreedyIsComplete(Swapped(q), t);
    forall n: nat | Parts(q, n) ensures Swapped(q) == q[n..] + q[..n] && Swapped(q) != "" { SwappedIsSwap(q, n); }
  }

  /** A query that matches by its swap only scores five worse than its swap itself would. */
  lemma SwapIsWorse(query: string, text: string, lower: string -> string, n: nat)
    requires Parts(lower(query), n) && !IsSubsequence(lower(query), lower(text))
    requires var swap := lower(query)[n..] + lower(query)[..n]; ScanResult(swap, lower(text)).matches
    ensures var swap := lower(query)[n..] + lower(query)[..n];
            MatchResult(query, text, lower) == FuzzyMatch(true, ScanResult(swap, lower(text)).score + 5.0)
  {
    hide Leftmost, Score, IsSubsequence, Letters, Digits;
    GreedyIsComplete(lower(query), lower(text));
    SwappedIsSwap(lower(query), n);
  }

  method Match(query: string, text: string, lower: string -> string) returns (m: FuzzyMatch)
    ensures m == MatchResult(query, text, lower)
    ensures m.matches <==> Hits(query, text, lower)
  {
    hide ScanResult, Hits, Swapped;
    MatchesIffHits(query, text, lower);
    var queryLower := lower(query);
    var textLower := lower(text);
    var primaryMatch := MatchQuery(queryLower, textLower);
    if primaryMatch.matches {
      return primaryMatch;
    }
    var swappedQuery := Swapped(queryLower);
    if swappedQuery == "" {
      return primaryMatch;
    }
    var swappedMatch := MatchQuery(swappedQuery, textLower);
    if !swappedMatch.matches {
      return primaryMatch;
    }
    return FuzzyMatch(true, swappedMatch.score + 5.0);
  }

  // ----- many items -----

  datatype Ranked<T> = Ranked(item: T, totalScore: real)

  function WordEnd(s: string, i: nat): (r: nat)
    requires i <= |s|
    ensures i <= r <= |s| && (forall k :: i <= k < r ==> !IsSpace(s[k])) && (r < |s| ==> IsSpace(s[r]))
    decreases |s| - i
  {
    if i < |s| && !IsSpace(s[i]) then WordEnd(s, i + 1) else i
  }

  /** The words between white space. */
  function Words(s: string): (words: seq<string>)
    ensures forall k :: 0 <= k < |words| ==> words[k] != "" && forall c :: c in words[k] ==> !IsSpace(c)
    ensures words == [] <==> forall c :: c in s ==> IsSpace(c)
    decreases |s|
  {
    if s == "" then []
    else if IsSpace(s[0]) then
      assert s == [s[0]] + s[1..];
      Words(s[1..])
    else
      var n := WordEnd(s, 0);
      assert s[0] in s;
      [s[..n]] + Words(s[n..])
  }

  ghost predicate HitsAll(tokens: seq<string>, text: string, lower: string -> string) {
    forall k :: 0 <= k < |tokens| ==> Hits(tokens[k], text, lower)
  }

  function TotalScore(tokens: seq<string>, text: string, lower: string -> string): real {
    if tokens == [] then 0.0
    else TotalScore(tokens[..|tokens| - 1], text, lower) + MatchResult(tokens[|tokens| - 1], text, lower).score
  }

  /** The items that all tokens hit, in their order, with their scores. */
  ghost function Hitting<T>(items: seq<T>, tokens: seq<string>, getText: T -> string,
                            lower: string -> string): seq<Ranked<T>> {
    if items == [] then []
    else
      var last := items[|items| - 1];
      Hitting(items[..|items| - 1], tokens, getText, lower)
      + if HitsAll(tokens, getText(last), lower) then [Ranked(last, TotalScore(tokens, getText(last), lower))] else []
  }

  predicate Sorted<T>(rs: seq<Ranked<T>>) {
    forall i, j :: 0 <= i < j < |rs| ==> rs[i].totalScore <= rs[j].totalScore
  }

  /** The entries with one score, in their order. */
  function WithScore<T>(rs: seq<Ranked<T>>, score: real): seq<Ranked<T>> {
    if rs == [] then []
    else WithScore(rs[..|rs| - 1], score) + if rs[|rs| - 1].totalScore == score then [rs[|rs| - 1]] else []
  }

  /** Sorting is stable and loses nothing: for every score the entries stay the same. */
  ghost predicate StablySorts<T(!new)>(sorted: seq<Ranked<T>>, rs: seq<Ranked<T>>) {
    Sorted(sorted) && forall score :: WithScore(sorted, score) == WithScore(rs, score)
  }

  /** The place after all entries that do not score higher. */
  function Place<T>(sorted: seq<Ranked<T>>, score: real): (i: nat)
    requires Sorted(sorted)
    ensures i <= |sorted| && (forall k :: 0 <= k < i ==> sorted[k].totalScore <= score)
            && (forall k :: i <= k < |sorted| ==> score < sorted[k].totalScore)
  {
    if sorted == [] || sorted[|sorted| - 1].totalScore <= score then |sorted| else Place(sorted[..|sorted| - 1], score)
  }

  lemma {:induction false} WithScoreConcat<T>(a: seq<Ranked<T>>, b: seq<Ranked<T>>, score: real)
    ensures WithScore(a + b, score) == WithScore(a, score) + WithScore(b, score)
  {
    if b == [] {
      assert a + b == a;
    } else {
      var n := |b| - 1;
      assert (a + b)[..|a + b| - 1] == a + b[..n];
      WithScoreConcat(a, b[..n], score);
    }
  }

  lemma {:induction false} NoneWithScore<T>(rs: seq<Ranked<T>>, score: real)
    requires forall k :: 0 <= k < |rs| ==> rs[k].totalScore != score
    ensures WithScore(rs, score) == []
  {
    if rs != [] { NoneWithScore(rs[..|rs| - 1], score); }
  }

  /** A new entry goes after those of its score. */
  lemma InsertIsStable<T(!new)>(sorted: seq<Ranked<T>>, rs: seq<Ranked<T>>, r: Ranked<T>)
    requires StablySorts(sorted, rs)
    ensures var i := Place(sorted, r.totalScore); StablySorts(sorted[..i] + [r] + sorted[i..], rs + [r])
  {
    hide WithScore, Place;
    var i := Place(sorted, r.totalScore);
    forall score ensures WithScore(sorted[..i] + [r] + sorted[i..], score) == WithScore(rs + [r], score) {
      InsertKeepsScore(sorted, i, r, score);
      WithScoreConcat(rs, [r], score);
    }
  }

  lemma InsertKeepsScore<T>(sorted: seq<Ranked<T>>, i: nat, r: Ranked<T>, score: real)
    requires i <= |sorted| && forall k :: i <= k < |sorted| ==> r.totalScore < sorted[k].totalScore
    ensures WithScore(sorted[..i] + [r] + sorted[i..], score) == WithScore(sorted, score) + WithScore([r], score)
  {
    hide WithScore;
    assert sorted == sorted[..i] + sorted[i..];
    WithScoreConcat(sorted[..i], sorted[i..], score);
    WithScoreConcat(sorted[..i], [r], score);
    WithScoreConcat(sorted[..i] + [r], sorted[i..], score);
    if score == r.totalScore {
      NoneWithScore(sorted[i..], score);
    } else {
      NoneWithScore([r], score);
    }
  }

  function ItemsOf<T>(rs: seq<Ranked<T>>): seq<T> {
    seq(|rs|, k requires 0 <= k < |rs| => rs[k].item)
  }

  /** The items that every word of the query hits, best first, equals in their order; a
      blank query keeps all. */
  method Filter<T(!new)>(items: seq<T>, query: string, getText: T -> string, lower: string -> string)
    returns (result: seq<T>)
    ensures var tokens := Words(query);
            if tokens == [] then result == items
            else exists ranking :: StablySorts(ranking, Hitting(items, tokens, getText, lower)) && result == ItemsOf(ranking)
  {
    hide Hits, Words, StablySorts, WithScore, MatchResult, TotalScore;
    var tokens := Words(query);
    if tokens == [] {
      return items;
    }
    var results: seq<Ranked<T>> := [];
    var n := 0;
    while n < |items|
      invariant 0 <= n <= |items|
      invariant results == Hitting(items[..n], tokens, getText, lower)
    {
      var item := items[n];
      assert items[..n + 1][..n] == items[..n];
      var allMatch, totalScore := RankItem(tokens, getText(item), lower);
      if allMatch {
        results := results + [Ranked(item, totalScore)];
      }
      n := n + 1;
    }
    assert items[..n] == items;
    var sorted := StableSort(results);
    result := ItemsOf(sorted);
  }

  method RankItem(tokens: seq<string>, text: string, lower: string -> string) returns (allMatch: bool, totalScore: real)
    ensures allMatch <==> HitsAll(tokens, text, lower)
    ensures allMatch ==> totalScore == TotalScore(tokens, text, lower)
  {
    hide Hits, MatchResult;
    allMatch, totalScore := true, 0.0;
    var k := 0;
    while k < |tokens|
      invariant 0 <= k <= |tokens| && HitsAll(tokens[..k], text, lower)
      invariant totalScore == TotalScore(tokens[..k], text, lower)
    {
      assert tokens[..k + 1][..k] == tokens[..k];
      var m := Match(tokens[k], text, lower);
      if m.matches {
        totalScore := totalScore + m.score;
      } else {
        return false, totalScore;
      }
      k := k + 1;
    }
    assert tokens[..k] == tokens;
  }

  /** The runtime's sort, which is stable. */
  method StableSort<T(!new)>(rs: seq<Ranked<T>>) returns (sorted: seq<Ranked<T>>)
    ensures StablySorts(sorted, rs)
  {
    hide WithScore;
    sorted := [];
    var n := 0;
    while n < |rs|
      invariant 0 <= n <= |rs| && StablySorts(sorted, rs[..n])
    {
      var i := Place(sorted, rs[n].totalScore);
      InsertIsStable(sorted, rs[..n], rs[n]);
      assert rs[..n + 1] == rs[..n] + [rs[n]];
      sorted := sorted[..i] + [rs[n]] + sorted[i..];
      n := n + 1;
    }
    assert rs[..n] == rs;
  }
}
