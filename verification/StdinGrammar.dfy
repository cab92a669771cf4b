/** Which texts are input sequences, by their grammar, and that the input buffer cuts its
    input into exactly these. */
module StdinGrammar {
  import opened Text
  import opened StdinSequences

  // ----- the grammar -----

  /** A byte that ends a control sequence: ECMA-48, section 5.4. */
  predicate Final(c: char) { '@' <= c <= '~' }

  /** ESC [, then parameters and intermediates, then one final byte. */
  predicate ControlSequence(q: string) {
    && |q| >= 3 && q[..2] == [ESC, '['] && q[2] != '<' && q[2] != 'M'
    && (forall i :: 2 <= i < |q| - 1 ==> !Final(q[i])) && Final(q[|q| - 1])
  }

  /** ESC [ M and three characters. */
  predicate OldMouse(q: string) { |q| == 6 && q[..3] == [ESC, '[', 'M'] }

  /** ESC [ < and three numbers, then M or m. */
  ghost predicate SgrMouse(q: string) {
    exists a, b, c :: IsSgrMouse(q, a, b, c)
  }

  predicate IsSgrMouse(q: string, a: string, b: string, c: string) {
    && Digits(a) && Digits(b) && Digits(c) && q != ""
    && (q[|q| - 1] == 'M' || q[|q| - 1] == 'm') && q == [ESC, '[', '<'] + (a + [';'] + (b + [';'] + c)) + [q[|q| - 1]]
  }

  /** ESC and an introducer, then text up to the first ST, or BEL where that ends it. */
  predicate StringSequence(q: string, introducer: char, bel: bool) {
    && |q| >= 3 && q[0] == ESC && q[1] == introducer && EndsString(q, |q|, bel)
    && forall n :: 3 <= n < |q| ==> !EndsString(q, n, bel)
  }

  /** A terminator ends right before position `n`. */
  predicate EndsString(q: string, n: nat, bel: bool)
    requires 3 <= n <= |q|
  {
    (q[n - 2] == ESC && q[n - 1] == '\\') || (bel && q[n - 1] == BEL)
  }

  /** A character; ESC and one character; or one of the longer forms. */
  ghost predicate WellFormed(q: string) {
    q != "" &&
    if q[0] != ESC then |q| == 1
    else
      |q| >= 2 &&
      if q[1] == '[' then ControlSequence(q) || OldMouse(q) || SgrMouse(q)
      else if q[1] == ']' then StringSequence(q, ']', true)
      else if q[1] == 'P' then StringSequence(q, 'P', false)
      else if q[1] == '_' then StringSequence(q, '_', false)
      else if q[1] == 'O' then |q| == 3
      else |q| == 2
  }

  // ----- splitting at the semicolons -----

  lemma SplitThree(a: string, b: string, c: string)
    requires ';' !in a && ';' !in b && ';' !in c
    ensures Split(a + [';'] + (b + [';'] + c), ';') == [a, b, c]
  {
    SplitOnce(a, b + [';'] + c, ';');
    SplitOnce(b, c, ';');
    SplitOnce(c, "", ';');
  }

  lemma ThreePieces(text: string)
    requires |Split(text, ';')| == 3
    ensures var r := Split(text, ';'); text == r[0] + [';'] + (r[1] + [';'] + r[2])
  {
    var r := Split(text, ';');
    SplitFirst(text, ';');
    var rest := text[|r[0]| + 1..];
    SplitFirst(rest, ';');
    SplitFirst(rest[|r[1]| + 1..], ';');
  }

  lemma DigitsAreNotFinal(text: string)
    requires Digits(text)
    ensures forall i :: 0 <= i < |text| ==> !Final(text[i]) && text[i] != ';'
  {
  }

  // ----- the shortest complete sequence is a well-formed one -----

  /** Complete, and no shorter prefix is. */
  predicate Shortest(q: string) {
    && q != "" && IsCompleteSequence(q) == Complete
    && forall n :: 1 <= n < |q| ==> IsCompleteSequence(q[..n]) != Complete
  }

  lemma ShortestIsEnd(q: string)
    requires q != ""
    ensures SequenceEnd(q, 1) == |q| <==> Shortest(q)
  {
    hide IsCompleteSequence;
    assert q[..|q|] == q;
  }

  /** What the check sees of a prefix. */
  function Seen(q: string, n: nat): Status
    requires 1 <= n <= |q|
  {
    if n == 1 then Incomplete
    else if q[1] == '[' then
      if n == 2 then Incomplete
      else if q[2] == 'M' then (if n >= 6 then Complete else Incomplete)
      else IsCompleteCsi(q[..n])
    else if q[1] == ']' then (if n >= 3 && EndsString(q, n, true) then Complete else Incomplete)
    else if q[1] == 'P' || q[1] == '_' then (if n >= 3 && EndsString(q, n, false) then Complete else Incomplete)
    else if q[1] == 'O' then (if n >= 3 then Complete else Incomplete)
    else Complete
  }

  lemma PrefixOf(q: string, n: nat)
    requires 1 <= n <= |q| && q[0] == ESC
    ensures IsCompleteSequence(q[..n]) == Seen(q, n)
  {
    hide IsCompleteCsi, EndsWith, EndsString;
    var p := q[..n];
    assert p[..1] == [ESC];
    if n >= 2 {
      if q[1] == '[' {
        PrefixOfCsi(q, n);
      } else if q[1] == ']' || q[1] == 'P' || q[1] == '_' {
        PrefixOfString(q, n);
      }
    }
  }

  lemma PrefixOfCsi(q: string, n: nat)
    requires 2 <= n <= |q| && q[0] == ESC && q[1] == '['
    ensures var p := q[..n];
            && (StartsWith(p[2..], "M") <==> n >= 3 && q[2] == 'M')
            && (n == 2 ==> IsCompleteCsi(p) == Incomplete)
  {
    hide IsCompleteCsi;
    var p := q[..n];
    if n == 2 { EmptyCsi(p); } else { assert p[2..][..1] == [q[2]]; }
  }

  lemma PrefixOfString(q: string, n: nat)
    requires 2 <= n <= |q| && q[0] == ESC && q[1] != ESC && q[1] != BEL && q[1] != '\\'
    ensures var p := q[..n];
            && (EndsWith(p, [ESC, '\\']) || EndsWith(p, [BEL]) <==> n >= 3 && EndsString(q, n, true))
            && (EndsWith(p, [ESC, '\\']) <==> n >= 3 && EndsString(q, n, false))
  {
    var p := q[..n];
    assert p[n - 2..] == [q[n - 2], q[n - 1]] && p[n - 1..] == [q[n - 1]];
  }

  lemma EmptyCsi(p: string)
    requires |p| == 2
    ensures IsCompleteCsi(p) == Incomplete
  {
  }

  /** A control sequence is complete with its first final byte, if it is no mouse report. */
  lemma CsiPrefix(q: string, n: nat)
    requires 3 <= n <= |q| && q[0] == ESC && q[1] == '[' && q[2] != 'M'
    ensures q[2] != '<' ==> (IsCompleteCsi(q[..n]) == Complete <==> Final(q[n - 1]))
    ensures IsCompleteCsi(q[..n]) == Complete ==> Final(q[n - 1])
  {
    hide Split;
    var p := q[..n];
    assert p[2..][0] == q[2] && p[2..][|p[2..]| - 1] == q[n - 1];
  }

  lemma SgrComplete(q: string)
    requires |q| >= 3 && q[0] == ESC && q[1] == '[' && q[2] == '<'
    ensures IsCompleteCsi(q) == Complete <==> SgrMouse(q)
  {
    var payload := q[2..];
    var last := q[|q| - 1];
    assert payload[0] == '<' && payload[|payload| - 1] == last;
    if SgrMouse(q) {
      var a, b, c :| IsSgrMouse(q, a, b, c);
      var inner := a + [';'] + (b + [';'] + c);
      DigitsAreNotFinal(a);
      DigitsAreNotFinal(b);
      DigitsAreNotFinal(c);
      SplitThree(a, b, c);
      assert payload == ['<'] + inner + [last];
      assert payload[1..|payload| - 1] == inner;
    }
    if IsCompleteCsi(q) == Complete {
      var inner := payload[1..|payload| - 1];
      ThreePieces(inner);
      var r := Split(inner, ';');
      assert q == [ESC, '[', '<'] + inner + [last];
      assert IsSgrMouse(q, r[0], r[1], r[2]);
    }
  }

  /** A mouse report has no final byte before its end. */
  lemma SgrInside(q: string, i: nat)
    requires SgrMouse(q) && 2 <= i < |q| - 1
    ensures !Final(q[i])
  {
    var a, b, c :| IsSgrMouse(q, a, b, c);
    DigitsAreNotFinal(a);
    DigitsAreNotFinal(b);
    DigitsAreNotFinal(c);
    var inner := a + [';'] + (b + [';'] + c);
    assert forall k :: 0 <= k < |inner| ==> !Final(inner[k]);
    if i > 2 { assert q[i] == inner[i - 3]; }
  }

  lemma ControlShortest(q: string)
    requires |q| >= 2 && q[0] == ESC && q[1] == '['
    ensures Shortest(q) <==> ControlSequence(q) || OldMouse(q) || SgrMouse(q)
  {
    hide IsCompleteSequence, IsCompleteCsi, SgrMouse, Final;
    var m := |q|;
    assert q[..m] == q;
    forall n | 1 <= n <= m ensures n == 1 || n == 2 ==> IsCompleteSequence(q[..n]) == Incomplete { PrefixOf(q, n); }
    if SgrMouse(q) { SgrHead(q); }
    if m >= 3 {
      assert q[..2] == [ESC, '['] && q[..3] == [ESC, '[', q[2]];
      if q[2] == 'M' {
        forall n | 3 <= n <= m ensures IsCompleteSequence(q[..n]) == Complete <==> n >= 6 { PrefixOf(q, n); }
        assert m > 6 ==> IsCompleteSequence(q[..6]) == Complete;
      } else {
        forall n | 3 <= n <= m ensures IsCompleteSequence(q[..n]) == IsCompleteCsi(q[..n]) { PrefixOf(q, n); }
        forall n | 3 <= n <= m
          ensures IsCompleteCsi(q[..n]) == Complete ==> Final(q[n - 1])
          ensures q[2] != '<' ==> (IsCompleteCsi(q[..n]) == Complete <==> Final(q[n - 1]))
        {
          CsiPrefix(q, n);
        }
        if q[2] == '<' {
          SgrComplete(q);
          if SgrMouse(q) {
            forall n | 3 <= n < m ensures IsCompleteCsi(q[..n]) != Complete { SgrInside(q, n - 1); }
          }
        } else if Shortest(q) {
          forall i | 2 <= i < m - 1 ensures !Final(q[i]) { assert IsCompleteSequence(q[..i + 1]) != Complete; }
        }
      }
    }
  }

  lemma SgrHead(q: string)
    requires SgrMouse(q)
    ensures |q| >= 3 && q[2] == '<'
  {
  }

  lemma StringShortest(q: string, introducer: char, bel: bool)
    requires |q| >= 2 && q[0] == ESC && q[1] == introducer
    requires (introducer == ']' && bel) || ((introducer == 'P' || introducer == '_') && !bel)
    ensures Shortest(q) <==> StringSequence(q, introducer, bel)
  {
    hide IsCompleteSequence;
    assert q[..|q|] == q;
    forall n | 1 <= n <= |q| ensures IsCompleteSequence(q[..n]) == Complete <==> n >= 3 && EndsString(q, n, bel) {
      PrefixOf(q, n);
    }
    if Shortest(q) {
      forall n | 3 <= n < |q| ensures !EndsString(q, n, bel) { assert IsCompleteSequence(q[..n]) != Complete; }
    }
  }

  /** The buffer ends a sequence that starts with ESC exactly where the grammar does. */
  lemma EndsAsWellFormed(q: string)
    requires q != "" && q[0] == ESC
    ensures SequenceEnd(q, 1) == |q| <==> WellFormed(q)
  {
    hide IsCompleteSequence, SequenceEnd, ControlSequence, OldMouse, SgrMouse, StringSequence;
    ShortestIsEnd(q);
    assert q[..|q|] == q;
    forall n | 1 <= n <= |q| && n <= 3 ensures n == 1 ==> IsCompleteSequence(q[..n]) == Incomplete { PrefixOf(q, n); }
    if |q| >= 2 {
      if q[1] == '[' {
        ControlShortest(q);
      } else if q[1] == ']' {
        StringShortest(q, ']', true);
      } else if q[1] == 'P' || q[1] == '_' {
        StringShortest(q, q[1], false);
      } else {
        forall n | 1 <= n <= |q|
          ensures IsCompleteSequence(q[..n]) == Complete <==> n >= if q[1] == 'O' then 3 else 2
        {
          PrefixOf(q, n);
        }
        var end := if q[1] == 'O' then 3 else 2;
        assert |q| > end ==> IsCompleteSequence(q[..end]) == Complete;
      }
    }
  }

  // ----- cutting the input -----

  /** A well-formed sequence in front of anything is cut off as one. */
  lemma ExtractsWellFormed(q: string, rest: string)
    requires WellFormed(q)
    ensures Extract(q + rest) == Extraction([q] + Extract(rest).sequences, Extract(rest).remainder)
  {
    hide Extract, WellFormed, SequenceEnd;
    FrontIs(q);
    ExtractFirst(q + rest);
    if q[0] == ESC {
      EndsAsWellFormed(q);
      SequenceEndExtends(q, rest, 1);
    }
    assert (q + rest)[..|q|] == q && (q + rest)[|q|..] == rest;
  }

  lemma FrontIs(q: string)
    requires WellFormed(q)
    ensures q != "" && (q[0] != ESC ==> |q| == 1)
  {
  }

  /** Part of an escape sequence yields nothing. */
  lemma PartYieldsNothing(q: string, n: nat)
    requires WellFormed(q) && q[0] == ESC && n < |q|
    ensures Extract(q[..n]) == Extraction([], q[..n])
  {
    hide Extract, WellFormed, IsCompleteSequence;
    EndsAsWellFormed(q);
    if n == 0 {
      ExtractNothing();
    } else {
      ExtractFirst(q[..n]);
      forall k | 1 <= k <= n ensures IsCompleteSequence(q[..n][..k]) != Complete {
        assert q[..n][..k] == q[..k];
      }
    }
  }

  /** The buffer cuts off nothing but well-formed sequences. */
  lemma {:induction false} SequencesAreWellFormed(text: string)
    ensures forall k :: 0 <= k < |Extract(text).sequences| ==> WellFormed(Extract(text).sequences[k])
    decreases |text|
  {
    hide Extract, WellFormed, SequenceEnd;
    if text == "" {
      ExtractNothing();
    } else {
      ExtractFirst(text);
      var n := FirstLength(text);
      if n != -1 {
        SequencesAreWellFormed(text[n..]);
        FirstIsWellFormed(text);
      }
    }
  }

  lemma FirstIsWellFormed(text: string)
    requires text != "" && FirstLength(text) != -1
    ensures WellFormed(text[..FirstLength(text)])
  {
    hide IsCompleteSequence, WellFormed;
    var n := FirstLength(text);
    var q := text[..n];
    if text[0] == ESC {
      forall k | 1 <= k <= n ensures q[..k] == text[..k] {
      }
      EndsAsWellFormed(q);
    } else {
      OneCharacter(q);
    }
  }

  lemma OneCharacter(q: string)
    requires |q| == 1 && q[0] != ESC
    ensures WellFormed(q)
  {
  }

  /** So a text that is a series of well-formed sequences is cut into exactly these. */
  lemma {:induction false} CutIntoSequences(sequences: seq<string>, rest: string)
    requires forall k :: 0 <= k < |sequences| ==> WellFormed(sequences[k])
    ensures Extract(Concat(sequences) + rest) == Extraction(sequences + Extract(rest).sequences,
                                                            Extract(rest).remainder)
    decreases |sequences|
  {
    hide Extract, WellFormed;
    if sequences == [] {
      assert Concat(sequences) + rest == rest && [] + Extract(rest).sequences == Extract(rest).sequences;
    } else {
      CutIntoSequences(sequences[1..], rest);
      ExtractsWellFormed(sequences[0], Concat(sequences[1..]) + rest);
      assert Concat(sequences) + rest == sequences[0] + (Concat(sequences[1..]) + rest);
    }
  }
}
