/** Word wrapping of styled text. A line is a sequence of escape codes and glyphs
    (grapheme clusters with a column width); the only white space is the blank. */
module Wrap {
  import opened Basics
  import opened Ansi

  datatype Item = Escape(code: Code) | Glyph(id: nat, width: nat, isSpace: bool)

  type Line = seq<Item>

  /** A glyph as the reader sees it. */
  datatype Cell = Cell(id: nat, width: nat, style: Style)

  // ----- what a line shows -----

  function Width(line: Line): nat {
    if line == [] then 0 else Width(line[..|line| - 1]) + ItemWidth(line[|line| - 1])
  }

  function ItemWidth(item: Item): nat { if item.Glyph? then item.width else 0 }

  /** The style after a line that is printed in style `s`. */
  function StyleAfter(s: Style, line: Line): Style {
    if line == [] then s else ItemStyle(StyleAfter(s, line[..|line| - 1]), line[|line| - 1])
  }

  function ItemStyle(s: Style, item: Item): Style { if item.Escape? then Process(s, item.code) else s }

  /** The glyphs other than blanks, each with its style. */
  function Shown(s: Style, line: Line): seq<Cell> {
    if line == [] then []
    else
      var before := line[..|line| - 1];
      Shown(s, before) + ItemShown(StyleAfter(s, before), line[|line| - 1])
  }

  function ItemShown(s: Style, item: Item): seq<Cell> {
    if item.Glyph? && !item.isSpace then [Cell(item.id, item.width, s)] else []
  }

  /** A text whose lines share one running style. */
  function ShownText(s: Style, lines: seq<Line>): seq<Cell>
    decreases |lines|
  {
    if lines == [] then []
    else Shown(s, lines[0]) + ShownText(StyleAfter(s, lines[0]), lines[1..])
  }

  /** Lines that a terminal prints one by one, each from the plain style. */
  function ShownLines(lines: seq<Line>): seq<Cell> {
    if lines == [] then [] else ShownLines(lines[..|lines| - 1]) + Shown(PLAIN, lines[|lines| - 1])
  }

  /** Every glyph fits a line of its own. */
  predicate NoneWider(line: Line, width: nat) {
    forall i :: 0 <= i < |line| && line[i].Glyph? ==> line[i].width <= width
  }

  predicate Blanks(line: Line) { forall i :: 0 <= i < |line| ==> line[i].Glyph? && line[i].isSpace }

  /** Nothing that would show in the padding stays on. */
  predicate Closed(line: Line) {
    var s := StyleAfter(PLAIN, line);
    !s.attributes.underline && s.hyperlink == None
  }

  lemma {:induction false} Concat(s: Style, a: Line, b: Line)
    ensures Width(a + b) == Width(a) + Width(b)
    ensures StyleAfter(s, a + b) == StyleAfter(StyleAfter(s, a), b)
    ensures Shown(s, a + b) == Shown(s, a) + Shown(StyleAfter(s, a), b)
  {
    hide ItemWidth, ItemStyle, ItemShown;
    if b == [] {
      assert a + b == a;
    } else {
      var n := |b| - 1;
      assert (a + b)[..|a + b| - 1] == a + b[..n] && (a + b)[|a + b| - 1] == b[n];
      Concat(s, a, b[..n]);
    }
  }

  lemma ShownLinesSnoc(lines: seq<Line>, line: Line)
    ensures ShownLines(lines + [line]) == ShownLines(lines) + Shown(PLAIN, line)
  {
    assert (lines + [line])[..|lines|] == lines;
  }

  lemma {:induction false} ShownLinesConcat(a: seq<Line>, b: seq<Line>)
    ensures ShownLines(a + b) == ShownLines(a) + ShownLines(b)
  {
    hide Shown;
    if b == [] {
      assert a + b == a;
    } else {
      var n := |b| - 1;
      assert (a + b)[..|a + b| - 1] == a + b[..n];
      ShownLinesConcat(a, b[..n]);
    }
  }

  /** Every style a line leads to from a reachable one is reachable. */
  lemma {:induction false} StyleStaysReachable(s: Style, line: Line)
    requires Reachable(s)
    ensures Reachable(StyleAfter(s, line))
  {
    hide Process, Reachable;
    if line != [] {
      var n := |line| - 1;
      StyleStaysReachable(s, line[..n]);
      if line[n].Escape? { ProcessReachable(StyleAfter(s, line[..n]), line[n].code); }
    }
  }

  function Escapes(codes: seq<Code>): (line: Line)
    ensures |line| == |codes| && forall i :: 0 <= i < |codes| ==> line[i] == Escape(codes[i])
  {
    seq(|codes|, i requires 0 <= i < |codes| => Escape(codes[i]))
  }

  lemma {:induction false} EscapesEffect(s: Style, codes: seq<Code>)
    ensures StyleAfter(s, Escapes(codes)) == ProcessAll(s, codes)
    ensures Shown(s, Escapes(codes)) == [] && Width(Escapes(codes)) == 0
    decreases |codes|
  {
    hide Process;
    if codes != [] {
      EscapesEffect(Process(s, codes[0]), codes[1..]);
      assert Escapes(codes) == [Escape(codes[0])] + Escapes(codes[1..]);
      Concat(s, [Escape(codes[0])], Escapes(codes[1..]));
      assert [Escape(codes[0])][..0] == [];
    }
  }

  /** A line that starts with the active codes of a style starts in that style. */
  lemma ActiveCodesRestore(s: Style)
    requires Reachable(s)
    ensures StyleAfter(PLAIN, Escapes(ActiveCodes(s))) == s
    ensures Shown(PLAIN, Escapes(ActiveCodes(s))) == [] && Width(Escapes(ActiveCodes(s))) == 0
  {
    hide ActiveCodes, Reachable, ProcessAll, StyleAfter, Shown, Width;
    EscapesEffect(PLAIN, ActiveCodes(s));
    StyleRoundTrip(s);
  }

  /** The codes for a line's end leave nothing open. */
  lemma LineEndCloses(line: Line)
    ensures Closed(line + Escapes(LineEndReset(StyleAfter(PLAIN, line))))
    ensures Shown(PLAIN, line + Escapes(LineEndReset(StyleAfter(PLAIN, line)))) == Shown(PLAIN, line)
    ensures Width(line + Escapes(LineEndReset(StyleAfter(PLAIN, line)))) == Width(line)
  {
    hide StyleAfter, Shown, Width, LineEndReset, ProcessAll;
    var s := StyleAfter(PLAIN, line);
    EscapesEffect(s, LineEndReset(s));
    Concat(PLAIN, line, Escapes(LineEndReset(s)));
    LineEndResetCloses(s);
  }

  // ----- trailing blanks -----

  function TrimEnd(line: Line): (r: Line)
    ensures |r| <= |line| && r == line[..|r|] && Blanks(line[|r|..])
    ensures r == [] || r[|r| - 1].Escape? || !r[|r| - 1].isSpace
  {
    if line == [] || line[|line| - 1].Escape? || !line[|line| - 1].isSpace then line
    else
      var r := TrimEnd(line[..|line| - 1]);
      assert forall i :: |r| <= i < |line| - 1 ==> line[i] == line[..|line| - 1][|r|..][i - |r|];
      r
  }

  lemma {:induction false} BlanksShowNothing(s: Style, line: Line)
    requires Blanks(line)
    ensures Shown(s, line) == [] && StyleAfter(s, line) == s
  {
    if line != [] {
      BlanksShowNothing(s, line[..|line| - 1]);
    }
  }

  lemma TrimEndEffect(s: Style, line: Line)
    ensures Shown(s, TrimEnd(line)) == Shown(s, line)
    ensures StyleAfter(s, TrimEnd(line)) == StyleAfter(s, line)
    ensures Width(TrimEnd(line)) <= Width(line)
    ensures Blanks(line) ==> TrimEnd(line) == []
  {
    hide Shown, StyleAfter, Width;
    var r := TrimEnd(line);
    assert line == r + line[|r|..];
    Concat(s, r, line[|r|..]);
    BlanksShowNothing(StyleAfter(s, r), line[|r|..]);
  }

  /** A tracker that reads a line ends in the line's style. */
  method UpdateTracker(line: Line, tracker: AnsiCodeTracker)
    modifies tracker
    ensures tracker.View() == StyleAfter(old(tracker.View()), line)
  {
    hide Process, AnsiCodeTracker.View;
    var i := 0;
    while i < |line|
      invariant 0 <= i <= |line|
      invariant tracker.View() == StyleAfter(old(tracker.View()), line[..i])
    {
      assert line[..i + 1][..i] == line[..i];
      if line[i].Escape? {
        tracker.ProcessCode(line[i].code);
      }
      i := i + 1;
    }
    assert line[..i] == line;
  }

  // ----- words and runs of blanks -----

  predicate HasGlyph(line: Line) { exists i :: 0 <= i < |line| && line[i].Glyph? }

  /** Glyphs of one kind, blanks or not, with the codes between them. */
  predicate IsToken(token: Line, blank: bool) {
    HasGlyph(token) && forall i :: 0 <= i < |token| && token[i].Glyph? ==> token[i].isSpace == blank
  }

  function Flatten(tokens: seq<Line>): Line {
    if tokens == [] then [] else Flatten(tokens[..|tokens| - 1]) + tokens[|tokens| - 1]
  }

  lemma FlattenSnoc(tokens: seq<Line>, token: Line)
    ensures Flatten(tokens + [token]) == Flatten(tokens) + token
  {
    assert (tokens + [token])[..|tokens|] == tokens;
  }

  /** Words and runs of blanks take turns. */
  predicate Alternate(tokens: seq<Line>) {
    && (forall k :: 0 <= k < |tokens| ==> IsToken(tokens[k], true) || IsToken(tokens[k], false))
    && (forall k :: 0 < k < |tokens| ==> (IsToken(tokens[k - 1], true) <==> IsToken(tokens[k], false)))
  }

  predicate OnlyEscapes(line: Line) { forall i :: 0 <= i < |line| ==> line[i].Escape? }

  /** Where the splitter stands: finished tokens, the one being filled, and codes that wait
      for the next glyph. */
  datatype SplitState = SplitState(tokens: seq<Line>, current: Line, pendingAnsi: Line, inWhitespace: bool)

  function SplitNext(st: SplitState, item: Item): SplitState {
    if item.Escape? then st.(pendingAnsi := st.pendingAnsi + [item])
    else if item.isSpace != st.inWhitespace && st.current != [] then
      SplitState(st.tokens + [st.current], st.pendingAnsi + [item], [], item.isSpace)
    else SplitState(st.tokens, st.current + st.pendingAnsi + [item], [], item.isSpace)
  }

  function Split(line: Line): SplitState {
    if line == [] then SplitState([], [], [], false) else SplitNext(Split(line[..|line| - 1]), line[|line| - 1])
  }

  /** The words and runs of blanks of a line. Codes belong to the glyph after them, the
      last ones to the last token. */
  function Tokens(line: Line): seq<Line> {
    var st := Split(line);
    var last := st.current + st.pendingAnsi;
    if last == [] then st.tokens else st.tokens + [last]
  }

  predicate SplitSound(st: SplitState, line: Line) {
    && Flatten(st.tokens) + st.current + st.pendingAnsi == line
    && OnlyEscapes(st.pendingAnsi)
    && (if st.current == [] then st.tokens == [] && OnlyEscapes(line)
        else Alternate(st.tokens + [st.current]) && IsToken(st.current, st.inWhitespace))
  }

  lemma {:induction false} SplitIsSound(line: Line)
    ensures SplitSound(Split(line), line)
  {
    hide SplitSound, SplitNext;
    if line == [] {
      NothingSplit();
    } else {
      var n := |line| - 1;
      SplitIsSound(line[..n]);
      SplitStep(Split(line[..n]), line[..n], line[n]);
      assert line == line[..n] + [line[n]];
    }
  }

  lemma NothingSplit()
    ensures SplitSound(SplitState([], [], [], false), []) && Flatten([]) == []
  {
  }

  lemma SplitStep(st: SplitState, line: Line, item: Item)
    requires SplitSound(st, line)
    ensures SplitSound(SplitNext(st, item), line + [item])
  {
    hide Flatten, IsToken, Alternate;
    if item.Escape? {
      assert Flatten(st.tokens) + st.current + (st.pendingAnsi + [item]) == line + [item];
    } else {
      AppendGlyph(st.current, st.pendingAnsi, item);
      AppendGlyph([], st.pendingAnsi, item);
      FlattenSnoc(st.tokens, st.current);
      assert [] + st.pendingAnsi + [item] == st.pendingAnsi + [item];
      if item.isSpace != st.inWhitespace && st.current != [] {
        AlternateSnoc(st.tokens, st.current, st.pendingAnsi + [item], st.inWhitespace);
        assert Flatten(st.tokens + [st.current]) + (st.pendingAnsi + [item]) == line + [item];
      } else {
        if st.current != [] {
          AlternateGrows(st.tokens, st.current, st.current + st.pendingAnsi + [item], st.inWhitespace);
        } else {
          AlternateOne(st.current + st.pendingAnsi + [item], item.isSpace);
          assert st.tokens + [st.current + st.pendingAnsi + [item]] == [st.current + st.pendingAnsi + [item]];
        }
        assert Flatten(st.tokens) + (st.current + st.pendingAnsi + [item]) == line + [item];
      }
    }
  }

  lemma AppendGlyph(current: Line, escapes: Line, glyph: Item)
    requires OnlyEscapes(escapes) && glyph.Glyph?
    ensures current == [] || IsToken(current, glyph.isSpace) ==> IsToken(current + escapes + [glyph], glyph.isSpace)
  {
    var token := current + escapes + [glyph];
    assert token[|token| - 1] == glyph;
  }

  lemma NotBoth(token: Line, blank: bool)
    requires IsToken(token, blank)
    ensures !IsToken(token, !blank)
  {
  }

  lemma AlternateOne(token: Line, blank: bool)
    requires IsToken(token, blank)
    ensures Alternate([token])
  {
  }

  /** The next token is of the other kind. */
  lemma AlternateSnoc(tokens: seq<Line>, last: Line, token: Line, blank: bool)
    requires Alternate(tokens + [last]) && IsToken(last, blank) && IsToken(token, !blank)
    ensures Alternate(tokens + [last] + [token])
  {
    NotBoth(last, blank);
    NotBoth(token, !blank);
    hide IsToken;
    var all := tokens + [last];
    assert all[|all| - 1] == last;
    forall k | 0 < k < |all + [token]| ensures IsToken((all + [token])[k - 1], true) <==> IsToken((all + [token])[k], false) {
      if k < |all| { assert IsToken(all[k - 1], true) <==> IsToken(all[k], false); }
    }
  }

  /** A token of the same kind in place of the last one. */
  lemma AlternateGrows(tokens: seq<Line>, last: Line, longer: Line, blank: bool)
    requires Alternate(tokens + [last]) && IsToken(last, blank) && IsToken(longer, blank)
    ensures Alternate(tokens + [longer])
  {
    NotBoth(last, blank);
    NotBoth(longer, blank);
    hide IsToken;
    var all, grown := tokens + [last], tokens + [longer];
    assert all[|tokens|] == last;
    forall k | 0 < k < |grown| ensures IsToken(grown[k - 1], true) <==> IsToken(grown[k], false) {
      assert IsToken(all[k - 1], true) <==> IsToken(all[k], false);
      assert grown[k - 1] == all[k - 1];
    }
    assert forall k :: 0 <= k < |tokens| ==> grown[k] == all[k];
  }

  lemma AppendEscapes(current: Line, escapes: Line, blank: bool)
    requires OnlyEscapes(escapes) && IsToken(current, blank)
    ensures IsToken(current + escapes, blank)
  {
    var i :| 0 <= i < |current| && current[i].Glyph?;
    assert (current + escapes)[i] == current[i];
  }

  /** The tokens are the line, and words and runs of blanks take turns. */
  lemma TokensAreRuns(line: Line)
    ensures Flatten(Tokens(line)) == line
    ensures HasGlyph(line) ==> Alternate(Tokens(line))
  {
    hide Split, Flatten, Alternate, IsToken, HasGlyph;
    SplitIsSound(line);
    var st := Split(line);
    var last := st.current + st.pendingAnsi;
    FlattenSnoc(st.tokens, last);
    assert Flatten(st.tokens) + last == line;
    if st.current == [] {
      NoGlyph(line);
    } else {
      AppendEscapes(st.current, st.pendingAnsi, st.inWhitespace);
      AlternateGrows(st.tokens, st.current, last, st.inWhitespace);
    }
    if last == [] { assert Flatten(st.tokens) + [] == Flatten(st.tokens); }
  }

  lemma NoGlyph(line: Line)
    ensures OnlyEscapes(line) ==> !HasGlyph(line)
  {
  }

  method SplitIntoTokensWithAnsi(line: Line) returns (tokens: seq<Line>)
    ensures tokens == Tokens(line)
    ensures Flatten(tokens) == line && (HasGlyph(line) ==> Alternate(tokens))
  {
    hide Flatten, Alternate, HasGlyph;
    TokensAreRuns(line);
    tokens := [];
    var current: Line := [];
    var pendingAnsi: Line := [];
    var inWhitespace := false;
    var i := 0;
    while i < |line|
      invariant 0 <= i <= |line|
      invariant SplitState(tokens, current, pendingAnsi, inWhitespace) == Split(line[..i])
    {
      assert line[..i + 1][..i] == line[..i];
      if line[i].Escape? {
        pendingAnsi := pendingAnsi + [line[i]];
        i := i + 1;
        continue;
      }
      var charIsSpace := line[i].isSpace;
      if charIsSpace != inWhitespace && current != [] {
        tokens := tokens + [current];
        current := [];
        assert current + pendingAnsi + [line[i]] == pendingAnsi + [line[i]];
      }
      current := current + pendingAnsi;
      pendingAnsi := [];
      inWhitespace := charIsSpace;
      current := current + [line[i]];
      i := i + 1;
    }
    assert line[..i] == line;
    current := current + pendingAnsi;
    if current != [] {
      tokens := tokens + [current];
    }
  }
}
