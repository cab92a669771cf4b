/** Wrapping a text of several lines, and exactly when its lines fit. */
module WrapText {
  import opened Ansi
  import opened Wrap
  import opened WrapLayout
  import opened WordWrap

  /** An input line with the codes that bring back the style of the lines before it. */
  function Prefixed(lines: seq<Line>, i: nat): Line
    requires i < |lines|
  {
    (if i == 0 then [] else Escapes(ActiveCodes(StyleAfter(PLAIN, Flatten(lines[..i]))))) + lines[i]
  }

  ghost predicate LineOverflows(lines: seq<Line>, i: nat, width: nat)
    requires i < |lines|
  {
    Overflows(Tokens(Prefixed(lines, i)), width)
  }

  predicate AllNarrow(lines: seq<Line>, width: nat) { forall i :: 0 <= i < |lines| ==> NoneWider(lines[i], width) }

  /** No glyph is wider than a line, and no input line overflows. */
  ghost predicate TextFits(lines: seq<Line>, width: nat) {
    AllNarrow(lines, width) && forall i :: 0 <= i < |lines| ==> !LineOverflows(lines, i, width)
  }

  /** A blank takes no more than a line; it takes one column, so this is any line at all. */
  predicate BlanksFit(lines: seq<Line>, width: nat) {
    forall i, k :: 0 <= i < |lines| && 0 <= k < |lines[i]| && lines[i][k].Glyph? && lines[i][k].isSpace ==>
      lines[i][k].width <= width
  }

  function Joined(groups: seq<seq<Line>>): seq<Line> {
    if groups == [] then [] else Joined(groups[..|groups| - 1]) + groups[|groups| - 1]
  }

  /** The output lines come in groups, one for each of the first input lines: the line
      itself if it fits with the codes in front of it, or else that line cut into pieces. */
  ghost predicate Groups(lines: seq<Line>, width: nat, result: seq<Line>, groups: seq<seq<Line>>) {
    && |groups| <= |lines| && result == Joined(groups)
    && forall i :: 0 <= i < |groups| ==> Laid(Prefixed(lines, i), width, groups[i])
  }

  ghost predicate InGroups(lines: seq<Line>, width: nat, result: seq<Line>) {
    exists groups :: |groups| == |lines| && Groups(lines, width, result, groups)
  }

  lemma GroupsSnoc(lines: seq<Line>, width: nat, result: seq<Line>, groups: seq<seq<Line>>, group: seq<Line>)
    requires Groups(lines, width, result, groups) && |groups| < |lines| && Laid(Prefixed(lines, |groups|), width, group)
    ensures Groups(lines, width, result + group, groups + [group])
  {
    hide Laid, Prefixed;
    assert (groups + [group])[..|groups|] == groups;
  }

  lemma ShownTextNext(s: Style, lines: seq<Line>, i: nat)
    requires i < |lines|
    ensures ShownText(s, lines[i..]) == Shown(s, lines[i]) + ShownText(StyleAfter(s, lines[i]), lines[i + 1..])
  {
    assert lines[i..][1..] == lines[i + 1..];
  }

  /** A text, given as its input lines. Printed one by one in the plain style the output
      lines show every glyph but blanks, in order and in the style it has in the text. They
      all fit if and only if the text fits. Item by item, blanks included, they are the
      input lines: one that fits is left as it is. */
  method WrapTextWithAnsi(inputLines: seq<Line>, width: nat) returns (result: seq<Line>)
    requires |inputLines| > 0
    ensures |result| >= |inputLines|
    ensures ShownLines(result) == ShownText(PLAIN, inputLines)
    ensures InGroups(inputLines, width, result)
    ensures BlanksFit(inputLines, width) ==> (AllFit(result, width) <==> TextFits(inputLines, width))
  {
    hide Width, StyleAfter, Shown, ShownLines, ShownText, AnsiCodeTracker.View, NoneWider, Reachable, ActiveCodes,
         AllKept, AllClosed, Overflows, Tokens, Flatten, BlanksFit, Laid, Groups, LineOverflows;
    result := [];
    ghost var groups: seq<seq<Line>> := [];
    NoGroups(inputLines, width);
    var tracker := new AnsiCodeTracker();
    var i := 0;
    NothingShown();
    assert inputLines[0..] == inputLines;
    assert tracker.View() == StyleAfter(PLAIN, Flatten(inputLines[..0])) by { NoLinesYet(inputLines); }
    while i < |inputLines|
      invariant 0 <= i <= |inputLines| && |result| >= i && (i == 0 ==> result == [])
      invariant tracker.View() == StyleAfter(PLAIN, Flatten(inputLines[..i]))
      invariant |groups| == i && Groups(inputLines, width, result, groups)
      invariant ShownLines(result) + ShownText(tracker.View(), inputLines[i..]) == ShownText(PLAIN, inputLines)
      invariant AllNarrow(inputLines, width) ==>
                  (AllFit(result, width) <==> forall k :: 0 <= k < i ==> !LineOverflows(inputLines, k, width))
    {
      var inputLine := inputLines[i];
      ghost var s := tracker.View();
      var prefix: Line := [];
      if |result| > 0 {
        var codes := tracker.GetActiveCodes();
        prefix := Escapes(codes);
      }
      PrefixRestores(s, prefix, inputLines, i, width);
      var wrapped := WrapSingleLine(prefix + inputLine, width);
      ShownLinesConcat(result, wrapped);
      ShownTextNext(s, inputLines, i);
      AllFitJoined(result, wrapped, width);
      StyleOfLines(inputLines, i);
      GroupsSnoc(inputLines, width, result, groups, wrapped);
      groups := groups + [wrapped];
      OverflowOf(inputLines, i, width);
      assert NoneWider(inputLine, width) ==> (AllFit(wrapped, width) <==> !LineOverflows(inputLines, i, width));
      result := result + wrapped;
      UpdateTracker(inputLine, tracker);
      i := i + 1;
    }
    assert inputLines[i..] == [];
    NoMoreText(tracker.View());
    if BlanksFit(inputLines, width) && !AllNarrow(inputLines, width) { WideGlyphNeverFits(inputLines, result, width); }
  }

  lemma NoGroups(lines: seq<Line>, width: nat)
    ensures Groups(lines, width, [], [])
  {
  }

  lemma OverflowOf(lines: seq<Line>, i: nat, width: nat)
    requires i < |lines|
    ensures LineOverflows(lines, i, width) <==> Overflows(Tokens(Prefixed(lines, i)), width)
  {
  }

  lemma NoLinesYet(lines: seq<Line>)
    ensures StyleAfter(PLAIN, Flatten(lines[..0])) == PLAIN
  {
    assert lines[..0] == [];
  }

  lemma AllFitJoined(a: seq<Line>, b: seq<Line>, width: nat)
    ensures AllFit(a + b, width) <==> AllFit(a, width) && AllFit(b, width)
  {
    hide Width;
    assert forall k :: 0 <= k < |a| ==> (a + b)[k] == a[k];
    assert forall k :: 0 <= k < |b| ==> (a + b)[|a| + k] == b[k];
  }

  lemma StyleOfLines(lines: seq<Line>, i: nat)
    requires i < |lines|
    ensures StyleAfter(PLAIN, Flatten(lines[..i + 1])) == StyleAfter(StyleAfter(PLAIN, Flatten(lines[..i])), lines[i])
  {
    hide Flatten, StyleAfter;
    FlattenNext(lines, i);
    Concat(PLAIN, Flatten(lines[..i]), lines[i]);
  }

  lemma NoMoreText(s: Style)
    ensures ShownText(s, []) == []
  {
  }

  lemma PrefixRestores(s: Style, prefix: Line, lines: seq<Line>, i: nat, width: nat)
    requires i < |lines| && s == StyleAfter(PLAIN, Flatten(lines[..i]))
             && prefix == if i == 0 then [] else Escapes(ActiveCodes(s))
    ensures prefix + lines[i] == Prefixed(lines, i) && Shown(PLAIN, prefix + lines[i]) == Shown(s, lines[i])
    ensures NoneWider(lines[i], width) ==> NoneWider(prefix + lines[i], width)
  {
    hide Shown, StyleAfter, Width, Reachable, ActiveCodes, NoneWider;
    PlainIsReachable();
    StyleStaysReachable(PLAIN, Flatten(lines[..i]));
    ActiveCodesRestore(s);
    Concat(PLAIN, prefix, lines[i]);
    NoneWiderConcat(prefix, lines[i], width);
    EscapesAreNarrow(prefix, width);
    NothingShown();
    NothingStyled(PLAIN);
    if i == 0 { NoLinesYet(lines); }
  }

  lemma EscapesAreNarrow(line: Line, width: nat)
    requires OnlyEscapes(line)
    ensures NoneWider(line, width)
  {
  }

  // ----- a glyph wider than a line -----

  lemma {:induction false} ShownWithin(s: Style, line: Line)
    ensures forall c :: c in Shown(s, line) ==> c.width <= Width(line)
  {
    if line != [] { ShownWithin(s, line[..|line| - 1]); }
  }

  lemma {:induction false} GlyphIsShown(s: Style, line: Line, k: nat)
    requires k < |line| && line[k].Glyph? && !line[k].isSpace
    ensures exists c :: c in Shown(s, line) && c.width == line[k].width
  {
    var n := |line| - 1;
    if k < n {
      GlyphIsShown(s, line[..n], k);
      var c :| c in Shown(s, line[..n]) && c.width == line[k].width;
      assert c in Shown(s, line);
    } else {
      assert Cell(line[k].id, line[k].width, StyleAfter(s, line[..n])) in Shown(s, line);
    }
  }

  /** A line of a text shows its glyphs in some style. */
  lemma {:induction false} LineIsShown(s: Style, lines: seq<Line>, i: nat) returns (t: Style)
    requires i < |lines|
    ensures forall c :: c in Shown(t, lines[i]) ==> c in ShownText(s, lines)
    decreases i
  {
    hide Shown;
    if i == 0 {
      t := s;
    } else {
      t := LineIsShown(StyleAfter(s, lines[0]), lines[1..], i - 1);
    }
  }

  lemma {:induction false} FittingLinesShowFitting(lines: seq<Line>, width: nat)
    requires AllFit(lines, width)
    ensures forall c :: c in ShownLines(lines) ==> c.width <= width
  {
    hide Shown, Width;
    if lines != [] {
      var n := |lines| - 1;
      FittingLinesShowFitting(lines[..n], width);
      ShownWithin(PLAIN, lines[n]);
    }
  }

  /** Lines that show a text with a visible glyph wider than a line do not all fit. */
  lemma WideGlyphNeverFits(lines: seq<Line>, result: seq<Line>, width: nat)
    requires ShownLines(result) == ShownText(PLAIN, lines) && BlanksFit(lines, width) && !AllNarrow(lines, width)
    ensures !AllFit(result, width)
  {
    hide Shown, ShownText, ShownLines, Width;
    var i :| 0 <= i < |lines| && !NoneWider(lines[i], width);
    var k :| 0 <= k < |lines[i]| && lines[i][k].Glyph? && lines[i][k].width > width;
    assert !lines[i][k].isSpace;
    var t := LineIsShown(PLAIN, lines, i);
    GlyphIsShown(t, lines[i], k);
    if AllFit(result, width) { FittingLinesShowFitting(result, width); }
  }

  // ----- when nothing overflows -----

  /** Every word shows something: it takes a column. */
  predicate WordsShow(tokens: seq<Line>) {
    forall k :: 0 <= k < |tokens| && IsToken(tokens[k], false) ==> Width(tokens[k]) > 0
  }

  /** After a word that takes a column the line is not empty. */
  lemma ColumnAfterWord(tokens: seq<Line>, j: nat, width: nat)
    requires j < |tokens| && IsToken(tokens[j], false) && Width(tokens[j]) > 0 && NoneWider(tokens[j], width)
    ensures Column(tokens[..j + 1], width) > 0
  {
    hide Width, Column, CutEnd, IsToken, NoneWider;
    ColumnAfter(tokens, j, width);
    CutEndFits(tokens[j], width);
    BlankNeverWord(tokens[j]);
  }

  lemma BlankNeverWord(token: Line)
    requires IsToken(token, false)
    ensures !Blanks(token)
  {
  }

  /** If no glyph is wider than a line and every word takes a column, no line overflows. */
  lemma NoOverflow(line: Line, width: nat)
    requires NoneWider(line, width) && WordsShow(Tokens(line))
    ensures !Overflows(Tokens(line), width)
  {
    hide Width, Tokens, Column, Flatten, IsToken, Blanks, NoneWider, StyleAfter;
    var tokens := Tokens(line);
    TokensAreRuns(line);
    forall k: nat ensures !OverflowsAt(tokens, k, width) {
      if OverflowsAt(tokens, k, width) {
        TokenNoWider(tokens, k, width);
        WidthNeedsGlyph(line);
        if k == 0 {
          NoLinesYet(tokens);
        } else {
          BlankRun(tokens[k]);
          NotBoth(tokens[k], true);
          TokenNoWider(tokens, k - 1, width);
          ColumnAfterWord(tokens, k - 1, width);
        }
      }
    }
  }

  lemma BlankRun(token: Line)
    requires Blanks(token) && Width(token) > 0
    ensures IsToken(token, true)
  {
    WidthNeedsGlyph(token);
  }

  /** Codes in front of a line go to its first token. */
  function Attach(escapes: Line, tokens: seq<Line>): seq<Line> {
    if tokens == [] then [] else [escapes + tokens[0]] + tokens[1..]
  }

  predicate Attached(escapes: Line, st: SplitState, with: SplitState) {
    if st.tokens != [] then with == st.(tokens := Attach(escapes, st.tokens))
    else if st.current != [] then with == st.(current := escapes + st.current)
    else with == st.(pendingAnsi := escapes + st.pendingAnsi)
  }

  lemma {:induction false} SplitPrefixed(escapes: Line, line: Line)
    requires OnlyEscapes(escapes)
    ensures Attached(escapes, Split(line), Split(escapes + line))
  {
    hide Attached, SplitNext;
    if line == [] {
      SplitEscapes(escapes);
      assert escapes + line == escapes;
      AttachedAlone(escapes);
    } else {
      var n := |line| - 1;
      assert (escapes + line)[..|escapes + line| - 1] == escapes + line[..n];
      SplitPrefixed(escapes, line[..n]);
      AttachedNext(escapes, Split(line[..n]), Split(escapes + line[..n]), line[n]);
    }
  }

  lemma AttachedAlone(escapes: Line)
    ensures Attached(escapes, SplitState([], [], [], false), SplitState([], [], escapes, false))
  {
    assert escapes + [] == escapes;
  }

  lemma SplitSnoc(line: Line, item: Item)
    ensures Split(line + [item]) == SplitNext(Split(line), item) && Split([]) == SplitState([], [], [], false)
  {
    hide SplitNext;
    assert (line + [item])[..|line|] == line;
  }

  lemma {:induction false} SplitEscapes(escapes: Line)
    requires OnlyEscapes(escapes)
    ensures Split(escapes) == SplitState([], [], escapes, false)
  {
    hide Split;
    if escapes == [] {
      SplitSnoc([], Escape(OtherCode("")));
    } else {
      var n := |escapes| - 1;
      SplitEscapes(escapes[..n]);
      SplitSnoc(escapes[..n], escapes[n]);
      assert escapes == escapes[..n] + [escapes[n]];
    }
  }

  lemma AttachedNext(escapes: Line, st: SplitState, with: SplitState, item: Item)
    requires Attached(escapes, st, with)
    ensures Attached(escapes, SplitNext(st, item), SplitNext(with, item))
  {
    if st.tokens != [] {
      assert Attach(escapes, st.tokens) + [st.current] == Attach(escapes, st.tokens + [st.current]);
    } else if st.current != [] {
      assert [escapes + st.current] == Attach(escapes, [st.current]);
      assert [] + [escapes + st.current] == [escapes + st.current] && [] + [st.current] == [st.current];
      assert escapes + st.current + with.pendingAnsi + [item] == escapes + (st.current + st.pendingAnsi + [item]);
    } else {
      assert [] + (escapes + st.pendingAnsi) + [item] == escapes + ([] + st.pendingAnsi + [item]);
      assert escapes + st.pendingAnsi + [item] == escapes + (st.pendingAnsi + [item]);
    }
  }

  lemma TokensPrefixed(escapes: Line, line: Line)
    requires OnlyEscapes(escapes) && Tokens(line) != []
    ensures Tokens(escapes + line) == Attach(escapes, Tokens(line))
  {
    hide Split;
    SplitPrefixed(escapes, line);
    var st := Split(line);
    var last := st.current + st.pendingAnsi;
    if st.tokens != [] {
      if last != [] { assert Attach(escapes, st.tokens) + [last] == Attach(escapes, st.tokens + [last]); }
    } else {
      SplitIsSound(line);
      assert escapes + st.current + st.pendingAnsi == escapes + last;
      if st.current == [] { assert st.current + (escapes + st.pendingAnsi) == escapes + last; }
      assert [] + [escapes + last] == Attach(escapes, [] + [last]);
    }
  }

  lemma WordsShowPrefixed(escapes: Line, line: Line)
    requires OnlyEscapes(escapes) && WordsShow(Tokens(line))
    ensures WordsShow(Tokens(escapes + line))
  {
    hide Tokens, Width;
    if Tokens(line) == [] {
      NoTokensNoWords(escapes, line);
    } else {
      TokensPrefixed(escapes, line);
      var first := Tokens(line)[0];
      Concat(PLAIN, escapes, first);
      WordWithoutPrefix(escapes, first);
    }
  }

  lemma WordWithoutPrefix(escapes: Line, token: Line)
    requires OnlyEscapes(escapes)
    ensures IsToken(escapes + token, false) ==> IsToken(token, false)
  {
    var all := escapes + token;
    assert forall i :: 0 <= i < |token| ==> all[|escapes| + i] == token[i];
    if IsToken(all, false) {
      var i :| 0 <= i < |all| && all[i].Glyph?;
      assert all[i] == token[i - |escapes|];
    }
  }

  lemma NoTokensNoWords(escapes: Line, line: Line)
    requires OnlyEscapes(escapes) && Tokens(line) == []
    ensures WordsShow(Tokens(escapes + line))
  {
    hide Width, Split;
    TokensAreRuns(line);
    assert line == [] by { NoTokens(); }
    assert escapes + line == escapes;
    SplitEscapes(escapes);
    assert forall k :: 0 <= k < |Tokens(escapes)| ==> Tokens(escapes)[k] == escapes;
  }

  lemma NoTokens()
    ensures Flatten([]) == []
  {
  }

  /** So a text fits if no glyph is wider than a line and each of its words takes a
      column; zero-width glyphs within words do no harm. */
  lemma WordsThatShowFit(lines: seq<Line>, width: nat)
    requires AllNarrow(lines, width) && forall i :: 0 <= i < |lines| ==> WordsShow(Tokens(lines[i]))
    ensures TextFits(lines, width)
  {
    hide Tokens, WordsShow, NoneWider, Overflows, StyleAfter, Flatten, ActiveCodes;
    forall i | 0 <= i < |lines| ensures !LineOverflows(lines, i, width) {
      var s := StyleAfter(PLAIN, Flatten(lines[..i]));
      var prefix := if i == 0 then [] else Escapes(ActiveCodes(s));
      assert Prefixed(lines, i) == prefix + lines[i];
      EscapesAreNarrow(prefix, width);
      NoneWiderConcat(prefix, lines[i], width);
      WordsShowPrefixed(prefix, lines[i]);
      NoOverflow(prefix + lines[i], width);
    }
  }

  // ----- a line that overflows -----

  predicate AllGlyphs(line: Line, blank: bool) {
    line != [] && forall i :: 0 <= i < |line| ==> line[i].Glyph? && line[i].isSpace == blank
  }

  /** A run of the other kind is a token of its own. */
  lemma {:induction false} SplitRun(line: Line, run: Line, blank: bool)
    requires AllGlyphs(run, blank)
    requires var st := Split(line); st.current != [] && st.pendingAnsi == [] && st.inWhitespace == !blank
    ensures Split(line + run) == SplitState(Split(line).tokens + [Split(line).current], run, [], blank)
  {
    var n := |run| - 1;
    assert (line + run)[..|line + run| - 1] == line + run[..n];
    assert run == run[..n] + [run[n]];
    if n == 0 {
      assert line + run[..n] == line && [] + [run[n]] == run;
    } else {
      SplitRun(line, run[..n], blank);
      assert run[..n] + [] + [run[n]] == run;
    }
  }

  function Underlined(glyph: Item): Line { [Escape(Sgr([Plain(4)])), glyph] }

  /** Underline, a glyph without width, more blanks than a line holds, and a word that must
      be cut: the blanks stay on their line, behind them the code that ends underline. */
  lemma ZeroWidthOverflows(glyph: Item, blanks: Line, word: Line, width: nat)
    requires glyph.Glyph? && !glyph.isSpace && glyph.width == 0
    requires AllGlyphs(blanks, true) && Width(blanks) > width
    requires AllGlyphs(word, false) && Width(word) > width
    ensures var line := Underlined(glyph) + blanks + word;
            Tokens(line) == [Underlined(glyph), blanks, word] && OverflowsAt(Tokens(line), 1, width)
  {
    hide Width, StyleAfter, Column, Split;
    var start := Underlined(glyph);
    SplitUnderlined(glyph);
    SplitRun(start, blanks, true);
    SplitRun(start + blanks, word, false);
    assert [] + [start] + [blanks] == [start, blanks] && word + [] == word;
    var tokens := [start, blanks, word];
    assert [start, blanks] + [word] == tokens;
    UnderlinedStart(glyph, tokens, width);
    assert !word[0].isSpace;
  }

  const UNDERLINE := Escape(Sgr([Plain(4)]))

  lemma SplitUnderlined(glyph: Item)
    requires glyph.Glyph? && !glyph.isSpace
    ensures Split(Underlined(glyph)) == SplitState([], Underlined(glyph), [], false)
  {
    hide Split;
    SplitSnoc([], UNDERLINE);
    SplitSnoc([UNDERLINE], glyph);
    assert [] + [UNDERLINE] == [UNDERLINE] && [UNDERLINE] + [glyph] == Underlined(glyph);
    assert [] + [UNDERLINE] + [glyph] == Underlined(glyph);
  }

  lemma UnderlinedStart(glyph: Item, tokens: seq<Line>, width: nat)
    requires glyph.Glyph? && !glyph.isSpace && glyph.width == 0 && tokens != [] && tokens[0] == Underlined(glyph)
    ensures Column(tokens[..1], width) == 0 && Open(StyleAfter(PLAIN, Flatten(tokens[..1])))
  {
    hide Width, StyleAfter, Column, Flatten, Process;
    var line := Underlined(glyph);
    NoTokens();
    FlattenNext(tokens, 0);
    ColumnAfter(tokens, 0, width);
    assert tokens[..0] == [] && [] + line == line;
    NoColumn(width);
    UnderlinedLine(glyph);
  }

  lemma NoColumn(width: nat)
    ensures Column([], width) == 0
  {
  }

  lemma UnderlinedLine(glyph: Item)
    requires glyph.Glyph? && glyph.width == 0
    ensures Width(Underlined(glyph)) == 0 && Open(StyleAfter(PLAIN, Underlined(glyph)))
  {
    hide Width, StyleAfter, SwitchOff, ApplyParams;
    OneItem(PLAIN, UNDERLINE);
    OneAttribute(PLAIN, 4);
    var s := Process(PLAIN, UNDERLINE.code);
    assert s == PLAIN.(attributes := ALL_OFF.(underline := true));
    OneItem(s, glyph);
    Concat(PLAIN, [UNDERLINE], [glyph]);
    assert [UNDERLINE] + [glyph] == Underlined(glyph);
  }

  function Run(n: nat, glyph: Item): (line: Line)
    ensures |line| == n && forall i :: 0 <= i < n ==> line[i] == glyph
  {
    seq(n, _ => glyph)
  }

  lemma {:induction false} RunWidth(n: nat, glyph: Item)
    requires glyph.Glyph? && glyph.width == 1
    ensures Width(Run(n, glyph)) == n
  {
    if n > 0 {
      RunWidth(n - 1, glyph);
      assert Run(n, glyph)[..n - 1] == Run(n - 1, glyph);
    }
  }

  /** Five columns: underline, a zero-width space, six blanks, a word of eight letters. The
      text does not fit, though none of its glyphs is wider than one column. */
  lemma SixBlanksOverflow(zeroWidth: nat, blank: nat, letter: nat)
    ensures var line := Underlined(Glyph(zeroWidth, 0, false)) + Run(6, Glyph(blank, 1, true))
                       + Run(8, Glyph(letter, 1, false));
            AllNarrow([line], 5) && BlanksFit([line], 5) && !TextFits([line], 5)
  {
    hide Tokens, Width, OverflowsAt;
    var blanks, word := Run(6, Glyph(blank, 1, true)), Run(8, Glyph(letter, 1, false));
    RunWidth(6, Glyph(blank, 1, true));
    RunWidth(8, Glyph(letter, 1, false));
    ZeroWidthOverflows(Glyph(zeroWidth, 0, false), blanks, word, 5);
    var line := Underlined(Glyph(zeroWidth, 0, false)) + blanks + word;
    assert [line][0] == line && Prefixed([line], 0) == line;
    assert LineOverflows([line], 0, 5);
  }
}
