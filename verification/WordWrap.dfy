/** Wrapping: no line is too wide, no word and no style is lost. */
module WordWrap {
  import opened Ansi
  import opened Wrap
  import opened WrapLayout

  /** What wrapped lines owe to the text they come from, when the last of them is still
      being written: they show what the text shows and leave the text's style on. */
  predicate Renders(lines: seq<Line>, current: Line, s: Style, text: Line) {
    && ShownLines(lines) + Shown(PLAIN, current) == Shown(s, text)
    && StyleAfter(PLAIN, current) == StyleAfter(s, text)
  }

  predicate AllClosed(lines: seq<Line>) { forall k :: 0 <= k < |lines| ==> Closed(lines[k]) }

  predicate AllFit(lines: seq<Line>, width: nat) { forall k :: 0 <= k < |lines| ==> Width(lines[k]) <= width }

  lemma OneItem(s: Style, item: Item)
    ensures FirstWidth([item]) == ItemWidth(item)
    ensures Width([item]) == ItemWidth(item)
    ensures StyleAfter(s, [item]) == ItemStyle(s, item)
  {
    assert [item][..0] == [];
  }

  lemma RendersStart(s: Style)
    requires Reachable(s)
    ensures Renders([], Escapes(ActiveCodes(s)), s, []) && Width(Escapes(ActiveCodes(s))) == 0 && Width([]) == 0
  {
    hide ActiveCodes, Reachable;
    ActiveCodesRestore(s);
  }

  lemma RendersStyle(lines: seq<Line>, current: Line, s: Style, text: Line)
    requires Renders(lines, current, s, text)
    ensures StyleAfter(PLAIN, current) == StyleAfter(s, text)
  {
  }

  /** The next items of the text go at the end of the current line. */
  lemma RendersAppend(lines: seq<Line>, current: Line, s: Style, text: Line, more: Line)
    requires Renders(lines, current, s, text)
    ensures Renders(lines, current + more, s, text + more)
    ensures Width(current + more) == Width(current) + Width(more)
    ensures Width(text + more) == Width(text) + Width(more)
    ensures StyleAfter(s, text + more) == StyleAfter(StyleAfter(s, text), more)
  {
    hide StyleAfter, Shown, ShownLines, Width;
    Concat(PLAIN, current, more);
    Concat(s, text, more);
  }

  /** The current line is finished and the next one starts in the same style. */
  lemma RendersBreak(lines: seq<Line>, current: Line, ended: Line, s: Style, text: Line)
    requires Renders(lines, current, s, text) && Reachable(s)
    requires Shown(PLAIN, ended) == Shown(PLAIN, current)
    ensures Renders(lines + [ended], Escapes(ActiveCodes(StyleAfter(s, text))), s, text)
    ensures Width(Escapes(ActiveCodes(StyleAfter(s, text)))) == 0
  {
    hide StyleAfter, Shown, ShownLines, Reachable, ActiveCodes, Width;
    ShownLinesSnoc(lines, ended);
    StyleStaysReachable(s, text);
    ActiveCodesRestore(StyleAfter(s, text));
  }

  /** No line could have taken the first glyph of the next one as well. */
  predicate Full(lines: seq<Line>, width: nat) {
    forall k :: 0 < k < |lines| ==> Width(lines[k - 1]) + FirstWidth(lines[k]) > width
  }

  /** The column after a word is cut into lines of a width. */
  function CutEnd(word: Line, width: nat): nat {
    if word == [] then 0
    else CutNext(CutEnd(word[..|word| - 1], width), word[|word| - 1], width)
  }

  function CutNext(column: nat, item: Item, width: nat): nat {
    if item.Escape? then column else if column + item.width > width then item.width else column + item.width
  }

  lemma CutEndSnoc(word: Line, item: Item, width: nat)
    ensures CutEnd(word + [item], width) == CutNext(CutEnd(word, width), item, width)
  {
    assert (word + [item])[..|word|] == word;
  }

  lemma {:induction false} CutEndFits(word: Line, width: nat)
    requires NoneWider(word, width)
    ensures CutEnd(word, width) <= width && (Width(word) > 0 ==> CutEnd(word, width) > 0)
  {
    if word != [] { CutEndFits(word[..|word| - 1], width); }
  }

  /** Ends a full line; the next one starts in the same style. */
  method EndLine(tracker: AnsiCodeTracker, current: Line, ghost lines: seq<Line>, ghost s: Style,
                 ghost text: Line) returns (ended: Line, next: Line)
    requires Renders(lines, current, s, text) && Reachable(s) && tracker.View() == StyleAfter(s, text)
    ensures Renders(lines + [ended], next, s, text) && Closed(ended)
    ensures Width(ended) == Width(current) && Width(next) == 0 && OnlyEscapes(next)
    ensures HasGlyph(current) ==> FirstWidth(ended) == FirstWidth(current)
    ensures ended == current + Escapes(LineEndReset(StyleAfter(s, text)))
            && next == Escapes(ActiveCodes(StyleAfter(s, text)))
  {
    hide AnsiCodeTracker.View, StyleAfter, Width, Reachable, ActiveCodes, LineEndReset, Closed, Renders, HasGlyph;
    var reset := tracker.GetLineEndReset();
    RendersStyle(lines, current, s, text);
    LineEndCloses(current);
    FirstWidthAppend(current, Escapes(reset));
    ended := current + Escapes(reset);
    RendersBreak(lines, current, ended, s, text);
    var codes := tracker.GetActiveCodes();
    next := Escapes(codes);
  }

  /** While a word is cut: the lines so far are closed and full, and show what was read. */
  predicate Cutting(lines: seq<Line>, current: Line, s: Style, text: Line, width: nat) {
    && Renders(lines, current, s, text) && AllClosed(lines) && Full(lines, width)
    && Width(current) == CutEnd(text, width)
    && (lines != [] ==> Width(lines[|lines| - 1]) + FirstWidth(current) > width && HasGlyph(current))
  }

  lemma CuttingStarts(s: Style, width: nat)
    requires Reachable(s)
    ensures Cutting([], Escapes(ActiveCodes(s)), s, [], width) && Width(Escapes(ActiveCodes(s))) == 0
            && StyleAfter(s, []) == s
  {
    hide Reachable, ActiveCodes, Renders;
    RendersStart(s);
    NothingStyled(s);
  }

  lemma CuttingAppends(lines: seq<Line>, current: Line, s: Style, text: Line, item: Item, width: nat)
    requires Cutting(lines, current, s, text, width) && (item.Escape? || Width(current) + item.width <= width)
    ensures Cutting(lines, current + [item], s, text + [item], width)
    ensures Width(current + [item]) == Width(current) + ItemWidth(item)
    ensures StyleAfter(s, text + [item]) == ItemStyle(StyleAfter(s, text), item)
  {
    hide FirstWidth, StyleAfter, Width, Renders, HasGlyph, CutEnd, Process, AllClosed, Full;
    OneItem(StyleAfter(s, text), item);
    FirstWidthAppend(current, [item]);
    CutEndSnoc(text, item, width);
    RendersAppend(lines, current, s, text, [item]);
  }

  lemma CuttingBreaks(lines: seq<Line>, current: Line, ended: Line, next: Line, s: Style, text: Line, item: Item,
                      width: nat)
    requires Cutting(lines, current, s, text, width) && item.Glyph? && Width(current) + item.width > width
    requires Renders(lines + [ended], next, s, text) && Closed(ended) && OnlyEscapes(next) && Width(next) == 0
    requires Width(ended) == Width(current) && (HasGlyph(current) ==> FirstWidth(ended) == FirstWidth(current))
    ensures Cutting(lines + [ended], next + [item], s, text + [item], width)
    ensures Width(next + [item]) == item.width
    ensures StyleAfter(s, text + [item]) == StyleAfter(s, text)
  {
    hide FirstWidth, StyleAfter, Width, Renders, HasGlyph, CutEnd, Process, Closed;
    OneItem(StyleAfter(s, text), item);
    NewLineWithGlyph(next, item);
    CutEndSnoc(text, item, width);
    RendersAppend(lines + [ended], next, s, text, [item]);
  }

  /** The line that was being written is the last one. */
  lemma CuttingEnds(lines: seq<Line>, current: Line, s: Style, text: Line, width: nat)
    requires Cutting(lines, current, s, text, width)
    ensures Renders(lines, current, s, text) && AllClosed(lines) && Full(lines + [current], width)
    ensures Width(current) == CutEnd(text, width) && (current == [] ==> lines == [])
  {
    hide FirstWidth, StyleAfter, Width, Renders, CutEnd, Closed;
  }

  /** A word wider than a line is cut wherever a line is full. */
  method BreakLongWord(word: Line, width: nat, tracker: AnsiCodeTracker) returns (lines: seq<Line>)
    requires Reachable(tracker.View())
    modifies tracker
    ensures tracker.View() == StyleAfter(old(tracker.View()), word)
    ensures |lines| > 0 && AllClosed(lines[..|lines| - 1]) && (NoneWider(word, width) ==> AllFit(lines, width))
    ensures Renders(lines[..|lines| - 1], lines[|lines| - 1], old(tracker.View()), word)
    ensures Full(lines, width)
    ensures Width(lines[|lines| - 1]) == CutEnd(word, width)
    ensures CutLaid(lines[..|lines| - 1], lines[|lines| - 1], old(tracker.View()), word, width)
  {
    hide Process, AnsiCodeTracker.View, StyleAfter, Width, Reachable, ActiveCodes, Renders, HasGlyph, CutEnd, Cutting,
         Closed, AllClosed, Full, CutLaid, LineEndReset;
    ghost var s := tracker.View();
    lines := [];
    var codes := tracker.GetActiveCodes();
    var currentLine: Line := Escapes(codes);
    var currentWidth := 0;
    CuttingStarts(s, width);
    CutStarts(s, width);
    assert word[..0] == [];
    var i := 0;
    while i < |word|
      invariant 0 <= i <= |word|
      invariant tracker.View() == StyleAfter(s, word[..i])
      invariant Cutting(lines, currentLine, s, word[..i], width) && CutLaid(lines, currentLine, s, word[..i], width)
      invariant Width(currentLine) == currentWidth
      invariant NoneWider(word, width) ==> AllFit(lines, width) && currentWidth <= width
    {
      var item := word[i];
      ghost var before := word[..i];
      assert word[..i + 1] == before + [item];
      if item.Escape? {
        CuttingAppends(lines, currentLine, s, before, item, width);
        CutAppends(lines, currentLine, s, before, item, width);
        currentLine := currentLine + [item];
        tracker.ProcessCode(item.code);
        i := i + 1;
        continue;
      }
      if currentWidth + item.width > width {
        CuttingEnds(lines, currentLine, s, before, width);
        var ended, next := EndLine(tracker, currentLine, lines, s, before);
        CuttingBreaks(lines, currentLine, ended, next, s, before, item, width);
        CutEnds(lines, currentLine, s, before, item, width);
        lines := lines + [ended];
        currentLine := next;
        currentWidth := 0;
      } else {
        CuttingAppends(lines, currentLine, s, before, item, width);
        CutAppends(lines, currentLine, s, before, item, width);
      }
      currentLine := currentLine + [item];
      currentWidth := currentWidth + item.width;
      i := i + 1;
    }
    assert word[..i] == word;
    CuttingEnds(lines, currentLine, s, word, width);
    if currentLine != [] {
      lines := lines + [currentLine];
    }
    if lines == [] {
      assert lines + [currentLine] == [[]];
      lines := [[]];
    }
  }

  lemma NewLineWithGlyph(escapes: Line, glyph: Item)
    requires glyph.Glyph? && OnlyEscapes(escapes)
    ensures FirstWidth(escapes + [glyph]) == glyph.width && HasGlyph(escapes + [glyph])
  {
    FirstWidthAppend(escapes, [glyph]);
    assert (escapes + [glyph])[|escapes|] == glyph;
  }

  lemma NothingStyled(s: Style)
    ensures StyleAfter(s, []) == s && Width([]) == 0
  {
  }

  // ----- where a line is too wide -----

  /** The column after the tokens: widths alone decide where lines end. */
  function Column(tokens: seq<Line>, width: nat): nat {
    if tokens == [] then 0 else ColumnNext(Column(tokens[..|tokens| - 1], width), tokens[|tokens| - 1], width)
  }

  function ColumnNext(column: nat, token: Line, width: nat): nat {
    if IsCut(token, width) then CutEnd(token, width)
    else if column + Width(token) > width && column > 0 then if Blanks(token) then 0 else Width(token)
    else column + Width(token)
  }

  predicate Open(s: Style) { s.attributes.underline || s.hyperlink.Some? }

  /** A run of plain blanks wider than a line is put on a line without a visible glyph,
      while underline or a link is on, and the word after it has to be cut. */
  predicate OverflowsAt(tokens: seq<Line>, k: nat, width: nat) {
    && k + 1 < |tokens|
    && Blanks(tokens[k]) && Width(tokens[k]) > width
    && Column(tokens[..k], width) == 0 && Open(StyleAfter(PLAIN, Flatten(tokens[..k])))
    && IsCut(tokens[k + 1], width)
  }

  ghost predicate Overflows(tokens: seq<Line>, width: nat) { exists k: nat :: OverflowsAt(tokens, k, width) }

  /** Whether a token overflows depends on the tokens up to the next one only. */
  lemma OverflowIsLocal(tokens: seq<Line>, n: nat, k: nat, width: nat)
    requires k + 1 < n <= |tokens|
    ensures OverflowsAt(tokens[..n], k, width) <==> OverflowsAt(tokens, k, width)
  {
    hide Width, Column, Flatten, Open;
    assert tokens[..n][..k] == tokens[..k];
  }

  lemma OverflowsSoFar(tokens: seq<Line>, j: nat, width: nat)
    requires j < |tokens|
    ensures Overflows(tokens[..j + 1], width) <==>
              Overflows(tokens[..j], width) || (j > 0 && OverflowsAt(tokens, j - 1, width))
  {
    hide Width, Column, Flatten, Open, Blanks;
    if Overflows(tokens[..j + 1], width) {
      var k: nat :| OverflowsAt(tokens[..j + 1], k, width);
      OverflowIsLocal(tokens, j + 1, k, width);
      if k + 1 < j { OverflowIsLocal(tokens, j, k, width); }
    }
    if Overflows(tokens[..j], width) {
      var k: nat :| OverflowsAt(tokens[..j], k, width);
      OverflowIsLocal(tokens, j, k, width);
      OverflowIsLocal(tokens, j + 1, k, width);
    }
    if j > 0 { OverflowIsLocal(tokens, j + 1, j - 1, width); }
  }

  lemma ColumnAfter(tokens: seq<Line>, j: nat, width: nat)
    requires j < |tokens|
    ensures Column(tokens[..j + 1], width) == ColumnNext(Column(tokens[..j], width), tokens[j], width)
  {
    assert tokens[..j + 1][..j] == tokens[..j];
  }

  /** A finished line that will fit once its trailing blanks are gone. */
  predicate AllFitTrimmed(lines: seq<Line>, width: nat) {
    forall k :: 0 <= k < |lines| ==> Width(TrimEnd(lines[k])) <= width
  }

  /** The wide line that is being written holds the blanks just put on an empty line. */
  predicate WideBlanks(current: Line, tokens: seq<Line>, j: nat, width: nat)
    requires j <= |tokens|
  {
    && j > 0 && Blanks(tokens[j - 1]) && Width(tokens[j - 1]) > width
    && Column(tokens[..j - 1], width) == 0 && Width(TrimEnd(current)) <= width
  }

  /** After `j` tokens: the finished lines fit if and only if no overflow has happened. */
  ghost predicate FitState(wrapped: seq<Line>, current: Line, tokens: seq<Line>, j: nat, width: nat)
    requires j <= |tokens|
  {
    && Width(current) == Column(tokens[..j], width)
    && (Width(current) > width ==> WideBlanks(current, tokens, j, width))
    && (AllFitTrimmed(wrapped, width) <==> !Overflows(tokens[..j], width))
  }

  lemma FitStart(tokens: seq<Line>, width: nat)
    ensures FitState([], [], tokens, 0, width)
  {
    NothingStyled(PLAIN);
  }

  /** The token joins the current line. */
  lemma FitJoins(wrapped: seq<Line>, current: Line, tokens: seq<Line>, j: nat, width: nat)
    requires j < |tokens| && FitState(wrapped, current, tokens, j, width)
    requires !IsCut(tokens[j], width) && (Width(current) == 0 || Width(current) + Width(tokens[j]) <= width)
    ensures FitState(wrapped, current + tokens[j], tokens, j + 1, width)
  {
    hide Width, Overflows, AllFitTrimmed, StyleAfter, Column, TrimEnd;
    ColumnAfter(tokens, j, width);
    OverflowsSoFar(tokens, j, width);
    Concat(PLAIN, current, tokens[j]);
    if Width(tokens[j]) > width {
      TrimmedBlanks(current, tokens[j]);
      TrimEndEffect(PLAIN, current);
    }
  }

  lemma {:induction false} TrimmedBlanks(line: Line, blanks: Line)
    requires Blanks(blanks)
    ensures TrimEnd(line + blanks) == TrimEnd(line)
  {
    if blanks == [] {
      assert line + blanks == line;
    } else {
      var n := |blanks| - 1;
      assert (line + blanks)[..|line + blanks| - 1] == line + blanks[..n];
      TrimmedBlanks(line, blanks[..n]);
    }
  }

  lemma AllFitConcat(a: seq<Line>, b: seq<Line>, width: nat)
    ensures AllFitTrimmed(a + b, width) <==> AllFitTrimmed(a, width) && AllFitTrimmed(b, width)
  {
    hide Width, TrimEnd;
    if AllFitTrimmed(a + b, width) {
      assert forall k :: 0 <= k < |a| ==> (a + b)[k] == a[k];
      assert forall k :: 0 <= k < |b| ==> (a + b)[|a| + k] == b[k];
    }
  }

  /** The current line is trimmed and ended before the token; blanks are dropped. */
  lemma FitEnds(wrapped: seq<Line>, current: Line, tokens: seq<Line>, j: nat, width: nat, next: Line)
    requires j < |tokens| && FitState(wrapped, current, tokens, j, width)
    requires !IsCut(tokens[j], width) && Width(current) > 0 && Width(current) + Width(tokens[j]) > width
    requires Width(next) == if Blanks(tokens[j]) then 0 else Width(tokens[j])
    ensures FitState(wrapped + [TrimEnd(current) + Escapes(LineEndReset(StyleAfter(PLAIN, TrimEnd(current))))], next,
                     tokens, j + 1, width)
  {
    hide Width, Overflows, StyleAfter, Column, TrimEnd, LineEndReset;
    ColumnAfter(tokens, j, width);
    OverflowsSoFar(tokens, j, width);
    TrimEndEffect(PLAIN, current);
    LineEndCloses(TrimEnd(current));
    var ended := TrimEnd(current) + Escapes(LineEndReset(StyleAfter(PLAIN, TrimEnd(current))));
    TrimEndEffect(PLAIN, ended);
    AllFitConcat(wrapped, [ended], width);
  }

  /** The current line is ended as it is before a word that is cut. Only here blanks may
      be left on a wide line: if codes come behind them. */
  lemma FitCuts(wrapped: seq<Line>, current: Line, tokens: seq<Line>, j: nat, width: nat, broken: seq<Line>)
    requires j < |tokens| && FitState(wrapped, current, tokens, j, width) && IsCut(tokens[j], width)
    requires StyleAfter(PLAIN, current) == StyleAfter(PLAIN, Flatten(tokens[..j]))
    requires |broken| > 0 && AllFit(broken, width) && Width(broken[|broken| - 1]) == CutEnd(tokens[j], width)
    ensures var ended := if current == [] then [] else [current + Escapes(LineEndReset(StyleAfter(PLAIN, current)))];
            FitState(wrapped + ended + broken[..|broken| - 1], broken[|broken| - 1], tokens, j + 1, width)
  {
    hide Width, Overflows, StyleAfter, Column, TrimEnd, LineEndReset;
    ColumnAfter(tokens, j, width);
    OverflowsSoFar(tokens, j, width);
    var cut := broken[..|broken| - 1];
    forall k | 0 <= k < |cut| ensures Width(TrimEnd(cut[k])) <= width {
      TrimEndEffect(PLAIN, cut[k]);
      assert cut[k] == broken[k];
    }
    NothingStyled(PLAIN);
    EndedBeforeCut(current, tokens, j, width);
    LineEndCloses(current);
    TrimEndEffect(PLAIN, current + Escapes(LineEndReset(StyleAfter(PLAIN, current))));
    var ended := if current == [] then [] else [current + Escapes(LineEndReset(StyleAfter(PLAIN, current)))];
    AllFitConcat(wrapped, ended, width);
    AllFitConcat(wrapped + ended, cut, width);
    assert current != [] ==> ended[0] == current + Escapes(LineEndReset(StyleAfter(PLAIN, current)));
    assert AllFitTrimmed(ended, width) <==> !(j > 0 && OverflowsAt(tokens, j - 1, width));
    assert AllFitTrimmed(cut, width);
  }

  lemma EndedBeforeCut(current: Line, tokens: seq<Line>, j: nat, width: nat)
    requires j < |tokens| && IsCut(tokens[j], width)
    requires Width(current) == Column(tokens[..j], width)
    requires Width(current) > width ==> WideBlanks(current, tokens, j, width)
    requires StyleAfter(PLAIN, current) == StyleAfter(PLAIN, Flatten(tokens[..j]))
    ensures var ended := current + Escapes(LineEndReset(StyleAfter(PLAIN, current)));
            Width(TrimEnd(ended)) <= width <==> !(j > 0 && OverflowsAt(tokens, j - 1, width))
  {
    hide Width, StyleAfter, Column, Flatten, TrimEnd, LineEndReset, Open, Blanks;
    if Width(current) <= width {
      LineEndCloses(current);
      TrimEndEffect(PLAIN, current + Escapes(LineEndReset(StyleAfter(PLAIN, current))));
      if j > 0 && OverflowsAt(tokens, j - 1, width) { ColumnOfWideBlanks(tokens, j, width); }
    } else {
      StyleOfWideBlanks(tokens, j);
      WideLineEnded(current, width);
    }
  }

  lemma ColumnOfWideBlanks(tokens: seq<Line>, j: nat, width: nat)
    requires 0 < j <= |tokens| && Blanks(tokens[j - 1]) && Width(tokens[j - 1]) > width
             && Column(tokens[..j - 1], width) == 0
    ensures Column(tokens[..j], width) > width
  {
    hide Width, Column;
    ColumnAfter(tokens, j - 1, width);
  }

  lemma StyleOfWideBlanks(tokens: seq<Line>, j: nat)
    requires 0 < j <= |tokens| && Blanks(tokens[j - 1])
    ensures StyleAfter(PLAIN, Flatten(tokens[..j])) == StyleAfter(PLAIN, Flatten(tokens[..j - 1]))
  {
    hide Width, StyleAfter, Flatten;
    FlattenNext(tokens, j - 1);
    Concat(PLAIN, Flatten(tokens[..j - 1]), tokens[j - 1]);
    BlanksShowNothing(StyleAfter(PLAIN, Flatten(tokens[..j - 1])), tokens[j - 1]);
  }

  /** Codes behind blanks keep them on the line. */
  lemma WideLineEnded(current: Line, width: nat)
    requires Width(current) > width && Width(TrimEnd(current)) <= width
    ensures var s := StyleAfter(PLAIN, current);
            Width(TrimEnd(current + Escapes(LineEndReset(s)))) <= width <==> !Open(s)
  {
    hide Width, StyleAfter;
    var s := StyleAfter(PLAIN, current);
    var ended := current + Escapes(LineEndReset(s));
    LineEndCloses(current);
    if Open(s) {
      assert ended[|ended| - 1].Escape?;
      assert TrimEnd(ended) == ended;
    } else {
      assert ended == current;
    }
  }

  lemma FlattenNext(tokens: seq<Line>, j: nat)
    requires j < |tokens|
    ensures Flatten(tokens[..j + 1]) == Flatten(tokens[..j]) + tokens[j]
  {
    assert tokens[..j + 1] == tokens[..j] + [tokens[j]];
    FlattenSnoc(tokens[..j], tokens[j]);
  }

  // ----- what the lines show -----

  /** The lines show what has been read of the line, and its style is on. */
  predicate ContentState(wrapped: seq<Line>, current: Line, s: Style, text: Line) {
    Renders(wrapped, current, PLAIN, text) && s == StyleAfter(PLAIN, text) && AllClosed(wrapped)
  }

  lemma ContentStart()
    ensures ContentState([], [], PLAIN, [])
  {
  }

  lemma ContentJoins(wrapped: seq<Line>, current: Line, s: Style, text: Line, token: Line)
    requires ContentState(wrapped, current, s, text)
    ensures ContentState(wrapped, current + token, StyleAfter(s, token), text + token)
  {
    hide Renders, AllClosed, StyleAfter;
    RendersAppend(wrapped, current, PLAIN, text, token);
  }

  /** The current line is trimmed and ended, and a line with the same style begins. */
  lemma ContentEnds(wrapped: seq<Line>, current: Line, s: Style, text: Line)
    requires ContentState(wrapped, current, s, text)
    ensures StyleAfter(PLAIN, TrimEnd(current)) == s
    ensures ContentState(wrapped + [TrimEnd(current) + Escapes(LineEndReset(s))], Escapes(ActiveCodes(s)), s, text)
    ensures Width(Escapes(ActiveCodes(s))) == 0
  {
    hide StyleAfter, Shown, Width, TrimEnd, Closed, ActiveCodes, Renders;
    PlainIsReachable();
    RendersStyle(wrapped, current, PLAIN, text);
    TrimEndEffect(PLAIN, current);
    LineEndCloses(TrimEnd(current));
    RendersBreak(wrapped, current, TrimEnd(current) + Escapes(LineEndReset(s)), PLAIN, text);
  }

  lemma PlainIsReachable()
    ensures Reachable(PLAIN)
  {
  }

  lemma BlanksSkipped(wrapped: seq<Line>, current: Line, s: Style, text: Line, token: Line)
    requires ContentState(wrapped, current, s, text) && Blanks(token)
    ensures ContentState(wrapped, current, StyleAfter(s, token), text + token)
  {
    hide StyleAfter, Shown, ShownLines, Width, AllClosed;
    BlanksShowNothing(s, token);
    Concat(PLAIN, text, token);
  }

  /** The current line is ended as it is; a cut word follows. */
  lemma ContentCuts(wrapped: seq<Line>, current: Line, s: Style, text: Line, token: Line, broken: seq<Line>)
    requires ContentState(wrapped, current, s, text)
    requires |broken| > 0 && AllClosed(broken[..|broken| - 1])
             && Renders(broken[..|broken| - 1], broken[|broken| - 1], s, token)
    ensures StyleAfter(PLAIN, current) == s
    ensures var ended := if current == [] then [] else [current + Escapes(LineEndReset(s))];
            ContentState(wrapped + ended + broken[..|broken| - 1], broken[|broken| - 1], StyleAfter(s, token), text + token)
  {
    hide StyleAfter, Shown, Width, Closed, LineEndReset, ShownLines;
    var ended := if current == [] then [] else [current + Escapes(LineEndReset(s))];
    var cut := broken[..|broken| - 1];
    LineEndCloses(current);
    NothingShown();
    assert ShownLines(wrapped + ended) == Shown(PLAIN, text) by {
      if current == [] {
        assert wrapped + ended == wrapped;
      } else {
        ShownLinesSnoc(wrapped, current + Escapes(LineEndReset(s)));
      }
    }
    ShownLinesConcat(wrapped + ended, cut);
    Concat(PLAIN, text, token);
  }

  lemma NothingShown()
    ensures Shown(PLAIN, []) == [] && ShownLines([]) == []
  {
  }

  // ----- words stay whole -----

  predicate At(line: Line, k: nat, word: Line) { k + |word| <= |line| && line[k..k + |word|] == word }

  /** The word stands in one of the lines, unbroken. */
  ghost predicate Kept(lines: seq<Line>, word: Line) {
    exists i, k: nat :: 0 <= i < |lines| && At(lines[i], k, word)
  }

  /** All words so far that fit a line. */
  ghost predicate AllKept(tokens: seq<Line>, n: nat, width: nat, lines: seq<Line>)
    requires n <= |tokens|
  {
    forall m :: 0 <= m < n && IsToken(tokens[m], false) && Width(tokens[m]) <= width ==> Kept(lines, tokens[m])
  }

  lemma EndsInWord(word: Line)
    requires IsToken(word, false)
    ensures word != [] && (word[|word| - 1].Escape? || !word[|word| - 1].isSpace)
  {
  }

  /** A word survives when its line is trimmed, and when anything is added after it. */
  lemma StaysAt(line: Line, k: nat, word: Line, more: Line)
    requires At(line, k, word)
    ensures At(line + more, k, word)
    ensures IsToken(word, false) ==> At(TrimEnd(line), k, word) && At(TrimEnd(line) + more, k, word)
  {
    assert (line + more)[k..k + |word|] == word;
    if IsToken(word, false) {
      EndsInWord(word);
      var r := TrimEnd(line);
      assert line[k + |word| - 1] == word[|word| - 1];
      assert r[k..k + |word|] == word && (r + more)[k..k + |word|] == word;
    }
  }

  /** Lines may be trimmed and extended, and others may follow. */
  predicate Grows(before: seq<Line>, after: seq<Line>) {
    |before| <= |after| &&
    forall i :: 0 <= i < |before| ==> Extends(before[i], after[i])
  }

  predicate Extends(line: Line, longer: Line) {
    line <= longer || TrimEnd(line) <= longer
  }

  lemma KeptGrows(before: seq<Line>, after: seq<Line>, word: Line)
    requires Kept(before, word) && IsToken(word, false) && Grows(before, after)
    ensures Kept(after, word)
  {
    hide TrimEnd, IsToken;
    var i, k: nat :| 0 <= i < |before| && At(before[i], k, word);
    assert Extends(before[i], after[i]);
    var line := if before[i] <= after[i] then before[i] else TrimEnd(before[i]);
    StaysAt(before[i], k, word, []);
    StaysAt(line, k, word, after[i][|line|..]);
    assert line + after[i][|line|..] == after[i];
    assert At(after[i], k, word);
  }

  lemma NextKept(tokens: seq<Line>, j: nat, width: nat, before: seq<Line>, after: seq<Line>)
    requires j < |tokens| && Grows(before, after) && AllKept(tokens, j, width, before)
    requires IsToken(tokens[j], false) && Width(tokens[j]) <= width ==> Kept(after, tokens[j])
    ensures AllKept(tokens, j + 1, width, after)
  {
    hide IsToken, Grows, Kept, Width;
    forall m | 0 <= m < j && IsToken(tokens[m], false) && Width(tokens[m]) <= width ensures Kept(after, tokens[m]) {
      KeptGrows(before, after, tokens[m]);
    }
  }

  lemma NoneKept(tokens: seq<Line>, width: nat, lines: seq<Line>)
    ensures AllKept(tokens, 0, width, lines)
  {
  }

  /** The word that was just put at the end of the last line. */
  lemma KeptLast(lines: seq<Line>, current: Line, word: Line)
    ensures Kept(lines + [current + word], word)
  {
    assert (current + word)[|current|..|current| + |word|] == word;
    assert At((lines + [current + word])[|lines|], |current|, word);
  }

  // ----- wrapping -----

  lemma {:induction false} TrimAllShows(lines: seq<Line>)
    ensures ShownLines(TrimAll(lines)) == ShownLines(lines)
  {
    hide Shown, TrimEnd;
    if lines != [] {
      var n := |lines| - 1;
      TrimAllShows(lines[..n]);
      assert TrimAll(lines) == TrimAll(lines[..n]) + [TrimEnd(lines[n])];
      ShownLinesSnoc(TrimAll(lines[..n]), TrimEnd(lines[n]));
      TrimEndEffect(PLAIN, lines[n]);
    }
  }

  lemma TrimAllCloses(lines: seq<Line>)
    ensures AllClosed(lines) ==> AllClosed(TrimAll(lines))
  {
    hide StyleAfter, TrimEnd;
    forall k | 0 <= k < |lines| ensures StyleAfter(PLAIN, TrimEnd(lines[k])) == StyleAfter(PLAIN, lines[k]) {
      TrimEndEffect(PLAIN, lines[k]);
    }
  }

  /** The last line is added, unless it is empty, and every line is trimmed. */
  lemma Finished(wrapped: seq<Line>, current: Line, s: Style, text: Line)
    requires ContentState(wrapped, current, s, text)
    ensures ShownLines(TrimAll(wrapped + if current == [] then [] else [current])) == Shown(PLAIN, text)
    ensures AllClosed(TrimAll(wrapped))
  {
    hide StyleAfter, Shown, ShownLines, TrimEnd, Closed;
    var lines := wrapped + if current == [] then [] else [current];
    NothingShown();
    TrimAllShows(lines);
    TrimAllCloses(wrapped);
    if current == [] {
      assert lines == wrapped;
    } else {
      ShownLinesSnoc(wrapped, current);
    }
  }

  lemma FinishedFits(wrapped: seq<Line>, current: Line, tokens: seq<Line>, width: nat)
    requires FitState(wrapped, current, tokens, |tokens|, width)
    ensures AllFit(TrimAll(wrapped + if current == [] then [] else [current]), width) <==> !Overflows(tokens, width)
  {
    hide Width, TrimEnd, Overflows, Column;
    var last := if current == [] then [] else [current];
    var lines := wrapped + last;
    assert tokens[..|tokens|] == tokens;
    TrimEndEffect(PLAIN, current);
    AllFitConcat(wrapped, last, width);
    assert AllFitTrimmed(last, width);
    TrimAllFits(lines, width);
  }

  lemma TrimAllFits(lines: seq<Line>, width: nat)
    ensures AllFit(TrimAll(lines), width) <==> AllFitTrimmed(lines, width)
  {
    hide Width, TrimEnd;
    assert forall k :: 0 <= k < |lines| ==> TrimAll(lines)[k] == TrimEnd(lines[k]);
  }

  /** Between two tokens; whether lines fit is said only for glyphs that fit. */
  ghost predicate Progress(wrapped: seq<Line>, current: Line, s: Style, tokens: seq<Line>, j: nat, width: nat,
                           fits: bool)
    requires j <= |tokens|
  {
    && ContentState(wrapped, current, s, Flatten(tokens[..j])) && HasLayout(wrapped, current, tokens, j, width)
    && (fits ==> FitState(wrapped, current, tokens, j, width))
  }

  /** The step for a word that has to be cut. */
  method CutWord(token: Line, width: nat, tracker: AnsiCodeTracker, wrapped: seq<Line>, current: Line,
                 ghost tokens: seq<Line>, ghost j: nat, ghost fits: bool)
    returns (lines: seq<Line>, last: Line)
    requires j < |tokens| && token == tokens[j] && Progress(wrapped, current, tracker.View(), tokens, j, width, fits)
    requires IsCut(token, width) && (fits ==> NoneWider(token, width))
    modifies tracker
    ensures Progress(lines, last, tracker.View(), tokens, j + 1, width, fits)
    ensures Grows(wrapped + [current], lines + [last])
  {
    hide Width, StyleAfter, Shown, ShownLines, TrimEnd, Closed, LineEndReset, AnsiCodeTracker.View, Full, Renders,
         FitState, ContentState, NoneWider, CutEnd, Flatten, IsCut, AllClosed, HasLayout, CutLaid;
    ghost var s, text := tracker.View(), Flatten(tokens[..j]);
    ContentReachable(wrapped, current, s, text);
    lines := wrapped;
    if current != [] {
      var reset := tracker.GetLineEndReset();
      lines := lines + [current + Escapes(reset)];
    }
    var broken := BreakLongWord(token, width, tracker);
    ContentCuts(wrapped, current, s, text, token, broken);
    LayoutCuts(wrapped, current, tokens, j, width, s, broken[..|broken| - 1], broken[|broken| - 1]);
    FlattenNext(tokens, j);
    if fits { FitCuts(wrapped, current, tokens, j, width, broken); }
    assert lines == wrapped + if current == [] then [] else [current + Escapes(LineEndReset(s))];
    lines := lines + broken[..|broken| - 1];
    last := broken[|broken| - 1];
  }

  lemma ContentReachable(wrapped: seq<Line>, current: Line, s: Style, text: Line)
    requires ContentState(wrapped, current, s, text)
    ensures Reachable(s) && s == StyleAfter(PLAIN, text)
  {
    hide Reachable, Renders, AllClosed;
    PlainIsReachable();
    StyleStaysReachable(PLAIN, text);
  }

  /** The step for a token that fits a line, and for blanks that do not. */
  method PlaceToken(token: Line, width: nat, tracker: AnsiCodeTracker, wrapped: seq<Line>, current: Line,
                    currentWidth: nat,
      ghost tokens: seq<Line>, ghost j: nat, ghost fits: bool)
    returns (lines: seq<Line>, last: Line, lastWidth: nat)
    requires j < |tokens| && token == tokens[j] && Progress(wrapped, current, tracker.View(), tokens, j, width, fits)
    requires !IsCut(token, width) && currentWidth == Width(current)
    modifies tracker
    ensures Progress(lines, last, tracker.View(), tokens, j + 1, width, fits) && lastWidth == Width(last)
    ensures Grows(wrapped + [current], lines + [last])
    ensures IsToken(token, false) ==> Kept(lines + [last], token)
    ensures lines == wrapped <==> currentWidth == 0 || currentWidth + Width(token) <= width
  {
    hide Width, StyleAfter, Shown, TrimEnd, Closed, LineEndReset, ActiveCodes, IsToken, AnsiCodeTracker.View, FitState,
         ContentState, Flatten, IsCut, HasLayout;
    ghost var s, text := tracker.View(), Flatten(tokens[..j]);
    FlattenNext(tokens, j);
    Concat(PLAIN, current, token);
    ContentReachable(wrapped, current, s, text);
    if currentWidth + Width(token) > width && currentWidth > 0 {
      LayoutEnds(wrapped, current, tokens, j, width, s);
      var lineToWrap := TrimEnd(current);
      var reset := tracker.GetLineEndReset();
      lineToWrap := lineToWrap + Escapes(reset);
      lines := wrapped + [lineToWrap];
      var codes := tracker.GetActiveCodes();
      ContentEnds(wrapped, current, s, text);
      Concat(PLAIN, Escapes(codes), token);
      if Blanks(token) {
        last, lastWidth := Escapes(codes), 0;
        assert Escapes(codes) + [] == Escapes(codes);
        BlanksSkipped(lines, last, s, text, token);
        BlankIsNoWord(token);
      } else {
        last, lastWidth := Escapes(codes) + token, Width(token);
        KeptLast(lines, Escapes(codes), token);
        ContentJoins(lines, Escapes(codes), s, text, token);
      }
      if fits { FitEnds(wrapped, current, tokens, j, width, last); }
    } else {
      lines, last, lastWidth := wrapped, current + token, currentWidth + Width(token);
      LayoutJoins(wrapped, current, tokens, j, width);
      KeptLast(lines, current, token);
      ContentJoins(wrapped, current, s, text, token);
      if fits { FitJoins(wrapped, current, tokens, j, width); }
    }
    UpdateTracker(token, tracker);
  }

  lemma BlankIsNoWord(token: Line)
    requires Blanks(token)
    ensures !IsToken(token, false)
  {
  }

  lemma EmptyLineKeepsNothing(lines: seq<Line>, word: Line)
    requires IsToken(word, false) && Kept(lines + [[]], word)
    ensures Kept(lines, word)
  {
    EndsInWord(word);
    hide IsToken;
    var i, k: nat :| 0 <= i < |lines + [[]]| && At((lines + [[]])[i], k, word);
    assert i < |lines| && (lines + [[]])[i] == lines[i];
  }

  /** The last step: the line that was being written is added, and all are trimmed. */
  method FinishLines(wrapped: seq<Line>, current: Line, ghost s: Style, ghost tokens: seq<Line>, ghost width: nat,
                     ghost fits: bool, ghost line: Line) returns (result: seq<Line>)
    requires tokens == Tokens(line) && Flatten(tokens) == line
    requires Progress(wrapped, current, s, tokens, |tokens|, width, fits)
             && AllKept(tokens, |tokens|, width, wrapped + [current])
    ensures |result| > 0 && AllClosed(result[..|result| - 1])
    ensures ShownLines(result) == Shown(PLAIN, Flatten(tokens))
    ensures AllKept(tokens, |tokens|, width, result)
    ensures fits ==> (AllFit(result, width) <==> !Overflows(tokens, width))
    ensures InPieces(line, width, result)
  {
    hide Width, StyleAfter, Shown, ShownLines, TrimEnd, Closed, IsToken, ContentState, FitState, Kept, Flatten,
         Overflows, HasLayout, InPieces, Tokens;
    LayoutFinishes(wrapped, current, tokens, width, line);
    assert tokens[..|tokens|] == tokens;
    var lines := wrapped;
    if current != [] {
      lines := lines + [current];
    }
    assert lines == wrapped + if current == [] then [] else [current];
    Finished(wrapped, current, s, Flatten(tokens));
    if fits { FinishedFits(wrapped, current, tokens, width); }
    if lines == [] {
      result := [[]];
      NothingShown();
      NothingStyled(PLAIN);
      OneLine([], width);
      assert wrapped + [current] == [[]] && TrimAll([]) == [];
      return;
    }
    result := TrimAll(lines);
    assert result[..|result| - 1] == TrimAll(wrapped)[..|result| - 1];
    forall m | 0 <= m < |tokens| && IsToken(tokens[m], false) && Width(tokens[m]) <= width ensures Kept(result, tokens[m]) {
      if current == [] { EmptyLineKeepsNothing(wrapped, tokens[m]); }
      TrimmingGrows(lines);
      KeptGrows(lines, result, tokens[m]);
    }
  }

  lemma TrimmingGrows(lines: seq<Line>)
    ensures Grows(lines, TrimAll(lines))
  {
  }

  lemma OneLine(line: Line, width: nat)
    ensures AllClosed([line][..0]) && ShownLines([line]) == Shown(PLAIN, line)
            && (AllFit([line], width) <==> Width(line) <= width)
  {
    NothingShown();
    ShownLinesSnoc([], line);
    assert [] + [line] == [line];
  }

  lemma NoneWiderConcat(a: Line, b: Line, width: nat)
    ensures NoneWider(a + b, width) <==> NoneWider(a, width) && NoneWider(b, width)
  {
    assert forall i :: 0 <= i < |a| ==> (a + b)[i] == a[i];
    assert forall i :: 0 <= i < |b| ==> (a + b)[|a| + i] == b[i];
  }

  lemma {:induction false} TokenNoWider(tokens: seq<Line>, j: nat, width: nat)
    requires j < |tokens|
    ensures Width(tokens[j]) <= Width(Flatten(tokens))
    ensures NoneWider(Flatten(tokens), width) ==> NoneWider(tokens[j], width)
  {
    hide Width, NoneWider;
    var n := |tokens| - 1;
    var front := Flatten(tokens[..n]);
    Concat(PLAIN, front, tokens[n]);
    NoneWiderConcat(front, tokens[n], width);
    if j < n { TokenNoWider(tokens[..n], j, width); }
  }

  /** A line that fits has no run of blanks that does not. */
  lemma NarrowNeverOverflows(line: Line, width: nat)
    requires Width(line) <= width
    ensures !Overflows(Tokens(line), width)
  {
    hide Width, Tokens, Column, Flatten;
    TokensAreRuns(line);
    forall k: nat ensures !OverflowsAt(Tokens(line), k, width) {
      if k < |Tokens(line)| { TokenNoWider(Tokens(line), k, width); }
    }
  }

  /** One input line. */
  method WrapSingleLine(line: Line, width: nat) returns (result: seq<Line>)
    ensures |result| > 0 && AllClosed(result[..|result| - 1])
    ensures ShownLines(result) == Shown(PLAIN, line)
    ensures Laid(line, width, result)
    ensures Width(line) > width ==> AllKept(Tokens(line), |Tokens(line)|, width, result)
    ensures NoneWider(line, width) ==> (AllFit(result, width) <==> !Overflows(Tokens(line), width))
  {
    hide Width, StyleAfter, Shown, TrimEnd, Closed, IsToken, AnsiCodeTracker.View, Progress, Flatten, AllKept, Grows,
         NoneWider, AllClosed, AllFit, Tokens, Overflows, HasGlyph, Alternate, InPieces;
    if Width(line) <= width {
      result := [line];
      OneLine(line, width);
      NarrowNeverOverflows(line, width);
      return;
    }
    var wrapped: seq<Line> := [];
    var tracker := new AnsiCodeTracker();
    var tokens := SplitIntoTokensWithAnsi(line);
    ghost var fits := NoneWider(line, width);
    var currentLine: Line := [];
    var currentVisibleLength := 0;
    var j := 0;
    WidthNeedsGlyph(line);
    ProgressStart(tokens, width, fits);
    NoneKept(tokens, width, wrapped + [currentLine]);
    while j < |tokens|
      invariant 0 <= j <= |tokens|
      invariant Progress(wrapped, currentLine, tracker.View(), tokens, j, width, fits)
      invariant currentVisibleLength == Width(currentLine)
      invariant AllKept(tokens, j, width, wrapped + [currentLine])
    {
      var token := tokens[j];
      ghost var before := wrapped + [currentLine];
      TokenNoWider(tokens, j, width);
      if Width(token) > width && !Blanks(token) {
        wrapped, currentLine := CutWord(token, width, tracker, wrapped, currentLine, tokens, j, fits);
        currentVisibleLength := Width(currentLine);
      } else {
        wrapped, currentLine, currentVisibleLength := PlaceToken(token, width, tracker, wrapped, currentLine,
                                                                 currentVisibleLength, tokens, j, fits);
      }
      NextKept(tokens, j, width, before, wrapped + [currentLine]);
      j := j + 1;
    }
    result := FinishLines(wrapped, currentLine, tracker.View(), tokens, width, fits, line);
  }

  lemma {:induction false} WidthNeedsGlyph(line: Line)
    requires Width(line) > 0
    ensures HasGlyph(line)
  {
    var n := |line| - 1;
    if line[n].Escape? {
      WidthNeedsGlyph(line[..n]);
      var i :| 0 <= i < n && line[..n][i].Glyph?;
      assert line[i].Glyph?;
    }
  }

  lemma ProgressStart(tokens: seq<Line>, width: nat, fits: bool)
    requires Alternate(tokens)
    ensures Progress([], [], PLAIN, tokens, 0, width, fits) && Width([]) == 0
  {
    hide ContentState, FitState;
    ContentStart();
    FitStart(tokens, width);
    LayoutStarts(tokens, width);
    assert tokens[..0] == [];
  }
}
