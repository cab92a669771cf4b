/** How wrapped lines lie over the line they come from: item by item, with codes only at
    the breaks and nothing dropped but blanks at line ends. */
module WrapLayout {
  import opened Ansi
  import opened Wrap

  /** The part of the input line that an output line holds, and the blanks dropped behind
      it. */
  datatype Piece = Piece(text: Line, gap: Line)

  function Whole(p: Piece): Line { p.text + p.gap }

  /** The input line that was cut into these pieces. */
  function TextOf(pieces: seq<Piece>): Line {
    if pieces == [] then [] else TextOf(pieces[..|pieces| - 1]) + Whole(pieces[|pieces| - 1])
  }

  /** A line that begins in style `s` holds its text behind the codes that bring the style
      back. */
  function OpenLine(s: Style, text: Line): Line { Escapes(ActiveCodes(s)) + text }

  /** At a break the line also gets the codes that close what must not show in the padding. */
  function ClosedLine(s: Style, text: Line): Line {
    OpenLine(s, text) + Escapes(LineEndReset(StyleAfter(s, text)))
  }

  /** The lines before a break; the text begins in style `s`. */
  function Render(s: Style, pieces: seq<Piece>): seq<Line> {
    if pieces == [] then []
    else
      var n := |pieces| - 1;
      Render(s, pieces[..n]) + [ClosedLine(StyleAfter(s, TextOf(pieces[..n])), pieces[n].text)]
  }

  /** All lines: the last one is left open. */
  function Printed(pieces: seq<Piece>): seq<Line>
    requires pieces != []
  {
    var n := |pieces| - 1;
    Render(PLAIN, pieces[..n]) + [OpenLine(StyleAfter(PLAIN, TextOf(pieces[..n])), pieces[n].text)]
  }

  predicate GapsBlank(pieces: seq<Piece>) { forall k :: 0 <= k < |pieces| ==> Blanks(pieces[k].gap) }

  lemma TextOfSnoc(pieces: seq<Piece>, p: Piece)
    ensures TextOf(pieces + [p]) == TextOf(pieces) + Whole(p) && TextOf([]) == []
  {
    assert (pieces + [p])[..|pieces|] == pieces;
  }

  lemma {:induction false} TextOfConcat(a: seq<Piece>, b: seq<Piece>)
    ensures TextOf(a + b) == TextOf(a) + TextOf(b)
  {
    hide Whole;
    if b == [] {
      assert a + b == a;
    } else {
      var n := |b| - 1;
      assert (a + b)[..|a + b| - 1] == a + b[..n];
      TextOfConcat(a, b[..n]);
    }
  }

  lemma RenderSnoc(s: Style, pieces: seq<Piece>, p: Piece)
    ensures Render(s, pieces + [p]) == Render(s, pieces) + [ClosedLine(StyleAfter(s, TextOf(pieces)), p.text)]
    ensures Render(s, []) == []
  {
    hide ClosedLine, StyleAfter, TextOf;
    assert (pieces + [p])[..|pieces|] == pieces;
  }

  lemma {:induction false} RenderConcat(s: Style, a: seq<Piece>, b: seq<Piece>)
    ensures Render(s, a + b) == Render(s, a) + Render(StyleAfter(s, TextOf(a)), b)
  {
    hide ClosedLine, StyleAfter, TextOf;
    if b == [] {
      assert a + b == a;
    } else {
      var n := |b| - 1;
      assert (a + b)[..|a + b| - 1] == a + b[..n];
      RenderConcat(s, a, b[..n]);
      TextOfConcat(a, b[..n]);
      Concat(s, TextOf(a), TextOf(b[..n]));
    }
  }

  /** Codes take no columns. */
  lemma OpenLineWidth(s: Style, text: Line)
    ensures Width(OpenLine(s, text)) == Width(text)
  {
    hide Width, ActiveCodes, ProcessAll, StyleAfter, Shown;
    EscapesEffect(PLAIN, ActiveCodes(s));
    Concat(PLAIN, Escapes(ActiveCodes(s)), text);
  }

  // ----- where a line may end -----

  /** The width of a line's first glyph. */
  function FirstWidth(line: Line): nat {
    if line == [] then 0 else if line[0].Glyph? then line[0].width else FirstWidth(line[1..])
  }

  /** Too wide for a line, and not all blanks. */
  predicate IsCut(token: Line, width: nat) { Width(token) > width && !Blanks(token) }

  /** Before token `j`, which is no plain run of blanks: what the line held, dropped blanks
      included, was too wide already, or would be with the token. */
  predicate BeforeToken(tokens: seq<Line>, j: nat, n: nat, whole: Line, width: nat) {
    && j <= |tokens| && n == |Flatten(tokens[..j])|
    && (j < |tokens| ==> !Blanks(tokens[j]))
    && (Width(whole) > width || (j < |tokens| && Width(whole) + Width(tokens[j]) > width))
  }

  /** Inside a word wider than a line: its next glyph does not fit. */
  predicate InsideWord(tokens: seq<Line>, j: nat, n: nat, whole: Line, width: nat) {
    && j < |tokens| && IsCut(tokens[j], width)
    && var start := |Flatten(tokens[..j])|;
       && start <= n <= start + |tokens[j]|
       && NextTooWide(tokens[j], n - start, whole, width)
  }

  predicate NextTooWide(word: Line, i: nat, whole: Line, width: nat)
    requires i <= |word|
  {
    HasGlyph(word[i..]) && Width(whole) + FirstWidth(word[i..]) > width
  }

  /** Breaking after the first `n` items is called for. */
  ghost predicate MayBreak(tokens: seq<Line>, n: nat, whole: Line, width: nat) {
    exists j: nat :: BeforeToken(tokens, j, n, whole, width) || InsideWord(tokens, j, n, whole, width)
  }

  ghost predicate Breaks(tokens: seq<Line>, width: nat, pieces: seq<Piece>) {
    forall k :: 0 <= k < |pieces| ==> MayBreak(tokens, |TextOf(pieces[..k + 1])|, Whole(pieces[k]), width)
  }

  lemma BreaksSnoc(tokens: seq<Line>, width: nat, pieces: seq<Piece>, p: Piece)
    requires Breaks(tokens, width, pieces) && MayBreak(tokens, |TextOf(pieces + [p])|, Whole(p), width)
    ensures Breaks(tokens, width, pieces + [p])
  {
    hide MayBreak, TextOf;
    var all := pieces + [p];
    assert all[..|all|] == all;
    forall k | 0 <= k < |pieces| ensures all[..k + 1] == pieces[..k + 1] && all[k] == pieces[k] {
    }
  }

  lemma BreaksFront(tokens: seq<Line>, width: nat, pieces: seq<Piece>, n: nat)
    requires n <= |pieces| && Breaks(tokens, width, pieces)
    ensures Breaks(tokens, width, pieces[..n])
  {
    hide MayBreak, TextOf;
    forall k | 0 <= k < n ensures MayBreak(tokens, |TextOf(pieces[..n][..k + 1])|, Whole(pieces[..n][k]), width) {
      assert pieces[..n][..k + 1] == pieces[..k + 1];
    }
  }

  /** No line ends in a blank. */
  predicate NoBlankEnds(lines: seq<Line>) {
    forall k :: 0 <= k < |lines| ==>
      lines[k] == [] || lines[k][|lines[k]| - 1].Escape? || !lines[k][|lines[k]| - 1].isSpace
  }

  /** The result is the line cut into pieces: put one behind the other, with the dropped
      blanks, they are the line; only blanks are dropped; no line ends in a blank; and
      every break is called for. */
  ghost predicate LaidOut(line: Line, width: nat, result: seq<Line>, pieces: seq<Piece>) {
    && pieces != [] && result == Printed(pieces) && TextOf(pieces) == line && GapsBlank(pieces)
    && NoBlankEnds(result) && Breaks(Tokens(line), width, pieces[..|pieces| - 1])
  }

  ghost predicate InPieces(line: Line, width: nat, result: seq<Line>) {
    exists pieces :: LaidOut(line, width, result, pieces)
  }

  /** A line that fits is left alone; any other is cut into pieces. */
  ghost predicate Laid(line: Line, width: nat, result: seq<Line>) {
    if Width(line) <= width then result == [line] else InPieces(line, width, result)
  }

  // ----- while a line is wrapped -----

  ghost predicate LayoutState(wrapped: seq<Line>, current: Line, tokens: seq<Line>, j: nat, width: nat,
                              pieces: seq<Piece>, last: Line)
  {
    && j <= |tokens| && Alternate(tokens)
    && wrapped == Render(PLAIN, pieces) && current == OpenLine(StyleAfter(PLAIN, TextOf(pieces)), last)
    && Flatten(tokens[..j]) == TextOf(pieces) + last
    && GapsBlank(pieces) && Breaks(tokens, width, pieces)
  }

  /** After `j` tokens: the finished lines and the one being written lie over them. */
  ghost predicate HasLayout(wrapped: seq<Line>, current: Line, tokens: seq<Line>, j: nat, width: nat) {
    exists pieces, last :: LayoutState(wrapped, current, tokens, j, width, pieces, last)
  }

  lemma LayoutStarts(tokens: seq<Line>, width: nat)
    requires Alternate(tokens)
    ensures HasLayout([], [], tokens, 0, width)
  {
    hide Alternate;
    assert tokens[..0] == [];
    PlainHasNoCodes();
    assert LayoutState([], [], tokens, 0, width, [], []);
  }

  lemma PlainHasNoCodes()
    ensures ActiveCodes(PLAIN) == []
  {
  }

  lemma NextToken(tokens: seq<Line>, j: nat)
    requires j < |tokens|
    ensures Flatten(tokens[..j + 1]) == Flatten(tokens[..j]) + tokens[j]
  {
    assert tokens[..j + 1] == tokens[..j] + [tokens[j]];
    FlattenSnoc(tokens[..j], tokens[j]);
  }

  /** The token joins the current line. */
  lemma LayoutJoins(wrapped: seq<Line>, current: Line, tokens: seq<Line>, j: nat, width: nat)
    requires j < |tokens| && HasLayout(wrapped, current, tokens, j, width)
    ensures HasLayout(wrapped, current + tokens[j], tokens, j + 1, width)
  {
    hide Alternate, Flatten, Render, TextOf, Breaks, GapsBlank, StyleAfter, ActiveCodes;
    var pieces, last :| LayoutState(wrapped, current, tokens, j, width, pieces, last);
    NextToken(tokens, j);
    assert current + tokens[j] == OpenLine(StyleAfter(PLAIN, TextOf(pieces)), last + tokens[j]);
    assert LayoutState(wrapped, current + tokens[j], tokens, j + 1, width, pieces, last + tokens[j]);
  }

  lemma {:induction false} TrimBehindCodes(escapes: Line, text: Line)
    requires OnlyEscapes(escapes)
    ensures TrimEnd(escapes + text) == escapes + TrimEnd(text)
  {
    if text == [] {
      assert escapes + text == escapes;
    } else {
      var n := |text| - 1;
      assert (escapes + text)[..|escapes + text| - 1] == escapes + text[..n];
      TrimBehindCodes(escapes, text[..n]);
    }
  }

  /** One more piece is finished, and the next line begins. */
  lemma PieceEnds(wrapped: seq<Line>, current: Line, tokens: seq<Line>, j: nat, width: nat,
                  pieces: seq<Piece>, last: Line, p: Piece, more: Line)
    requires LayoutState(wrapped, current, tokens, j, width, pieces, last)
    requires Blanks(p.gap) && Whole(p) == last + more
             && MayBreak(tokens, |Flatten(tokens[..j]) + more|, Whole(p), width)
    ensures var s := StyleAfter(PLAIN, TextOf(pieces)); var next := pieces + [p];
            && wrapped + [ClosedLine(s, p.text)] == Render(PLAIN, next)
            && TextOf(next) == Flatten(tokens[..j]) + more
            && GapsBlank(next) && Breaks(tokens, width, next)
  {
    hide Alternate, Flatten, Render, TextOf, Breaks, StyleAfter, ActiveCodes, MayBreak, ClosedLine;
    RenderSnoc(PLAIN, pieces, p);
    TextOfSnoc(pieces, p);
    assert TextOf(pieces) + (last + more) == TextOf(pieces) + last + more;
    BreaksSnoc(tokens, width, pieces, p);
  }

  lemma TrimmedStyle(s: Style, text: Line)
    ensures StyleAfter(s, TrimEnd(text)) == StyleAfter(s, text)
    ensures text == TrimEnd(text) + text[|TrimEnd(text)|..] && Blanks(text[|TrimEnd(text)|..])
  {
    hide StyleAfter, Shown, Width;
    TrimEndEffect(s, text);
  }

  lemma BlanksJoin(a: Line, b: Line)
    requires Blanks(a) && Blanks(b)
    ensures Blanks(a + b)
  {
  }

  /** The current line is trimmed and ended before a token that does not fit; blanks are
      dropped, a word begins the next line. */
  lemma LayoutEnds(wrapped: seq<Line>, current: Line, tokens: seq<Line>, j: nat, width: nat, s: Style)
    requires j < |tokens| && HasLayout(wrapped, current, tokens, j, width)
    requires s == StyleAfter(PLAIN, Flatten(tokens[..j])) && Width(current) + Width(tokens[j]) > width
    ensures HasLayout(wrapped + [TrimEnd(current) + Escapes(LineEndReset(s))],
                      Escapes(ActiveCodes(s)) + if Blanks(tokens[j]) then [] else tokens[j], tokens, j + 1, width)
  {
    hide Alternate, Flatten, Render, TextOf, Breaks, StyleAfter, ActiveCodes, LineEndReset, MayBreak, Width, TrimEnd;
    hide OpenLine, ClosedLine;
    var pieces, last :| LayoutState(wrapped, current, tokens, j, width, pieces, last);
    var token, t := tokens[j], StyleAfter(PLAIN, TextOf(pieces));
    var more, rest := if Blanks(token) then token else [], if Blanks(token) then [] else token;
    var p := Piece(TrimEnd(last), last[|TrimEnd(last)|..] + more);
    TrimmedOpen(TextOf(pieces), last, more);
    NextToken(tokens, j);
    OpenLineWidth(t, last);
    TokenNotEmpty(tokens, j);
    EndMayBreak(tokens, j, last, width);
    PieceEnds(wrapped, current, tokens, j, width, pieces, last, p, more);
    StyleOfRead(tokens, j, more, s);
    assert Flatten(tokens[..j + 1]) == Flatten(tokens[..j]) + more + rest by { MoreOrRest(Flatten(tokens[..j]), more, rest); }
    assert Escapes(ActiveCodes(s)) + rest == OpenLine(s, rest) by { OpenIs(s, rest); }
    assert LayoutState(wrapped + [TrimEnd(current) + Escapes(LineEndReset(s))], Escapes(ActiveCodes(s)) + rest,
                       tokens, j + 1, width, pieces + [p], rest);
  }

  lemma OpenIs(s: Style, text: Line)
    ensures OpenLine(s, text) == Escapes(ActiveCodes(s)) + text
  {
  }

  lemma MoreOrRest(a: Line, more: Line, rest: Line)
    requires more == [] || rest == []
    ensures a + more + rest == a + if more == [] then rest else more
  {
  }

  /** Trimming an open line trims the text behind its codes. */
  lemma TrimmedOpen(before: Line, last: Line, more: Line)
    requires Blanks(more)
    ensures var t := StyleAfter(PLAIN, before); var trimmed := TrimEnd(last);
            && ClosedLine(t, trimmed)
               == TrimEnd(OpenLine(t, last)) + Escapes(LineEndReset(StyleAfter(PLAIN, before + last)))
            && Whole(Piece(trimmed, last[|trimmed|..] + more)) == last + more && Blanks(last[|trimmed|..] + more)
  {
    hide StyleAfter, ActiveCodes, LineEndReset, TrimEnd, Width, Shown;
    var t, trimmed := StyleAfter(PLAIN, before), TrimEnd(last);
    TrimBehindCodes(Escapes(ActiveCodes(t)), last);
    TrimmedStyle(t, last);
    Concat(PLAIN, before, last);
    BlanksJoin(last[|trimmed|..], more);
    assert trimmed + (last[|trimmed|..] + more) == last + more;
  }

  lemma StyleOfRead(tokens: seq<Line>, j: nat, more: Line, s: Style)
    requires j < |tokens| && s == StyleAfter(PLAIN, Flatten(tokens[..j])) && Blanks(more)
    ensures StyleAfter(PLAIN, Flatten(tokens[..j]) + more) == s
  {
    hide StyleAfter, Flatten, Shown, Width;
    Concat(PLAIN, Flatten(tokens[..j]), more);
    BlanksShowNothing(s, more);
  }

  /** A break before a word, or behind blanks that are dropped: no blanks follow those. */
  lemma EndMayBreak(tokens: seq<Line>, j: nat, last: Line, width: nat)
    requires j < |tokens| && Alternate(tokens) && Width(last) + Width(tokens[j]) > width
    requires Blanks(tokens[j]) ==> tokens[j] != []
    ensures var more := if Blanks(tokens[j]) then tokens[j] else [];
            MayBreak(tokens, |Flatten(tokens[..j]) + more|, last + more, width)
  {
    hide Flatten, Width, IsToken;
    NextToken(tokens, j);
    if Blanks(tokens[j]) {
      Concat(PLAIN, last, tokens[j]);
      BlankTokenIs(tokens[j]);
      NotBoth(tokens[j], true);
      if j + 1 < |tokens| { WordIsNotBlank(tokens[j + 1]); }
      assert BeforeToken(tokens, j + 1, |Flatten(tokens[..j]) + tokens[j]|, last + tokens[j], width);
    } else {
      assert last + [] == last && Flatten(tokens[..j]) + [] == Flatten(tokens[..j]);
      assert BeforeToken(tokens, j, |Flatten(tokens[..j])|, last, width);
    }
  }

  lemma TokenNotEmpty(tokens: seq<Line>, j: nat)
    requires j < |tokens| && Alternate(tokens)
    ensures tokens[j] != []
  {
  }

  lemma BlankTokenIs(token: Line)
    requires Blanks(token) && token != []
    ensures IsToken(token, true)
  {
    assert token[0].Glyph?;
  }

  lemma WordIsNotBlank(token: Line)
    ensures IsToken(token, false) ==> !Blanks(token)
  {
  }

  // ----- while a word is cut -----

  ghost predicate CutState(lines: seq<Line>, current: Line, s: Style, word: Line, width: nat, pieces: seq<Piece>,
                           last: Line)
  {
    && lines == Render(s, pieces) && current == OpenLine(StyleAfter(s, TextOf(pieces)), last)
    && word == TextOf(pieces) + last
    && forall k :: 0 <= k < |pieces| ==> pieces[k].gap == [] && CutBreak(word, pieces, k, width)
  }

  predicate CutBreak(word: Line, pieces: seq<Piece>, k: nat, width: nat)
    requires k < |pieces|
  {
    var n := |TextOf(pieces[..k + 1])|;
    n <= |word| && NextTooWide(word, n, Whole(pieces[k]), width)
  }

  /** The lines so far lie over what was read of the word. */
  ghost predicate CutLaid(lines: seq<Line>, current: Line, s: Style, word: Line, width: nat) {
    exists pieces, last :: CutState(lines, current, s, word, width, pieces, last)
  }

  lemma CutStarts(s: Style, width: nat)
    ensures CutLaid([], Escapes(ActiveCodes(s)), s, [], width)
  {
    hide ActiveCodes;
    assert Escapes(ActiveCodes(s)) == OpenLine(s, []);
    NothingYet(s);
    assert CutState([], Escapes(ActiveCodes(s)), s, [], width, [], []);
  }

  lemma NothingYet(s: Style)
    ensures TextOf([]) == [] && StyleAfter(s, []) == s && Render(s, []) == []
  {
  }

  lemma {:induction false} FirstWidthAppend(line: Line, more: Line)
    ensures HasGlyph(line) ==> FirstWidth(line + more) == FirstWidth(line) && HasGlyph(line + more)
    ensures OnlyEscapes(line) ==> FirstWidth(line + more) == FirstWidth(more)
  {
    if i :| 0 <= i < |line| && line[i].Glyph? {
      assert (line + more)[i] == line[i];
      if i > 0 { assert line[1..][i - 1] == line[i]; }
    }
    if line == [] {
      assert line + more == more;
    } else {
      assert (line + more)[1..] == line[1..] + more;
      FirstWidthAppend(line[1..], more);
    }
  }

  /** What follows a break is not changed by what comes later. */
  lemma CutBreakStays(word: Line, more: Line, pieces: seq<Piece>, k: nat, width: nat)
    requires k < |pieces| && CutBreak(word, pieces, k, width)
    ensures CutBreak(word + more, pieces, k, width)
  {
    hide TextOf, FirstWidth, HasGlyph, Width;
    var n := |TextOf(pieces[..k + 1])|;
    assert (word + more)[n..] == word[n..] + more;
    FirstWidthAppend(word[n..], more);
  }

  lemma CutAppends(lines: seq<Line>, current: Line, s: Style, word: Line, item: Item, width: nat)
    requires CutLaid(lines, current, s, word, width)
    ensures CutLaid(lines, current + [item], s, word + [item], width)
  {
    hide TextOf, Render, StyleAfter, ActiveCodes, CutBreak;
    var pieces, last :| CutState(lines, current, s, word, width, pieces, last);
    forall k | 0 <= k < |pieces| ensures CutBreak(word + [item], pieces, k, width) {
      CutBreakStays(word, [item], pieces, k, width);
    }
    assert current + [item] == OpenLine(StyleAfter(s, TextOf(pieces)), last + [item]);
    assert CutState(lines, current + [item], s, word + [item], width, pieces, last + [item]);
  }

  /** The line is ended before a glyph that does not fit. */
  lemma CutEnds(lines: seq<Line>, current: Line, s: Style, word: Line, item: Item, width: nat)
    requires CutLaid(lines, current, s, word, width) && item.Glyph? && Width(current) + item.width > width
    ensures var t := StyleAfter(s, word);
            CutLaid(lines + [current + Escapes(LineEndReset(t))], Escapes(ActiveCodes(t)) + [item], s, word + [item], width)
  {
    hide TextOf, Render, StyleAfter, ActiveCodes, LineEndReset, CutBreak, Width, FirstWidth;
    var pieces, last :| CutState(lines, current, s, word, width, pieces, last);
    var t, p := StyleAfter(s, word), Piece(last, []);
    var next, read := pieces + [p], word + [item];
    assert Whole(p) == last;
    TextOfSnoc(pieces, p);
    RenderSnoc(s, pieces, p);
    Concat(s, TextOf(pieces), last);
    OpenLineWidth(StyleAfter(s, TextOf(pieces)), last);
    forall k | 0 <= k < |next| ensures next[k].gap == [] && CutBreak(read, next, k, width) {
      if k < |pieces| {
        CutBreakStays(word, [item], pieces, k, width);
        assert next[..k + 1] == pieces[..k + 1];
        SameCutBreak(read, pieces, next, k, width);
      } else {
        assert next[..k + 1] == next;
        BreakBeforeGlyph(word, item, next, width);
      }
    }
    assert CutState(lines + [current + Escapes(LineEndReset(t))], Escapes(ActiveCodes(t)) + [item], s, read, width,
                    next, [item]);
  }

  lemma SameCutBreak(word: Line, a: seq<Piece>, b: seq<Piece>, k: nat, width: nat)
    requires k < |a| && k < |b| && a[..k + 1] == b[..k + 1] && CutBreak(word, a, k, width)
    ensures CutBreak(word, b, k, width)
  {
    hide TextOf, NextTooWide;
    assert a[..k + 1][k] == a[k] && b[..k + 1][k] == b[k];
  }

  lemma BreakBeforeGlyph(word: Line, item: Item, pieces: seq<Piece>, width: nat)
    requires pieces != [] && TextOf(pieces) == word && item.Glyph?
    requires Width(Whole(pieces[|pieces| - 1])) + item.width > width
    ensures CutBreak(word + [item], pieces, |pieces| - 1, width)
  {
    hide TextOf, Width;
    assert pieces[..|pieces|] == pieces;
    assert (word + [item])[|word|..] == [item] && [item][0].Glyph?;
  }

  /** The lines of a cut word follow the line that was being written, if there was one. */
  lemma LayoutCuts(wrapped: seq<Line>, current: Line, tokens: seq<Line>, j: nat, width: nat, s: Style, cut: seq<Line>,
                   next: Line)
    requires j < |tokens| && HasLayout(wrapped, current, tokens, j, width) && IsCut(tokens[j], width)
    requires s == StyleAfter(PLAIN, Flatten(tokens[..j])) && CutLaid(cut, next, s, tokens[j], width)
    ensures var ended := if current == [] then [] else [current + Escapes(LineEndReset(s))];
            HasLayout(wrapped + ended + cut, next, tokens, j + 1, width)
  {
    hide Alternate, Flatten, Render, TextOf, Breaks, GapsBlank, StyleAfter, ActiveCodes, LineEndReset, MayBreak, Width,
         CutBreak, OpenLine;
    var pieces, last :| LayoutState(wrapped, current, tokens, j, width, pieces, last);
    var inner, rest :| CutState(cut, next, s, tokens[j], width, inner, rest);
    var ended := if current == [] then [] else [current + Escapes(LineEndReset(s))];
    var front := LineBeforeCut(wrapped, current, tokens, j, width, s, pieces, last);
    WordPieces(tokens, j, width, front, inner);
    NextToken(tokens, j);
    PiecesJoin(front, inner, s, tokens[j], rest);
    assert LayoutState(wrapped + ended + cut, next, tokens, j + 1, width, front + inner, rest);
  }

  lemma PiecesJoin(front: seq<Piece>, inner: seq<Piece>, s: Style, word: Line, rest: Line)
    requires s == StyleAfter(PLAIN, TextOf(front)) && word == TextOf(inner) + rest
    ensures Render(PLAIN, front + inner) == Render(PLAIN, front) + Render(s, inner)
    ensures TextOf(front) + word == TextOf(front + inner) + rest
    ensures StyleAfter(PLAIN, TextOf(front + inner)) == StyleAfter(s, TextOf(inner))
  {
    hide TextOf, Render, StyleAfter, Width, Shown;
    RenderConcat(PLAIN, front, inner);
    TextOfConcat(front, inner);
    Concat(PLAIN, TextOf(front), TextOf(inner));
    assert TextOf(front) + (TextOf(inner) + rest) == TextOf(front) + TextOf(inner) + rest;
  }

  /** The line being written is ended as it is; an empty one is not there. */
  lemma LineBeforeCut(wrapped: seq<Line>, current: Line, tokens: seq<Line>, j: nat, width: nat, s: Style,
                      pieces: seq<Piece>, last: Line) returns (front: seq<Piece>)
    requires j < |tokens| && LayoutState(wrapped, current, tokens, j, width, pieces, last) && IsCut(tokens[j], width)
    requires s == StyleAfter(PLAIN, Flatten(tokens[..j]))
    ensures wrapped + (if current == [] then [] else [current + Escapes(LineEndReset(s))]) == Render(PLAIN, front)
    ensures TextOf(front) == Flatten(tokens[..j]) && GapsBlank(front) && Breaks(tokens, width, front)
  {
    hide Alternate, Flatten, Render, TextOf, Breaks, StyleAfter, ActiveCodes, LineEndReset, Width;
    if current == [] {
      front := pieces;
      assert last == [] && TextOf(pieces) + last == TextOf(pieces);
      assert wrapped + [] == wrapped;
    } else {
      var p := Piece(last, []);
      assert Whole(p) == last == last + [];
      assert Flatten(tokens[..j]) + [] == Flatten(tokens[..j]);
      assert BeforeToken(tokens, j, |Flatten(tokens[..j])|, last, width);
      PieceEnds(wrapped, current, tokens, j, width, pieces, last, p, []);
      Concat(PLAIN, TextOf(pieces), last);
      front := pieces + [p];
    }
  }

  /** Breaks in the word are breaks of the line. */
  lemma WordPieces(tokens: seq<Line>, j: nat, width: nat, front: seq<Piece>, inner: seq<Piece>)
    requires j < |tokens| && IsCut(tokens[j], width) && TextOf(front) == Flatten(tokens[..j])
    requires GapsBlank(front) && Breaks(tokens, width, front)
    requires forall k :: 0 <= k < |inner| ==> inner[k].gap == [] && CutBreak(tokens[j], inner, k, width)
    ensures GapsBlank(front + inner) && Breaks(tokens, width, front + inner)
  {
    hide Flatten, TextOf, Width, NextTooWide, IsCut;
    var all := front + inner;
    forall k | 0 <= k < |all| ensures MayBreak(tokens, |TextOf(all[..k + 1])|, Whole(all[k]), width) {
      if k < |front| {
        assert all[..k + 1] == front[..k + 1];
      } else {
        var i := k - |front|;
        assert all[..k + 1] == front + inner[..i + 1];
        TextOfConcat(front, inner[..i + 1]);
        assert CutBreak(tokens[j], inner, i, width);
        assert InsideWord(tokens, j, |TextOf(all[..k + 1])|, Whole(all[k]), width);
      }
    }
  }

  // ----- the last step -----

  function TrimAll(lines: seq<Line>): (r: seq<Line>)
    ensures |r| == |lines| && forall k :: 0 <= k < |lines| ==> r[k] == TrimEnd(lines[k])
  {
    seq(|lines|, k requires 0 <= k < |lines| => TrimEnd(lines[k]))
  }

  /** A trimmed piece: the blanks at its end go to the gap. */
  function Trimmed(p: Piece): Piece { Piece(TrimEnd(p.text), p.text[|TrimEnd(p.text)|..] + p.gap) }

  lemma TrimmedWhole(p: Piece)
    requires Blanks(p.gap)
    ensures Whole(Trimmed(p)) == Whole(p) && Blanks(Trimmed(p).gap)
  {
    TrimmedStyle(PLAIN, p.text);
    BlanksJoin(p.text[|TrimEnd(p.text)|..], p.gap);
  }

  /** Trimming a closed line trims its text, unless closing codes stand behind it. */
  lemma TrimClosed(s: Style, p: Piece) returns (q: Piece)
    requires Blanks(p.gap)
    ensures ClosedLine(s, q.text) == TrimEnd(ClosedLine(s, p.text)) && Whole(q) == Whole(p) && Blanks(q.gap)
  {
    hide StyleAfter, ActiveCodes, LineEndReset, TrimEnd;
    var reset := Escapes(LineEndReset(StyleAfter(s, p.text)));
    if reset == [] {
      q := Trimmed(p);
      TrimmedWhole(p);
      TrimmedStyle(s, p.text);
      TrimBehindCodes(Escapes(ActiveCodes(s)), p.text);
      assert OpenLine(s, p.text) + [] == OpenLine(s, p.text) && OpenLine(s, q.text) + [] == OpenLine(s, q.text);
    } else {
      q := p;
      EndsInCode(OpenLine(s, p.text), reset);
    }
  }

  lemma EndsInCode(line: Line, escapes: Line)
    requires OnlyEscapes(escapes) && escapes != []
    ensures TrimEnd(line + escapes) == line + escapes
  {
    assert (line + escapes)[|line + escapes| - 1] == escapes[|escapes| - 1];
  }

  /** The same pieces but for blanks that moved to the gaps. */
  predicate SameWholes(a: seq<Piece>, b: seq<Piece>) {
    |a| == |b| && forall k :: 0 <= k < |a| ==> Whole(a[k]) == Whole(b[k])
  }

  lemma {:induction false} SameText(a: seq<Piece>, b: seq<Piece>, k: nat)
    requires SameWholes(a, b) && k <= |a|
    ensures TextOf(a[..k]) == TextOf(b[..k])
  {
    hide Whole;
    if k > 0 {
      SameText(a, b, k - 1);
      assert a[..k][..k - 1] == a[..k - 1] && b[..k][..k - 1] == b[..k - 1];
    }
  }

  lemma {:induction false} TrimRendered(s: Style, pieces: seq<Piece>) returns (r: seq<Piece>)
    requires GapsBlank(pieces)
    ensures Render(s, r) == TrimAll(Render(s, pieces)) && SameWholes(r, pieces) && GapsBlank(r)
    ensures |Render(s, pieces)| == |pieces|
  {
    hide ClosedLine, StyleAfter, TextOf, Whole, TrimEnd;
    if pieces == [] {
      r := [];
    } else {
      var n := |pieces| - 1;
      var front := TrimRendered(s, pieces[..n]);
      SameText(front, pieces[..n], n);
      assert front[..n] == front && pieces[..n][..n] == pieces[..n];
      var t := StyleAfter(s, TextOf(pieces[..n]));
      var q := TrimClosed(t, pieces[n]);
      r := front + [q];
      RenderSnoc(s, front, q);
      assert pieces == pieces[..n] + [pieces[n]];
      RenderSnoc(s, pieces[..n], pieces[n]);
      TrimAllSnoc(Render(s, pieces[..n]), ClosedLine(t, pieces[n].text));
    }
  }

  lemma TrimAllSnoc(lines: seq<Line>, line: Line)
    ensures TrimAll(lines + [line]) == TrimAll(lines) + [TrimEnd(line)]
  {
    hide TrimEnd;
  }

  /** Trimming all lines. */
  lemma TrimPrinted(pieces: seq<Piece>) returns (r: seq<Piece>)
    requires pieces != [] && GapsBlank(pieces)
    ensures r != [] && Printed(r) == TrimAll(Printed(pieces)) && SameWholes(r, pieces) && GapsBlank(r)
  {
    hide StyleAfter, TextOf, Whole, TrimEnd, ActiveCodes, Render;
    var n := |pieces| - 1;
    var front := TrimRendered(PLAIN, pieces[..n]);
    SameText(front, pieces[..n], n);
    assert front[..n] == front && pieces[..n][..n] == pieces[..n];
    var t := StyleAfter(PLAIN, TextOf(pieces[..n]));
    TrimmedWhole(pieces[n]);
    TrimBehindCodes(Escapes(ActiveCodes(t)), pieces[n].text);
    r := front + [Trimmed(pieces[n])];
    assert r[..n] == front;
    TrimAllSnoc(Render(PLAIN, pieces[..n]), OpenLine(t, pieces[n].text));
  }

  lemma SameBreaks(tokens: seq<Line>, width: nat, a: seq<Piece>, b: seq<Piece>)
    requires SameWholes(a, b) && Breaks(tokens, width, b)
    ensures Breaks(tokens, width, a)
  {
    hide TextOf, Whole, MayBreak;
    forall k | 0 <= k < |a| ensures MayBreak(tokens, |TextOf(a[..k + 1])|, Whole(a[k]), width) {
      SameText(a, b, k + 1);
    }
  }

  lemma TrimmedNoBlankEnds(lines: seq<Line>)
    ensures NoBlankEnds(TrimAll(lines))
  {
  }

  /** The line being written is the last one, unless it is empty; all are trimmed. */
  lemma LayoutFinishes(wrapped: seq<Line>, current: Line, tokens: seq<Line>, width: nat, line: Line)
    requires HasLayout(wrapped, current, tokens, |tokens|, width) && tokens == Tokens(line) && Flatten(tokens) == line
    ensures var lines := wrapped + if current == [] then [] else [current];
            InPieces(line, width, if lines == [] then [[]] else TrimAll(lines))
  {
    hide Alternate, Flatten, TextOf, Breaks, StyleAfter, ActiveCodes, TrimEnd, Tokens, Render, GapsBlank, Printed,
         InPieces;
    var pieces, last :| LayoutState(wrapped, current, tokens, |tokens|, width, pieces, last);
    var lines := wrapped + if current == [] then [] else [current];
    assert tokens[..|tokens|] == tokens;
    var all := AllPieces(wrapped, current, tokens, width, pieces, last, line);
    TrimmedPieces(all, line, width);
    if lines == [] { OneEmptyLine(); }
  }

  lemma TrimmedPieces(all: seq<Piece>, line: Line, width: nat)
    requires all != [] && TextOf(all) == line && GapsBlank(all) && Breaks(Tokens(line), width, all[..|all| - 1])
    ensures InPieces(line, width, TrimAll(Printed(all)))
  {
    hide TextOf, Breaks, TrimEnd, Tokens, Printed, Whole;
    var r := TrimPrinted(all);
    SameText(r, all, |all|);
    assert r[..|r|] == r && all[..|all|] == all;
    var n := |all| - 1;
    assert SameWholes(r[..n], all[..n]);
    SameBreaks(Tokens(line), width, r[..n], all[..n]);
    TrimmedNoBlankEnds(Printed(all));
    assert LaidOut(line, width, TrimAll(Printed(all)), r);
  }

  lemma OneEmptyLine()
    ensures TrimAll([[]]) == [[]]
  {
    assert TrimEnd([]) == [];
  }

  /** All pieces; if no line is being written the last closed line needed no codes. */
  lemma AllPieces(wrapped: seq<Line>, current: Line, tokens: seq<Line>, width: nat, pieces: seq<Piece>, last: Line,
                  line: Line) returns (all: seq<Piece>)
    requires LayoutState(wrapped, current, tokens, |tokens|, width, pieces, last) && Flatten(tokens[..|tokens|]) == line
    ensures all != [] && TextOf(all) == line && GapsBlank(all) && Breaks(tokens, width, all[..|all| - 1])
    ensures var lines := wrapped + if current == [] then [] else [current];
            Printed(all) == if lines == [] then [[]] else lines
  {
    hide Alternate, Flatten, TextOf, StyleAfter, ActiveCodes, Breaks, Render, OpenLine, Printed;
    var lines := wrapped + if current == [] then [] else [current];
    if current == [] {
      EmptyIsNothing(StyleAfter(PLAIN, TextOf(pieces)), last);
      assert TextOf(pieces) + [] == TextOf(pieces) && wrapped + [] == wrapped;
    }
    if current == [] && pieces != [] {
      all := pieces;
      BreaksFront(tokens, width, pieces, |pieces| - 1);
      LastClosed(pieces);
    } else {
      var p := Piece(last, []);
      all := pieces + [p];
      assert all[..|all| - 1] == pieces && Whole(p) == last;
      TextOfSnoc(pieces, p);
      LastOpen(pieces, last);
      if current == [] {
        RenderNothing();
        assert [] + [current] == [[]];
      }
    }
  }

  lemma EmptyIsNothing(s: Style, text: Line)
    ensures OpenLine(s, text) == [] ==> text == [] && Escapes(ActiveCodes(s)) == []
  {
  }

  lemma RenderNothing()
    ensures Render(PLAIN, []) == []
  {
  }

  lemma LastOpen(pieces: seq<Piece>, last: Line)
    ensures Printed(pieces + [Piece(last, [])]) == Render(PLAIN, pieces) + [OpenLine(StyleAfter(PLAIN, TextOf(pieces)), last)]
  {
    hide Render, TextOf, StyleAfter, OpenLine;
    assert (pieces + [Piece(last, [])])[..|pieces|] == pieces;
  }

  /** All lines are closed, and the style needs no codes: closing the last one added none. */
  lemma LastClosed(pieces: seq<Piece>)
    requires pieces != [] && GapsBlank(pieces) && Escapes(ActiveCodes(StyleAfter(PLAIN, TextOf(pieces)))) == []
    ensures Printed(pieces) == Render(PLAIN, pieces) && Render(PLAIN, pieces) != []
  {
    hide TextOf, StyleAfter, ActiveCodes, ClosedLine, OpenLine, Render;
    var n := |pieces| - 1;
    assert pieces == pieces[..n] + [pieces[n]];
    TextOfSnoc(pieces[..n], pieces[n]);
    RenderSnoc(PLAIN, pieces[..n], pieces[n]);
    NothingToClose(StyleAfter(PLAIN, TextOf(pieces[..n])), TextOf(pieces[..n]), pieces[n]);
  }

  /** If the style after a piece needs no codes, its line needs none to be closed. */
  lemma NothingToClose(s: Style, before: Line, p: Piece)
    requires s == StyleAfter(PLAIN, before) && Blanks(p.gap)
    requires Escapes(ActiveCodes(StyleAfter(PLAIN, before + Whole(p)))) == []
    ensures ClosedLine(s, p.text) == OpenLine(s, p.text)
  {
    hide StyleAfter, Shown, Width;
    Concat(PLAIN, before, Whole(p));
    Concat(s, p.text, p.gap);
    BlanksShowNothing(StyleAfter(s, p.text), p.gap);
    NoCodesNoReset(StyleAfter(s, p.text));
    assert OpenLine(s, p.text) + [] == OpenLine(s, p.text);
  }

  lemma NoCodesNoReset(s: Style)
    requires Escapes(ActiveCodes(s)) == []
    ensures Escapes(LineEndReset(s)) == []
  {
    assert |ActiveCodes(s)| == 0;
    assert s.attributes.underline ==> |OnCodes(s.attributes)| > 0;
  }
}
