/** Cutting columns out of a styled line, for overlays. */
module Segments {
  import opened Basics
  import opened Ansi
  import opened Wrap

  /** A glyph on the screen: where it starts and how it looks. */
  datatype Placed = Placed(col: int, id: nat, width: nat, isSpace: bool, style: Style)

  // ----- where the glyphs of a line are -----

  /** The glyphs of a line that is printed from column `col` in style `s`. */
  function Columns(s: Style, col: int, line: Line): seq<Placed> {
    if line == [] then []
    else
      var before := line[..|line| - 1];
      Columns(s, col, before) + Put(StyleAfter(s, before), col + Width(before), line[|line| - 1])
  }

  function Put(s: Style, col: int, item: Item): seq<Placed> {
    if item.Glyph? then [Placed(col, item.id, item.width, item.isSpace, s)] else []
  }

  predicate InRange(p: Placed, lo: int, hi: int, strict: bool) {
    lo <= p.col < hi && (strict ==> p.col + p.width <= hi)
  }

  function Filter(ps: seq<Placed>, lo: int, hi: int, strict: bool): (r: seq<Placed>)
    ensures forall p :: p in r <==> p in ps && InRange(p, lo, hi, strict)
  {
    if ps == [] then []
    else
      var r := Filter(ps[..|ps| - 1], lo, hi, strict);
      var last := ps[|ps| - 1];
      assert ps == ps[..|ps| - 1] + [last];
      if InRange(last, lo, hi, strict) then r + [last] else r
  }

  /** The glyphs of a line, printed from column 0 in the plain style, that start between
      two columns; strictly, also those that end past the second are left out. */
  function Picked(line: Line, lo: int, hi: int, strict: bool): seq<Placed> {
    Filter(Columns(PLAIN, 0, line), lo, hi, strict)
  }

  lemma {:induction false} ColumnsConcat(s: Style, col: int, a: Line, b: Line)
    ensures Columns(s, col, a + b) == Columns(s, col, a) + Columns(StyleAfter(s, a), col + Width(a), b)
  {
    hide Put;
    if b == [] {
      assert a + b == a;
    } else {
      var n := |b| - 1;
      assert (a + b)[..|a + b| - 1] == a + b[..n] && (a + b)[|a + b| - 1] == b[n];
      ColumnsConcat(s, col, a, b[..n]);
      Concat(s, a, b[..n]);
    }
  }

  lemma {:induction false} ColumnsOfEscapes(s: Style, col: int, line: Line)
    requires OnlyEscapes(line)
    ensures Columns(s, col, line) == [] && Width(line) == 0
  {
    if line != [] { ColumnsOfEscapes(s, col, line[..|line| - 1]); }
  }

  lemma FilterSnoc(ps: seq<Placed>, p: Placed, lo: int, hi: int, strict: bool)
    ensures Filter(ps + [p], lo, hi, strict) == Filter(ps, lo, hi, strict) + if InRange(p, lo, hi, strict) then [p] else []
  {
    assert (ps + [p])[..|ps|] == ps;
  }

  /** One more item of the line. */
  lemma PickedNext(line: Line, i: nat, lo: int, hi: int, strict: bool)
    requires i < |line|
    ensures var p := Put(StyleAfter(PLAIN, line[..i]), Width(line[..i]), line[i]);
            Picked(line[..i + 1], lo, hi, strict) == Picked(line[..i], lo, hi, strict)
            + (if p != [] && InRange(p[0], lo, hi, strict) then p else [])
    ensures Width(line[..i + 1]) == Width(line[..i]) + ItemWidth(line[i])
    ensures StyleAfter(PLAIN, line[..i + 1]) == ItemStyle(StyleAfter(PLAIN, line[..i]), line[i])
  {
    hide Filter, InRange, ItemStyle;
    assert line[..i + 1][..i] == line[..i];
    var p := Put(StyleAfter(PLAIN, line[..i]), Width(line[..i]), line[i]);
    if p != [] {
      assert p == [p[0]];
      FilterSnoc(Columns(PLAIN, 0, line[..i]), p[0], lo, hi, strict);
    } else {
      assert Columns(PLAIN, 0, line[..i + 1]) == Columns(PLAIN, 0, line[..i]);
    }
  }

  /** Nothing past the range is picked. */
  lemma {:induction false} PickedDone(line: Line, i: nat, lo: int, hi: int, strict: bool)
    requires i <= |line| && Width(line[..i]) >= hi
    ensures Picked(line, lo, hi, strict) == Picked(line[..i], lo, hi, strict)
    decreases |line| - i
  {
    hide Picked;
    if i == |line| {
      assert line[..i] == line;
    } else {
      PickedNext(line, i, lo, hi, strict);
      PickedDone(line, i + 1, lo, hi, strict);
    }
  }

  function FirstColumn(ps: seq<Placed>): int { if ps == [] then 0 else ps[0].col }

  /** The style that is on right before column `hi`, after the codes that stand there. */
  function EndStyle(line: Line, hi: int): Style {
    if line == [] then PLAIN
    else if Width(line) < hi then StyleAfter(PLAIN, line)
    else EndStyle(line[..|line| - 1], hi)
  }

  lemma EndStyleNext(line: Line, i: nat, hi: int)
    requires i < |line|
    ensures EndStyle(line[..i + 1], hi) ==
              if Width(line[..i + 1]) < hi then StyleAfter(PLAIN, line[..i + 1])
              else EndStyle(line[..i], hi)
    ensures Width(line[..i]) < hi ==> EndStyle(line[..i], hi) == StyleAfter(PLAIN, line[..i])
    ensures Width(line[..i]) <= Width(line[..i + 1])
  {
    hide StyleAfter;
    assert line[..i + 1][..i] == line[..i];
    if i == 0 { NoColumns(PLAIN, 0); }
  }

  lemma {:induction false} EndStyleDone(line: Line, i: nat, hi: int)
    requires i <= |line| && Width(line[..i]) >= hi
    ensures EndStyle(line, hi) == EndStyle(line[..i], hi)
    decreases |line| - i
  {
    hide EndStyle, Width;
    if i == |line| {
      assert line[..i] == line;
    } else {
      EndStyleNext(line, i, hi);
      EndStyleDone(line, i + 1, hi);
    }
  }

  /** The style of the last glyph. */
  function LastStyle(ps: seq<Placed>): Style { if ps == [] then PLAIN else ps[|ps| - 1].style }

  predicate EndsInGlyph(line: Line) { line == [] || line[|line| - 1].Glyph? }

  lemma GlyphAtEnd(line: Line)
    requires EndsInGlyph(line)
    ensures StyleAfter(PLAIN, line) == LastStyle(Columns(PLAIN, 0, line))
  {
  }

  // ----- the text before an overlay -----

  predicate BeforeState(line: Line, i: nat, before: Line, pending: Line, beforeEnd: int)
    requires i <= |line|
  {
    && Columns(PLAIN, 0, before) == Picked(line[..i], 0, beforeEnd, false)
    && OnlyEscapes(pending) && EndsInGlyph(before)
    && (Width(line[..i]) < beforeEnd ==>
          Width(before) == Width(line[..i]) && StyleAfter(PLAIN, before + pending) == StyleAfter(PLAIN, line[..i]))
  }

  lemma BeforeEscape(line: Line, i: nat, before: Line, pending: Line, beforeEnd: int)
    requires i < |line| && line[i].Escape? && BeforeState(line, i, before, pending, beforeEnd)
    ensures BeforeState(line, i + 1, before, if Width(line[..i]) < beforeEnd then pending + [line[i]] else pending, beforeEnd)
  {
    hide Picked, Columns, Width, StyleAfter, ItemStyle, InRange;
    PickedNext(line, i, 0, beforeEnd, false);
    assert before + pending + [line[i]] == before + (pending + [line[i]]);
    Concat(PLAIN, before + pending, [line[i]]);
    SingleItem(StyleAfter(PLAIN, before + pending), line[i]);
  }

  lemma SingleItem(s: Style, item: Item)
    ensures StyleAfter(s, [item]) == ItemStyle(s, item) && Width([item]) == ItemWidth(item)
  {
    assert [item][..0] == [];
  }

  /** Codes and a glyph are added to a line. */
  lemma AddGlyph(s: Style, col: int, line: Line, escapes: Line, glyph: Item)
    requires OnlyEscapes(escapes) && glyph.Glyph?
    ensures var more := line + escapes + [glyph];
            && Columns(s, col, more) == Columns(s, col, line) + Put(StyleAfter(s, line + escapes), col + Width(line), glyph)
            && Width(more) == Width(line) + glyph.width
            && StyleAfter(s, more) == StyleAfter(s, line + escapes)
  {
    hide Put, Process;
    ColumnsConcat(s, col, line, escapes);
    Concat(s, line, escapes);
    ColumnsOfEscapes(StyleAfter(s, line), col + Width(line), escapes);
    assert (line + escapes + [glyph])[..|line + escapes|] == line + escapes;
  }

  lemma BeforeGlyph(line: Line, i: nat, before: Line, pending: Line, beforeEnd: int)
    requires i < |line| && line[i].Glyph? && BeforeState(line, i, before, pending, beforeEnd)
    ensures if Width(line[..i]) < beforeEnd then BeforeState(line, i + 1, before + pending + [line[i]], [], beforeEnd)
            else BeforeState(line, i + 1, before, pending, beforeEnd)
    ensures Width(before + pending + [line[i]]) == Width(before) + line[i].width
  {
    hide Picked, Columns, Width, StyleAfter;
    PickedNext(line, i, 0, beforeEnd, false);
    AddGlyph(PLAIN, 0, before, pending, line[i]);
    assert before + pending + [line[i]] + [] == before + pending + [line[i]];
  }

  // ----- the text after it -----

  predicate AfterState(line: Line, i: nat, after: Line, lo: int, hi: int, strict: bool)
    requires i <= |line|
  {
    var picked := Picked(line[..i], lo, hi, strict);
    if after == [] then picked == []
    else
      && picked != [] && Columns(PLAIN, FirstColumn(picked), after) == picked
      && (Width(line[..i]) < hi ==>
            lo <= FirstColumn(picked) + Width(after) == Width(line[..i]))
      && StyleAfter(PLAIN, after) == EndStyle(line[..i], hi)
  }

  lemma AfterEscape(line: Line, i: nat, after: Line, lo: int, hi: int, strict: bool)
    requires i < |line| && line[i].Escape? && AfterState(line, i, after, lo, hi, strict)
    ensures AfterState(line, i + 1,
                       if lo <= Width(line[..i]) < hi && after != [] then after + [line[i]] else after,
                       lo, hi, strict)
    ensures Width(after + [line[i]]) == Width(after)
  {
    hide Picked, Columns, Width, StyleAfter, ItemStyle, InRange, EndStyle;
    PickedNext(line, i, lo, hi, strict);
    EndStyleNext(line, i, hi);
    var c := FirstColumn(Picked(line[..i], lo, hi, strict));
    ColumnsConcat(PLAIN, c, after, [line[i]]);
    ColumnsOfEscapes(StyleAfter(PLAIN, after), c + Width(after), [line[i]]);
    Concat(PLAIN, after, [line[i]]);
    SingleItem(StyleAfter(PLAIN, after), line[i]);
  }

  /** The first glyph of the part brings along the style that is on. */
  lemma AfterStarts(line: Line, i: nat, lo: int, hi: int, strict: bool)
    requires i < |line| && line[i].Glyph? && AfterState(line, i, [], lo, hi, strict)
    requires lo <= Width(line[..i]) < hi && (!strict || Width(line[..i]) + line[i].width <= hi)
    ensures AfterState(line, i + 1, Escapes(ActiveCodes(StyleAfter(PLAIN, line[..i]))) + [line[i]], lo, hi, strict)
    ensures Width(Escapes(ActiveCodes(StyleAfter(PLAIN, line[..i]))) + [line[i]]) == line[i].width
  {
    hide Picked, Columns, Width, StyleAfter, ActiveCodes, Reachable, EndStyle;
    PickedNext(line, i, lo, hi, strict);
    EndStyleNext(line, i, hi);
    var s := StyleAfter(PLAIN, line[..i]);
    assert Reachable(PLAIN) by { PlainReachable(); }
    StyleStaysReachable(PLAIN, line[..i]);
    ActiveCodesRestore(s);
    StartGlyph(Width(line[..i]), Escapes(ActiveCodes(s)), line[i]);
  }

  lemma StartGlyph(col: int, escapes: Line, glyph: Item)
    requires OnlyEscapes(escapes) && glyph.Glyph?
    ensures var line := escapes + [glyph]; var s := StyleAfter(PLAIN, escapes);
            Columns(PLAIN, col, line) == [Placed(col, glyph.id, glyph.width, glyph.isSpace, s)]
            && Width(line) == glyph.width && StyleAfter(PLAIN, line) == s
  {
    hide Columns, Width, StyleAfter;
    assert [] + escapes == escapes;
    AddGlyph(PLAIN, col, [], escapes, glyph);
    NoColumns(PLAIN, col);
  }

  lemma AfterContinues(line: Line, i: nat, after: Line, lo: int, hi: int, strict: bool)
    requires i < |line| && line[i].Glyph? && after != [] && AfterState(line, i, after, lo, hi, strict)
    requires lo <= Width(line[..i]) < hi && (!strict || Width(line[..i]) + line[i].width <= hi)
    ensures AfterState(line, i + 1, after + [line[i]], lo, hi, strict)
    ensures Width(after + [line[i]]) == Width(after) + line[i].width
  {
    hide Picked, Columns, Width, StyleAfter, EndStyle;
    PickedNext(line, i, lo, hi, strict);
    EndStyleNext(line, i, hi);
    assert after + [] + [line[i]] == after + [line[i]] && after + [] == after;
    AddGlyph(PLAIN, FirstColumn(Picked(line[..i], lo, hi, strict)), after, [], line[i]);
  }

  lemma AfterSkips(line: Line, i: nat, after: Line, lo: int, hi: int, strict: bool)
    requires i < |line| && line[i].Glyph? && AfterState(line, i, after, lo, hi, strict)
    requires !(lo <= Width(line[..i]) < hi && (!strict || Width(line[..i]) + line[i].width <= hi))
    ensures AfterState(line, i + 1, after, lo, hi, strict)
  {
    hide Picked, Columns, Width, StyleAfter, EndStyle;
    PickedNext(line, i, lo, hi, strict);
    EndStyleNext(line, i, hi);
  }

  lemma PlainReachable()
    ensures Reachable(PLAIN)
  {
  }

  lemma NoColumns(s: Style, col: int)
    ensures Columns(s, col, []) == [] && Width([]) == 0 && StyleAfter(s, []) == s
  {
  }

  lemma {:induction false} FilterNothing(ps: seq<Placed>, lo: int, hi: int, strict: bool)
    requires hi <= lo
    ensures Filter(ps, lo, hi, strict) == []
  {
    if ps != [] { FilterNothing(ps[..|ps| - 1], lo, hi, strict); }
  }

  lemma NothingPicked(line: Line, lo: int, hi: int, strict: bool)
    requires hi <= lo
    ensures Picked(line, lo, hi, strict) == []
  {
    FilterNothing(Columns(PLAIN, 0, line), lo, hi, strict);
  }

  lemma StatesAtStart(line: Line, beforeEnd: int, lo: int, hi: int, strict: bool)
    ensures BeforeState(line, 0, [], [], beforeEnd) && AfterState(line, 0, [], lo, hi, strict)
    ensures Width(line[..0]) == 0 && StyleAfter(PLAIN, line[..0]) == PLAIN
  {
    assert line[..0] == [];
  }

  lemma WalkNext(line: Line, i: nat)
    requires i < |line|
    ensures Width(line[..i + 1]) == Width(line[..i]) + ItemWidth(line[i])
    ensures StyleAfter(PLAIN, line[..i + 1]) == ItemStyle(StyleAfter(PLAIN, line[..i]), line[i])
  {
    assert line[..i + 1][..i] == line[..i];
  }

  /** Where the pass stops collecting text before the overlay. */
  function BeforeStop(beforeEnd: nat, afterStart: nat, afterLen: int): nat {
    if afterLen > 0 then Min(beforeEnd, afterStart + afterLen) else beforeEnd
  }

  /** The text left and right of an overlay in one pass. Printed from the plain style at
      the column of its first glyph, each part shows the glyphs that the two column
      ranges pick, in the columns and styles they have in the line. Where the ranges
      overlap the first one has the glyph. */
  method ExtractSegments(line: Line, beforeEnd: nat, afterStart: nat, afterLen: int, strictAfter: bool,
                         pooledStyleTracker: AnsiCodeTracker)
    returns (before: Line, beforeWidth: nat, after: Line, afterWidth: nat)
    modifies pooledStyleTracker
    ensures beforeWidth == Width(before) && afterWidth == Width(after)
    ensures Columns(PLAIN, 0, before) == Picked(line, 0, BeforeStop(beforeEnd, afterStart, afterLen), false)
    ensures var picked := Picked(line, Max(beforeEnd, afterStart), afterStart + afterLen, strictAfter);
            && Columns(PLAIN, FirstColumn(picked), after) == picked
            && StyleAfter(PLAIN, after) == if picked == [] then PLAIN else EndStyle(line, afterStart + afterLen)
    ensures StyleAfter(PLAIN, before) == LastStyle(Columns(PLAIN, 0, before))
  {
    hide Picked, Columns, Width, StyleAfter, ActiveCodes, BeforeState, AfterState, Process, AnsiCodeTracker.View,
         InRange, Put;
    hide EndStyle, LastStyle;
    before, beforeWidth, after, afterWidth := [], 0, [], 0;
    var currentCol := 0;
    var i := 0;
    var pendingAnsiBefore: Line := [];
    var afterStarted := false;
    var afterEnd := afterStart + afterLen;
    ghost var stop, start := BeforeStop(beforeEnd, afterStart, afterLen), Max(beforeEnd, afterStart);
    pooledStyleTracker.Clear();
    StatesAtStart(line, stop, start, afterEnd, strictAfter);
    NoColumns(PLAIN, 0);
    while i < |line|
      invariant 0 <= i <= |line|
      invariant pooledStyleTracker.View() == StyleAfter(PLAIN, line[..i])
      invariant currentCol == Width(line[..i]) && (afterLen > 0 ==> currentCol < afterEnd)
      invariant BeforeState(line, i, before, pendingAnsiBefore, stop) && beforeWidth == Width(before)
      invariant AfterState(line, i, after, start, afterEnd, strictAfter) && afterWidth == Width(after)
      invariant afterStarted <==> after != []
    {
      var item := line[i];
      WalkNext(line, i);
      if item.Escape? {
        BeforeEscape(line, i, before, pendingAnsiBefore, stop);
        AfterEscape(line, i, after, start, afterEnd, strictAfter);
        pooledStyleTracker.ProcessCode(item.code);
        if currentCol < beforeEnd {
          pendingAnsiBefore := pendingAnsiBefore + [item];
        } else if afterStart <= currentCol < afterEnd && afterStarted {
          after := after + [item];
        }
        i := i + 1;
        continue;
      }
      BeforeGlyph(line, i, before, pendingAnsiBefore, stop);
      if currentCol < beforeEnd {
        AfterSkips(line, i, after, start, afterEnd, strictAfter);
        before := before + pendingAnsiBefore;
        pendingAnsiBefore := [];
        before := before + [item];
        beforeWidth := beforeWidth + item.width;
      } else if afterStart <= currentCol < afterEnd {
        var fits := !strictAfter || currentCol + item.width <= afterEnd;
        if fits {
          if !afterStarted {
            AfterStarts(line, i, start, afterEnd, strictAfter);
            var codes := pooledStyleTracker.GetActiveCodes();
            after := after + Escapes(codes);
            assert after == Escapes(codes);
            afterStarted := true;
          } else {
            AfterContinues(line, i, after, start, afterEnd, strictAfter);
          }
          after := after + [item];
          afterWidth := afterWidth + item.width;
        } else {
          AfterSkips(line, i, after, start, afterEnd, strictAfter);
        }
      } else {
        AfterSkips(line, i, after, start, afterEnd, strictAfter);
      }
      currentCol := currentCol + item.width;
      i := i + 1;
      if if afterLen <= 0 then currentCol >= beforeEnd else currentCol >= afterEnd {
        break;
      }
    }
    SegmentsDone(line, i, before, pendingAnsiBefore, after, stop, start, afterEnd, strictAfter);
  }

  lemma SegmentsDone(line: Line, i: nat, before: Line, pending: Line, after: Line, beforeEnd: int, lo: int, hi: int,
                     strict: bool)
    requires i <= |line|
    requires BeforeState(line, i, before, pending, beforeEnd) && AfterState(line, i, after, lo, hi, strict)
    requires i == |line| || (Width(line[..i]) >= beforeEnd && (hi <= lo || Width(line[..i]) >= hi))
    ensures Columns(PLAIN, 0, before) == Picked(line, 0, beforeEnd, false)
    ensures Columns(PLAIN, FirstColumn(Picked(line, lo, hi, strict)), after) == Picked(line, lo, hi, strict)
    ensures StyleAfter(PLAIN, before) == LastStyle(Columns(PLAIN, 0, before))
    ensures StyleAfter(PLAIN, after) == if Picked(line, lo, hi, strict) == [] then PLAIN else EndStyle(line, hi)
  {
    hide Picked, Columns, Width, StyleAfter, EndStyle, LastStyle;
    NoColumns(PLAIN, 0);
    GlyphAtEnd(before);
    if i == |line| {
      assert line[..i] == line;
    } else {
      PickedDone(line, i, 0, beforeEnd, false);
      if hi <= lo {
        NothingPicked(line, lo, hi, strict);
        NothingPicked(line[..i], lo, hi, strict);
      } else {
        PickedDone(line, i, lo, hi, strict);
        EndStyleDone(line, i, hi);
      }
    }
  }

  /** The glyphs without their places and styles. */
  function Bare(ps: seq<Placed>): Line {
    seq(|ps|, i requires 0 <= i < |ps| => Glyph(ps[i].id, ps[i].width, ps[i].isSpace))
  }

  lemma BareSnoc(ps: seq<Placed>, p: Placed)
    ensures Bare(ps + [p]) == Bare(ps) + [Glyph(p.id, p.width, p.isSpace)]
  {
  }

  lemma BareNext(s: Style, col: int, line: Line)
    requires line != []
    ensures var n := |line| - 1;
            Bare(Columns(s, col, line)) == Bare(Columns(s, col, line[..n])) + if line[n].Glyph? then [line[n]] else []
  {
    hide Width, StyleAfter, Bare;
    var n := |line| - 1;
    var front := Columns(s, col, line[..n]);
    if line[n].Glyph? {
      BareSnoc(front, Put(StyleAfter(s, line[..n]), col + Width(line[..n]), line[n])[0]);
    } else {
      assert front + [] == front && Bare(front) + [] == Bare(front);
    }
  }

  /** The glyphs of a line and their total width, wherever it is printed. */
  lemma {:induction false} GlyphsOfLine(s: Style, col: int, t: Style, at: int, line: Line)
    ensures Bare(Columns(s, col, line)) == Bare(Columns(t, at, line))
            && Width(line) == Width(Bare(Columns(s, col, line)))
  {
    hide Columns, Bare, StyleAfter, Width;
    if line == [] {
      NoGlyphs(s, col);
      NoGlyphs(t, at);
    } else {
      var n := |line| - 1;
      GlyphsOfLine(s, col, t, at, line[..n]);
      BareNext(s, col, line);
      BareNext(t, at, line);
      var front := Bare(Columns(s, col, line[..n]));
      assert line[..n] + [line[n]] == line && front + [] == front;
      WidthSnoc(line[..n], line[n]);
      WidthSnoc(front, line[n]);
    }
  }

  lemma WidthSnoc(line: Line, item: Item)
    ensures Width(line + [item]) == Width(line) + ItemWidth(item)
  {
    assert (line + [item])[..|line|] == line;
  }

  lemma NoGlyphs(s: Style, col: int)
    ensures Bare(Columns(s, col, [])) == []
  {
  }
}
