/** One range of columns of a line: which glyphs a slice keeps, and when their styles. */
module Slices {
  import opened Basics
  import opened Ansi
  import opened Wrap
  import opened Segments

  /** The slice so far, and the codes from its left that wait for its first glyph. */
  datatype Cut = Cut(text: Line, pending: Line)

  function CutColumns(line: Line, lo: int, hi: int, strict: bool): Cut {
    if line == [] then Cut([], [])
    else
      var n := |line| - 1;
      CutNext(CutColumns(line[..n], lo, hi, strict), line[n], Width(line[..n]), lo, hi, strict)
  }

  function CutNext(cut: Cut, item: Item, col: int, lo: int, hi: int, strict: bool): Cut {
    if item.Escape? then
      if lo <= col < hi then Cut(cut.text + [item], cut.pending)
      else if col < lo then Cut(cut.text, cut.pending + [item])
      else cut
    else if lo <= col < hi && (!strict || col + item.width <= hi) then Cut(cut.text + cut.pending + [item], [])
    else cut
  }

  function SliceText(line: Line, startCol: int, length: int, strict: bool): Line {
    if length <= 0 then [] else CutColumns(line, startCol, startCol + length, strict).text
  }

  /** The codes to the left of the range. */
  function LeftCodes(line: Line, lo: int): seq<Code> {
    if line == [] then []
    else
      var n := |line| - 1;
      LeftCodes(line[..n], lo) + if line[n].Escape? && Width(line[..n]) < lo then [line[n].code] else []
  }

  /** The codes in the range before the first glyph that is picked. */
  function EdgeCodes(line: Line, lo: int, hi: int, strict: bool): seq<Code> {
    if line == [] then []
    else
      var n := |line| - 1;
      EdgeCodes(line[..n], lo, hi, strict)
      + if line[n].Escape? && lo <= Width(line[..n]) < hi && Picked(line[..n], lo, hi, strict) == [] then [line[n].code] else []
  }

  /** The codes at the edge come before the ones from the left, though they came after
      them in the line: the style in the slice, and the style in the line. */
  function SliceStyle(line: Line, lo: int, hi: int, strict: bool): Style {
    ProcessAll(ProcessAll(PLAIN, EdgeCodes(line, lo, hi, strict)), LeftCodes(line, lo))
  }

  function LineStyle(line: Line, lo: int, hi: int, strict: bool): Style {
    ProcessAll(ProcessAll(PLAIN, LeftCodes(line, lo)), EdgeCodes(line, lo, hi, strict))
  }

  /** The same glyphs in the same columns. */
  predicate SamePlaces(ps: seq<Placed>, qs: seq<Placed>) {
    |ps| == |qs| && forall k :: 0 <= k < |ps| ==> ps[k] == qs[k].(style := ps[k].style)
  }

  predicate Empty(cut: Cut, line: Line, lo: int, hi: int, strict: bool) {
    var left, edge := LeftCodes(line, lo), EdgeCodes(line, lo, hi, strict);
    && cut == Cut(Escapes(edge), Escapes(left))
    && (Width(line) < lo ==> edge == [])
    && (Width(line) < hi ==> StyleAfter(PLAIN, line) == LineStyle(line, lo, hi, strict))
    && (lo <= 0 ==> left == [] && (Width(line) == 0 || hi <= Width(line)))
  }

  predicate Filled(cut: Cut, line: Line, lo: int, hi: int, strict: bool) {
    var picked := Picked(line, lo, hi, strict);
    var ps := Columns(PLAIN, FirstColumn(picked), cut.text);
    && picked != [] && cut.pending == [] && SamePlaces(ps, picked)
    && ps[0].style == SliceStyle(line, lo, hi, strict) && picked[0].style == LineStyle(line, lo, hi, strict)
    && (lo <= 0 ==> FirstColumn(picked) == 0 && LeftCodes(line, lo) == [])
    && (Width(line) < hi ==> lo <= FirstColumn(picked) + Width(cut.text) == Width(line))
    && (SliceStyle(line, lo, hi, strict) == LineStyle(line, lo, hi, strict) ==>
          ps == picked && (Width(line) < hi ==> StyleAfter(PLAIN, cut.text) == StyleAfter(PLAIN, line)))
  }

  predicate Shape(cut: Cut, line: Line, lo: int, hi: int, strict: bool) {
    if Picked(line, lo, hi, strict) == [] then Empty(cut, line, lo, hi, strict) else Filled(cut, line, lo, hi, strict)
  }

  lemma CodesNext(line: Line, i: nat, lo: int, hi: int, strict: bool)
    requires i < |line|
    ensures var left := LeftCodes(line[..i], lo);
            LeftCodes(line[..i + 1], lo) == if line[i].Escape? && Width(line[..i]) < lo then left + [line[i].code] else left
    ensures var edge := EdgeCodes(line[..i], lo, hi, strict);
            EdgeCodes(line[..i + 1], lo, hi, strict) ==
              if line[i].Escape? && lo <= Width(line[..i]) < hi && Picked(line[..i], lo, hi, strict) == []
              then edge + [line[i].code] else edge
    ensures CutColumns(line[..i + 1], lo, hi, strict) == CutNext(CutColumns(line[..i], lo, hi, strict), line[i],
                                                                 Width(line[..i]), lo, hi, strict)
  {
    hide Picked;
    assert line[..i + 1][..i] == line[..i];
  }

  lemma {:induction false} ProcessAllSnoc(s: Style, codes: seq<Code>, code: Code)
    ensures ProcessAll(s, codes + [code]) == Process(ProcessAll(s, codes), code)
    decreases |codes|
  {
    hide Process;
    if codes == [] {
      assert [code][1..] == [] && codes + [code] == [code];
    } else {
      assert (codes + [code])[1..] == codes[1..] + [code];
      ProcessAllSnoc(Process(s, codes[0]), codes[1..], code);
    }
  }

  lemma EscapesSnoc(codes: seq<Code>, code: Code)
    ensures Escapes(codes + [code]) == Escapes(codes) + [Escape(code)]
  {
  }

  /** A code before the first picked glyph. */
  lemma EscapeWhileEmpty(line: Line, i: nat, cut: Cut, lo: int, hi: int, strict: bool)
    requires i < |line| && line[i].Escape? && lo < hi && Picked(line[..i], lo, hi, strict) == []
    requires Empty(cut, line[..i], lo, hi, strict)
    ensures Empty(CutNext(cut, line[i], Width(line[..i]), lo, hi, strict), line[..i + 1], lo, hi, strict)
  {
    hide Picked, Width, StyleAfter, ProcessAll, LeftCodes, EdgeCodes, Process;
    PickedNext(line, i, lo, hi, strict);
    CodesNext(line, i, lo, hi, strict);
    var left, edge, code := LeftCodes(line[..i], lo), EdgeCodes(line[..i], lo, hi, strict), line[i].code;
    EscapesSnoc(left, code);
    EscapesSnoc(edge, code);
    ProcessAllSnoc(ProcessAll(PLAIN, left), edge, code);
    ProcessAllSnoc(PLAIN, left, code);
    ProcessNothing(ProcessAll(PLAIN, left));
    ProcessNothing(ProcessAll(PLAIN, left + [code]));
  }

  lemma ProcessNothing(s: Style)
    ensures ProcessAll(s, []) == s
  {
  }

  /** The first picked glyph. */
  lemma GlyphWhileEmpty(line: Line, i: nat, cut: Cut, lo: int, hi: int, strict: bool)
    requires i < |line| && line[i].Glyph? && lo < hi && Picked(line[..i], lo, hi, strict) == []
    requires Empty(cut, line[..i], lo, hi, strict)
    requires lo <= Width(line[..i]) < hi && (!strict || Width(line[..i]) + line[i].width <= hi)
    ensures Filled(CutNext(cut, line[i], Width(line[..i]), lo, hi, strict), line[..i + 1], lo, hi, strict)
  {
    hide Picked, Columns, Width, StyleAfter, ProcessAll, LeftCodes, EdgeCodes;
    PickedNext(line, i, lo, hi, strict);
    CodesNext(line, i, lo, hi, strict);
    FirstGlyphStyle(EdgeCodes(line[..i], lo, hi, strict), LeftCodes(line[..i], lo), Width(line[..i]), line[i]);
  }

  lemma FirstGlyphStyle(edge: seq<Code>, left: seq<Code>, col: int, glyph: Item)
    requires glyph.Glyph?
    ensures var text := Escapes(edge) + Escapes(left) + [glyph]; var s := ProcessAll(ProcessAll(PLAIN, edge), left);
            && Columns(PLAIN, col, text) == [Placed(col, glyph.id, glyph.width, glyph.isSpace, s)]
            && Width(text) == glyph.width && StyleAfter(PLAIN, text) == s
  {
    hide Columns, Width, StyleAfter, ProcessAll;
    EscapesEffect(PLAIN, edge);
    EscapesEffect(ProcessAll(PLAIN, edge), left);
    Concat(PLAIN, Escapes(edge), Escapes(left));
    StartGlyph(col, Escapes(edge) + Escapes(left), glyph);
  }

  lemma EscapeWhileFilled(line: Line, i: nat, cut: Cut, lo: int, hi: int, strict: bool)
    requires i < |line| && line[i].Escape? && lo < hi && Filled(cut, line[..i], lo, hi, strict)
    ensures Filled(CutNext(cut, line[i], Width(line[..i]), lo, hi, strict), line[..i + 1], lo, hi, strict)
  {
    hide Picked, Columns, Width, StyleAfter, ProcessAll, LeftCodes, EdgeCodes, ItemStyle;
    PickedNext(line, i, lo, hi, strict);
    CodesNext(line, i, lo, hi, strict);
    var picked := Picked(line[..i], lo, hi, strict);
    assert Picked(line[..i + 1], lo, hi, strict) == picked;
    var c, more := FirstColumn(picked), [line[i]];
    ColumnsConcat(PLAIN, c, cut.text, more);
    ColumnsOfEscapes(StyleAfter(PLAIN, cut.text), c + Width(cut.text), more);
    assert Columns(PLAIN, c, cut.text + more) == Columns(PLAIN, c, cut.text);
    Concat(PLAIN, cut.text, more);
    SingleItem(StyleAfter(PLAIN, cut.text), line[i]);
  }

  lemma GlyphWhileFilled(line: Line, i: nat, cut: Cut, lo: int, hi: int, strict: bool)
    requires i < |line| && line[i].Glyph? && lo < hi && Filled(cut, line[..i], lo, hi, strict)
    requires lo <= Width(line[..i]) < hi && (!strict || Width(line[..i]) + line[i].width <= hi)
    ensures Filled(CutNext(cut, line[i], Width(line[..i]), lo, hi, strict), line[..i + 1], lo, hi, strict)
  {
    hide Picked, Columns, Width, StyleAfter, ProcessAll, LeftCodes, EdgeCodes;
    PickedNext(line, i, lo, hi, strict);
    CodesNext(line, i, lo, hi, strict);
    assert cut.text + [] + [line[i]] == cut.text + [line[i]] && cut.text + [] == cut.text
           && cut.text + cut.pending == cut.text;
    AddGlyph(PLAIN, FirstColumn(Picked(line[..i], lo, hi, strict)), cut.text, [], line[i]);
  }

  lemma GlyphSkipped(line: Line, i: nat, cut: Cut, lo: int, hi: int, strict: bool)
    requires i < |line| && line[i].Glyph? && lo < hi && Shape(cut, line[..i], lo, hi, strict)
    requires !(lo <= Width(line[..i]) < hi && (!strict || Width(line[..i]) + line[i].width <= hi))
    ensures Shape(CutNext(cut, line[i], Width(line[..i]), lo, hi, strict), line[..i + 1], lo, hi, strict)
  {
    hide Picked, Columns, Width, StyleAfter, ProcessAll, LeftCodes, EdgeCodes;
    PickedNext(line, i, lo, hi, strict);
    CodesNext(line, i, lo, hi, strict);
    assert Picked(line[..i + 1], lo, hi, strict) == Picked(line[..i], lo, hi, strict);
  }

  lemma ShapeNext(line: Line, i: nat, cut: Cut, lo: int, hi: int, strict: bool)
    requires i < |line| && lo < hi && Shape(cut, line[..i], lo, hi, strict)
    ensures Shape(CutNext(cut, line[i], Width(line[..i]), lo, hi, strict), line[..i + 1], lo, hi, strict)
  {
    hide Filter, Columns, Width, StyleAfter, Empty, Filled, CutNext;
    PickedNext(line, i, lo, hi, strict);
    var col := Width(line[..i]);
    if line[i].Escape? {
      if Picked(line[..i], lo, hi, strict) == [] {
        EscapeWhileEmpty(line, i, cut, lo, hi, strict);
      } else {
        EscapeWhileFilled(line, i, cut, lo, hi, strict);
      }
    } else if !(lo <= col < hi && (!strict || col + line[i].width <= hi)) {
      GlyphSkipped(line, i, cut, lo, hi, strict);
    } else if Picked(line[..i], lo, hi, strict) == [] {
      GlyphWhileEmpty(line, i, cut, lo, hi, strict);
    } else {
      GlyphWhileFilled(line, i, cut, lo, hi, strict);
    }
  }

  lemma {:induction false} CutHasShape(line: Line, lo: int, hi: int, strict: bool, i: nat)
    requires i <= |line| && lo < hi
    ensures Shape(CutColumns(line[..i], lo, hi, strict), line[..i], lo, hi, strict)
  {
    hide Shape, CutNext, CutColumns;
    if i == 0 {
      NothingCut(lo, hi, strict);
      assert line[..0] == [];
    } else {
      CutHasShape(line, lo, hi, strict, i - 1);
      CodesNext(line, i - 1, lo, hi, strict);
      ShapeNext(line, i - 1, CutColumns(line[..i - 1], lo, hi, strict), lo, hi, strict);
    }
  }

  lemma NothingCut(lo: int, hi: int, strict: bool)
    ensures CutColumns([], lo, hi, strict) == Cut([], []) && Shape(Cut([], []), [], lo, hi, strict)
  {
  }

  // ----- what a slice shows -----

  /** A slice has exactly the glyphs that start in its range. */
  lemma SliceGlyphs(line: Line, startCol: int, length: int, strict: bool)
    ensures var text := SliceText(line, startCol, length, strict);
            var picked := Picked(line, startCol, startCol + length, strict);
            SamePlaces(Columns(PLAIN, FirstColumn(picked), text), picked) && Bare(Columns(PLAIN, 0, text)) == Bare(picked)
  {
    hide Picked, Columns, Width, StyleAfter, ProcessAll, LeftCodes, EdgeCodes, CutColumns, Bare, SamePlaces;
    var lo, hi := startCol, startCol + length;
    var text, picked := SliceText(line, startCol, length, strict), Picked(line, lo, hi, strict);
    SameNothing();
    if length <= 0 {
      NothingPicked(line, lo, hi, strict);
      NoColumns(PLAIN, 0);
    } else {
      CutHasShape(line, lo, hi, strict, |line|);
      assert line[..|line|] == line;
      if picked == [] { ColumnsOfEscapes(PLAIN, 0, text); }
    }
    GlyphsOfLine(PLAIN, FirstColumn(picked), PLAIN, 0, text);
    SameBare(Columns(PLAIN, FirstColumn(picked), text), picked);
  }

  lemma SameNothing()
    ensures SamePlaces([], [])
  {
  }

  lemma SameBare(ps: seq<Placed>, qs: seq<Placed>)
    ensures SamePlaces(ps, qs) ==> Bare(ps) == Bare(qs)
  {
  }

  /** And it shows them in the styles of the line if and only if nothing is picked or the
      codes at its edge and those from its left give the same style in either order. */
  lemma SliceStylesIff(line: Line, startCol: int, length: int, strict: bool)
    ensures var lo, hi := startCol, startCol + length; var picked := Picked(line, lo, hi, strict);
            Columns(PLAIN, FirstColumn(picked), SliceText(line, startCol, length, strict)) == picked <==>
              picked == [] || SliceStyle(line, lo, hi, strict) == LineStyle(line, lo, hi, strict)
  {
    hide Picked, Columns, Width, StyleAfter, ProcessAll, LeftCodes, EdgeCodes, CutColumns;
    var lo, hi := startCol, startCol + length;
    var text := SliceText(line, startCol, length, strict);
    if length <= 0 {
      NothingPicked(line, lo, hi, strict);
      NoColumns(PLAIN, 0);
    } else {
      CutHasShape(line, lo, hi, strict, |line|);
      assert line[..|line|] == line;
      if Picked(line, lo, hi, strict) == [] { ColumnsOfEscapes(PLAIN, 0, text); }
    }
  }

  /** A caller can see it beforehand: no code left of the slice, or none at its edge. */
  lemma OneSidedSlice(line: Line, startCol: int, length: int, strict: bool)
    requires LeftCodes(line, startCol) == [] || EdgeCodes(line, startCol, startCol + length, strict) == []
    ensures var picked := Picked(line, startCol, startCol + length, strict);
            Columns(PLAIN, FirstColumn(picked), SliceText(line, startCol, length, strict)) == picked
    ensures startCol <= 0 ==>
              Columns(PLAIN, 0, SliceText(line, startCol, length, strict)) == Picked(line, startCol, startCol + length, strict)
  {
    hide Picked, Columns, Width, StyleAfter, LeftCodes, EdgeCodes, CutColumns;
    var lo, hi := startCol, startCol + length;
    SliceStylesIff(line, startCol, length, strict);
    ProcessNothing(PLAIN);
    ProcessNothing(ProcessAll(PLAIN, LeftCodes(line, lo)));
    ProcessNothing(ProcessAll(PLAIN, EdgeCodes(line, lo, hi, strict)));
    if length > 0 {
      CutHasShape(line, lo, hi, strict, |line|);
      assert line[..|line|] == line;
      if Picked(line, lo, hi, strict) == [] { ColumnsOfEscapes(PLAIN, 0, SliceText(line, startCol, length, strict)); }
    } else {
      NothingPicked(line, lo, hi, strict);
      NoColumns(PLAIN, 0);
    }
  }

  /** From column 0 on nothing lies to the left. */
  lemma {:induction false} NoLeftCodes(line: Line, lo: int)
    requires lo <= 0
    ensures LeftCodes(line, lo) == []
  {
    if line != [] { NoLeftCodes(line[..|line| - 1], lo); }
  }

  /** A style with one of the basic foreground colours. */
  function Coloured(code: nat): Style { PLAIN.(foreground := Some([Plain(code)])) }

  lemma Colour(s: Style, code: nat)
    requires 30 <= code <= 37
    ensures Process(s, Sgr([Plain(code)])) == s.(foreground := Some([Plain(code)]))
    ensures ProcessAll(s, [Sgr([Plain(code)])]) == s.(foreground := Some([Plain(code)]))
  {
    hide SwitchOn, SwitchOff, ApplyParams;
    OneColor(s, [Plain(code)], 38, 30, 90);
    assert [Sgr([Plain(code)])][1..] == [];
  }

  const RED := Sgr([Plain(31)])
  const GREEN := Sgr([Plain(32)])

  function RedGreen(a: nat, b: nat): Line {
    [Escape(RED), Glyph(a, 1, false), Escape(GREEN), Glyph(b, 1, false)]
  }

  /** Red, a glyph, green, a glyph: the slice of the second column shows its glyph red,
      though it is green in the line. */
  lemma SliceMixesStyles(a: nat, b: nat)
    ensures SliceText(RedGreen(a, b), 1, 1, true) == [Escape(GREEN), Escape(RED), Glyph(b, 1, false)]
    ensures Columns(PLAIN, 1, SliceText(RedGreen(a, b), 1, 1, true)) == [Placed(1, b, 1, false, Coloured(31))]
    ensures Picked(RedGreen(a, b), 1, 2, true) == [Placed(1, b, 1, false, Coloured(32))]
  {
    hide CutColumns, Picked, Columns, Width, StyleAfter, Process, ProcessAll;
    RedGreenCut(a, b);
    RedGreenPicked(a, b);
    Colour(PLAIN, 32);
    Colour(Coloured(32), 31);
    FirstGlyphStyle([GREEN], [RED], 1, Glyph(b, 1, false));
    assert Escapes([GREEN]) + Escapes([RED]) + [Glyph(b, 1, false)] == [Escape(GREEN), Escape(RED), Glyph(b, 1, false)];
  }

  lemma RedGreenCut(a: nat, b: nat)
    ensures CutColumns(RedGreen(a, b), 1, 2, true).text == [Escape(GREEN), Escape(RED), Glyph(b, 1, false)]
  {
    hide CutColumns, Width, StyleAfter, Picked, LeftCodes, EdgeCodes;
    var line := RedGreen(a, b);
    CutStarts(line, 1, 2, true);
    forall i | 0 <= i < 4
      ensures CutColumns(line[..i + 1], 1, 2, true) == CutNext(CutColumns(line[..i], 1, 2, true), line[i],
                                                               Width(line[..i]), 1, 2, true)
      ensures Width(line[..i + 1]) == Width(line[..i]) + ItemWidth(line[i])
    {
      CodesNext(line, i, 1, 2, true);
      WalkNext(line, i);
    }
    assert CutColumns(line[..1], 1, 2, true) == Cut([], [Escape(RED)]) && Width(line[..1]) == 0;
    assert CutColumns(line[..2], 1, 2, true) == Cut([], [Escape(RED)]) && Width(line[..2]) == 1;
    assert CutColumns(line[..3], 1, 2, true) == Cut([Escape(GREEN)], [Escape(RED)]) && Width(line[..3]) == 1;
    assert line[..4] == line;
  }

  lemma RedGreenPicked(a: nat, b: nat)
    ensures Picked(RedGreen(a, b), 1, 2, true) == [Placed(1, b, 1, false, Coloured(32))]
  {
    hide Width, StyleAfter, Picked, Process;
    var line := RedGreen(a, b);
    NothingPickedYet(line);
    CutStarts(line, 1, 2, true);
    PickedNext(line, 0, 1, 2, true);
    Colour(PLAIN, 31);
    assert Picked(line[..1], 1, 2, true) == [] && StyleAfter(PLAIN, line[..1]) == Coloured(31) && Width(line[..1]) == 0;
    PickedNext(line, 1, 1, 2, true);
    assert Picked(line[..2], 1, 2, true) == [] && StyleAfter(PLAIN, line[..2]) == Coloured(31) && Width(line[..2]) == 1;
    PickedNext(line, 2, 1, 2, true);
    Colour(Coloured(31), 32);
    assert Picked(line[..3], 1, 2, true) == [] && StyleAfter(PLAIN, line[..3]) == Coloured(32) && Width(line[..3]) == 1;
    PickedNext(line, 3, 1, 2, true);
    assert line[..4] == line;
  }

  lemma NothingPickedYet(line: Line)
    ensures Picked(line[..0], 1, 2, true) == [] && StyleAfter(PLAIN, line[..0]) == PLAIN
  {
    assert line[..0] == [];
  }

  method SliceWithWidth(line: Line, startCol: int, length: int, strict: bool) returns (text: Line, width: nat)
    ensures text == SliceText(line, startCol, length, strict) && width == Width(text)
    ensures Bare(Columns(PLAIN, 0, text)) == Bare(Picked(line, startCol, startCol + length, strict))
    ensures var lo, hi := startCol, startCol + length; var picked := Picked(line, lo, hi, strict);
            Columns(PLAIN, FirstColumn(picked), text) == picked <==>
              picked == [] || SliceStyle(line, lo, hi, strict) == LineStyle(line, lo, hi, strict)
    ensures startCol <= 0 ==> Columns(PLAIN, 0, text) == Picked(line, startCol, startCol + length, strict)
    ensures startCol <= 0 ==> StyleAfter(PLAIN, text) == EndStyle(line, startCol + length)
  {
    hide Picked, Columns, Width, StyleAfter, Bare, CutColumns, SliceStyle, LineStyle, LeftCodes, EdgeCodes, EndStyle;
    text, width := [], 0;
    NoColumns(PLAIN, 0);
    SliceGlyphs(line, startCol, length, strict);
    SliceStylesIff(line, startCol, length, strict);
    if startCol <= 0 {
      NoLeftCodes(line, startCol);
      OneSidedSlice(line, startCol, length, strict);
    }
    if length <= 0 {
      if startCol <= 0 { NoEndStyle(line, startCol + length); }
      return;
    }
    if startCol <= 0 {
      assert line[..|line|] == line;
      SliceEnds(line, startCol, startCol + length, strict, |line|);
    }
    var endCol := startCol + length;
    var currentCol := 0;
    var i := 0;
    var pendingAnsi: Line := [];
    CutStarts(line, startCol, endCol, strict);
    while i < |line|
      invariant 0 <= i <= |line|
      invariant currentCol == Width(line[..i]) && width == Width(text)
      invariant OnlyEscapes(pendingAnsi)
      invariant Cut(text, pendingAnsi) == CutColumns(line[..i], startCol, endCol, strict)
    {
      var item := line[i];
      WalkNext(line, i);
      CodesNext(line, i, startCol, endCol, strict);
      if item.Escape? {
        WidthsAdd(text, [], item);
        if startCol <= currentCol < endCol {
          text := text + [item];
        } else if currentCol < startCol {
          pendingAnsi := pendingAnsi + [item];
        }
        i := i + 1;
        continue;
      }
      var inRange := startCol <= currentCol < endCol;
      var fits := !strict || currentCol + item.width <= endCol;
      if inRange && fits {
        WidthsAdd(text, pendingAnsi, item);
        text := text + pendingAnsi;
        pendingAnsi := [];
        text := text + [item];
        width := width + item.width;
      }
      currentCol := currentCol + item.width;
      i := i + 1;
      if currentCol >= endCol {
        break;
      }
    }
    CutDone(line, i, startCol, endCol, strict);
  }

  /** A slice from the line's start ends in the style that is on at its end. */
  lemma {:induction false} SliceEnds(line: Line, lo: int, hi: int, strict: bool, i: nat)
    requires i <= |line| && lo <= 0
    ensures var cut := CutColumns(line[..i], lo, hi, strict);
            cut.pending == [] && StyleAfter(PLAIN, cut.text) == EndStyle(line[..i], hi)
  {
    hide CutColumns, CutNext, Width, StyleAfter, EndStyle, ItemStyle;
    if i == 0 {
      CutStarts(line, lo, hi, strict);
      NothingEnds(line, hi);
    } else {
      SliceEnds(line, lo, hi, strict, i - 1);
      CutGrows(line, i - 1, lo, hi, strict);
      EndStyleNext(line, i - 1, hi);
      WalkNext(line, i - 1);
      EndsNext(CutColumns(line[..i - 1], lo, hi, strict), line[i - 1], Width(line[..i - 1]), lo, hi, strict);
    }
  }

  lemma CutGrows(line: Line, i: nat, lo: int, hi: int, strict: bool)
    requires i < |line|
    ensures CutColumns(line[..i + 1], lo, hi, strict) == CutNext(CutColumns(line[..i], lo, hi, strict), line[i],
                                                                 Width(line[..i]), lo, hi, strict)
  {
    hide Width;
    assert line[..i + 1][..i] == line[..i];
  }

  /** One more item: a code in the range changes the style at the end, a glyph does not. */
  lemma EndsNext(cut: Cut, item: Item, col: nat, lo: int, hi: int, strict: bool)
    requires lo <= 0 && cut.pending == []
    ensures var next := CutNext(cut, item, col, lo, hi, strict);
            && next.pending == []
            && StyleAfter(PLAIN, next.text) ==
                  if item.Escape? && col < hi then ItemStyle(StyleAfter(PLAIN, cut.text), item)
                  else StyleAfter(PLAIN, cut.text)
    ensures item.Glyph? ==> forall s :: ItemStyle(s, item) == s
  {
    hide StyleAfter, Width, Process;
    SingleItem(StyleAfter(PLAIN, cut.text), item);
    Concat(PLAIN, cut.text, [item]);
    assert cut.text + [] == cut.text;
  }

  lemma {:induction false} NoEndStyle(line: Line, hi: int)
    requires hi <= 0
    ensures EndStyle(line, hi) == PLAIN
  {
    if line != [] { NoEndStyle(line[..|line| - 1], hi); }
  }

  lemma NothingEnds(line: Line, hi: int)
    ensures EndStyle(line[..0], hi) == PLAIN && StyleAfter(PLAIN, []) == PLAIN
  {
  }

  lemma CutStarts(line: Line, lo: int, hi: int, strict: bool)
    ensures Width(line[..0]) == 0 && CutColumns(line[..0], lo, hi, strict) == Cut([], [])
  {
    assert line[..0] == [];
  }

  lemma WidthsAdd(text: Line, pending: Line, item: Item)
    requires OnlyEscapes(pending)
    ensures Width(text + pending + [item]) == Width(text) + ItemWidth(item)
    ensures pending == [] ==> Width(text + [item]) == Width(text) + ItemWidth(item)
  {
    hide Width;
    ColumnsOfEscapes(PLAIN, 0, pending);
    Concat(PLAIN, text, pending);
    Concat(PLAIN, text + pending, [item]);
    Concat(PLAIN, text, [item]);
    SingleItem(PLAIN, item);
  }

  /** Past the range nothing is added. */
  lemma {:induction false} CutDone(line: Line, i: nat, lo: int, hi: int, strict: bool)
    requires i <= |line| && lo < hi && (i == |line| || Width(line[..i]) >= hi)
    ensures CutColumns(line, lo, hi, strict) == CutColumns(line[..i], lo, hi, strict)
    decreases |line| - i
  {
    hide CutColumns, Width;
    if i == |line| {
      assert line[..i] == line;
    } else {
      CodesNext(line, i, lo, hi, strict);
      WalkNext(line, i);
      CutDone(line, i + 1, lo, hi, strict);
    }
  }

  /** A part that shows what a range picks and the slice of that range have the same
      glyphs and the same width. */
  lemma PartIsSlice(line: Line, part: Line, lo: int, hi: int, strict: bool)
    requires var picked := Picked(line, lo, hi, strict); Columns(PLAIN, FirstColumn(picked), part) == picked
    ensures var slice := SliceText(line, lo, hi - lo, strict);
            Bare(Columns(PLAIN, 0, part)) == Bare(Columns(PLAIN, 0, slice)) && Width(part) == Width(slice)
  {
    hide Picked, Bare, Columns, Width, CutColumns;
    SliceGlyphs(line, lo, hi - lo, strict);
    GlyphsOfLine(PLAIN, FirstColumn(Picked(line, lo, hi, strict)), PLAIN, 0, part);
    GlyphsOfLine(PLAIN, 0, PLAIN, 0, SliceText(line, lo, hi - lo, strict));
  }

  /** The single pass against two column slices of the same line: the same glyphs and
      the same widths left and right, and on the left the same style for each glyph. */
  method OnePassIsSlices(line: Line, beforeEnd: nat, afterStart: nat, afterLen: int, strict: bool,
                         pooledStyleTracker: AnsiCodeTracker)
    returns (before: Line, after: Line, left: Line, right: Line)
    modifies pooledStyleTracker
    ensures var stop := BeforeStop(beforeEnd, afterStart, afterLen);
            left == SliceText(line, 0, stop, false) && Columns(PLAIN, 0, before) == Columns(PLAIN, 0, left)
    ensures var start := Max(beforeEnd, afterStart);
            && right == SliceText(line, start, afterStart + afterLen - start, strict)
            && Bare(Columns(PLAIN, 0, after)) == Bare(Columns(PLAIN, 0, right))
    ensures Width(before) == Width(left) && Width(after) == Width(right)
  {
    hide Picked, Bare, Columns, Width, CutColumns, StyleAfter, EndStyle, LastStyle, SliceText;
    hide LeftCodes, EdgeCodes, SliceStyle, LineStyle, AnsiCodeTracker.View;
    var beforeWidth, afterWidth, leftWidth, rightWidth;
    before, beforeWidth, after, afterWidth := ExtractSegments(line, beforeEnd, afterStart, afterLen, strict,
                                                              pooledStyleTracker);
    var stop, start := BeforeStop(beforeEnd, afterStart, afterLen), Max(beforeEnd, afterStart);
    left, leftWidth := SliceWithWidth(line, 0, stop, false);
    right, rightWidth := SliceWithWidth(line, start, afterStart + afterLen - start, strict);
    GlyphsOfLine(PLAIN, 0, PLAIN, 0, before);
    GlyphsOfLine(PLAIN, 0, PLAIN, 0, left);
    PartIsSlice(line, after, start, afterStart + afterLen, strict);
  }
}
