/** Laying an overlay over a line: never too wide, and the rest of the line stays put. */
module Overlay {
  import opened Basics
  import opened Ansi
  import opened Wrap
  import opened Segments
  import opened Slices

  const BLANK := Glyph(0, 1, true)

  const SEGMENT_RESET: Line := [Escape(Sgr([Plain(0)])), Escape(Hyperlink(""))]

  function Repeat(n: nat): (line: Line)
    ensures |line| == n && forall i :: 0 <= i < n ==> line[i] == BLANK
  {
    seq(n, _ => BLANK)
  }

  /** No glyph of the line lies across the left edge of the column. */
  ghost predicate NoStraddle(line: Line, col: int) {
    forall p :: p in Columns(PLAIN, 0, line) ==> p.col + p.width <= col || col <= p.col
  }

  function Shift(ps: seq<Placed>, d: int): (r: seq<Placed>)
    ensures |r| == |ps| && forall i :: 0 <= i < |ps| ==> r[i] == ps[i].(col := ps[i].col + d)
  {
    seq(|ps|, i requires 0 <= i < |ps| => ps[i].(col := ps[i].col + d))
  }

  lemma {:induction false} ColumnsShift(s: Style, col: int, d: int, line: Line)
    ensures Columns(s, col + d, line) == Shift(Columns(s, col, line), d)
  {
    if line != [] { ColumnsShift(s, col, d, line[..|line| - 1]); }
  }

  /** The last glyph ends where the line ends. */
  lemma {:induction false} LastEnds(s: Style, col: int, line: Line)
    ensures var ps := Columns(s, col, line);
            if ps == [] then Width(line) == 0 else ps[|ps| - 1].col + ps[|ps| - 1].width == col + Width(line)
  {
    if line != [] { LastEnds(s, col, line[..|line| - 1]); }
  }

  /** A strict range from column 0 bounds the width of what shows it. */
  lemma PickedBounds(text: Line, line: Line, hi: int)
    requires hi >= 0 && Columns(PLAIN, 0, text) == Picked(line, 0, hi, true)
    ensures Width(text) <= hi
  {
    hide Width, Columns;
    LastEnds(PLAIN, 0, text);
    var ps := Columns(PLAIN, 0, text);
    assert ps == [] || ps[|ps| - 1] in Picked(line, 0, hi, true);
  }

  lemma BeforeBounds(before: Line, line: Line, hi: int)
    requires hi >= 0 && Columns(PLAIN, 0, before) == Picked(line, 0, hi, false) && NoStraddle(line, hi)
    ensures Width(before) <= hi
  {
    hide Width, Columns;
    LastEnds(PLAIN, 0, before);
    var ps := Columns(PLAIN, 0, before);
    assert ps == [] || ps[|ps| - 1] in Picked(line, 0, hi, false);
  }

  lemma PlacedAt(line: Line, i: nat)
    requires i < |line| && line[i].Glyph?
    ensures Placed(Width(line[..i]), line[i].id, line[i].width, line[i].isSpace, StyleAfter(PLAIN, line[..i]))
            in Columns(PLAIN, 0, line)
  {
    hide Width, StyleAfter;
    assert line == line[..i + 1] + line[i + 1..];
    ColumnsConcat(PLAIN, 0, line[..i + 1], line[i + 1..]);
    assert line[..i + 1][..i] == line[..i];
  }

  /** With no glyph across its left edge, a range starts there or is empty. */
  lemma {:induction false} PickedStarts(line: Line, i: nat, lo: int, hi: int)
    requires i <= |line| && 0 <= lo && NoStraddle(line, lo)
    ensures var ps := Picked(line[..i], lo, hi, true);
            if ps != [] then ps[0].col == lo else Width(line[..i]) <= lo || hi <= Width(line[..i])
  {
    hide Picked, Columns, Width, StyleAfter;
    if i == 0 {
      StatesAtStart(line, 0, lo, hi, true);
    } else {
      PickedStarts(line, i - 1, lo, hi);
      PickedNext(line, i - 1, lo, hi, true);
      if line[i - 1].Glyph? { PlacedAt(line, i - 1); }
    }
  }

  lemma AfterBounds(after: Line, line: Line, lo: int, hi: int)
    requires 0 <= lo <= hi && NoStraddle(line, lo)
    requires var ps := Picked(line, lo, hi, true); Columns(PLAIN, FirstColumn(ps), after) == ps
    ensures Columns(PLAIN, lo, after) == Picked(line, lo, hi, true) && lo + Width(after) <= hi
  {
    hide Width, Columns;
    var ps := Picked(line, lo, hi, true);
    assert line[..|line|] == line;
    PickedStarts(line, |line|, lo, hi);
    LastEnds(PLAIN, FirstColumn(ps), after);
    if ps == [] {
      ColumnsShift(PLAIN, 0, lo, after);
    } else {
      assert ps[|ps| - 1] in ps;
    }
  }

  /** Blanks in one style from column `from` up to column `to`. */
  function Fill(s: Style, from: int, to: int): seq<Placed> {
    seq(Max(0, to - from), i => Placed(from + i, BLANK.id, 1, true, s))
  }

  /** Where these glyphs end, if they start in column `col`. */
  function Ends(ps: seq<Placed>, col: int): int { if ps == [] then col else ps[|ps| - 1].col + ps[|ps| - 1].width }

  lemma {:induction false} BlankColumns(s: Style, col: int, n: nat)
    ensures Columns(s, col, Repeat(n)) == Fill(s, col, col + n) && Width(Repeat(n)) == n
            && StyleAfter(s, Repeat(n)) == s
  {
    if n > 0 {
      BlankColumns(s, col, n - 1);
      assert Repeat(n)[..n - 1] == Repeat(n - 1);
      assert Fill(s, col, col + n) == Fill(s, col, col + n - 1) + [Placed(col + n - 1, BLANK.id, 1, true, s)];
    }
  }

  lemma ResetColumns(s: Style, col: int)
    ensures Columns(s, col, SEGMENT_RESET) == [] && Width(SEGMENT_RESET) == 0 && StyleAfter(s, SEGMENT_RESET) == PLAIN
  {
    ColumnsOfEscapes(s, col, SEGMENT_RESET);
    assert SEGMENT_RESET[..1] == [Escape(Sgr([Plain(0)]))] && SEGMENT_RESET[..1][..0] == [];
  }

  /** Text, padding and resets in a row. */
  function Assemble(before: Line, beforePad: nat, overlay: Line, overlayPad: nat, after: Line, afterPad: nat): Line {
    (before + Repeat(beforePad) + SEGMENT_RESET) + (overlay + Repeat(overlayPad) + SEGMENT_RESET) + (after + Repeat(afterPad))
  }

  /** One stretch: text from `col` in the plain style, padding and a reset. */
  lemma StretchColumns(col: int, text: Line, pad: nat)
    ensures var stretch := text + Repeat(pad) + SEGMENT_RESET; var end := col + Width(text);
            && Width(stretch) == Width(text) + pad && StyleAfter(PLAIN, stretch) == PLAIN
            && Columns(PLAIN, col, stretch) == Columns(PLAIN, col, text) + Fill(StyleAfter(PLAIN, text), end, end + pad)
  {
    hide Columns, Width, StyleAfter, SEGMENT_RESET, Fill;
    LastStretch(col, text, pad);
    ResetColumns(StyleAfter(PLAIN, text + Repeat(pad)), col + Width(text) + pad);
    ColumnsConcat(PLAIN, col, text + Repeat(pad), SEGMENT_RESET);
    Concat(PLAIN, text + Repeat(pad), SEGMENT_RESET);
  }

  /** Three parts in a row, the second from column `a` and the third from `b`, with blanks
      in the given styles up to the next part and to the end. */
  function Padded(before: seq<Placed>, s: Style, a: int, overlay: seq<Placed>, t: Style, b: int, after: seq<Placed>,
                  u: Style, end: int): seq<Placed> {
    (before + Fill(s, Ends(before, 0), a)) + (overlay + Fill(t, Ends(overlay, a), b)) + (after + Fill(u, Ends(after, b), end))
  }

  lemma AssembleColumns(before: Line, beforePad: nat, overlay: Line, overlayPad: nat, after: Line, afterPad: nat)
    ensures var line := Assemble(before, beforePad, overlay, overlayPad, after, afterPad);
            var a := Width(before) + beforePad; var b := a + Width(overlay) + overlayPad;
            var end := b + Width(after) + afterPad;
            && Width(line) == end
            && Columns(PLAIN, 0, line) == Padded(Columns(PLAIN, 0, before), StyleAfter(PLAIN, before), a,
                                                 Columns(PLAIN, a, overlay), StyleAfter(PLAIN, overlay), b,
                                                 Columns(PLAIN, b, after), StyleAfter(PLAIN, after), end)
  {
    hide Columns, Width, StyleAfter, SEGMENT_RESET, Fill, Ends, Repeat;
    var a := Width(before) + beforePad;
    var b := a + Width(overlay) + overlayPad;
    var first, second := before + Repeat(beforePad) + SEGMENT_RESET, overlay + Repeat(overlayPad) + SEGMENT_RESET;
    var third := after + Repeat(afterPad);
    StretchColumns(0, before, beforePad);
    StretchColumns(a, overlay, overlayPad);
    LastStretch(b, after, afterPad);
    EndsAt(0, before);
    EndsAt(a, overlay);
    EndsAt(b, after);
    JoinThree(first, second, third);
  }

  lemma EndsAt(col: int, text: Line)
    ensures Ends(Columns(PLAIN, col, text), col) == col + Width(text)
  {
    hide Columns, Width;
    LastEnds(PLAIN, col, text);
  }

  lemma LastStretch(col: int, text: Line, pad: nat)
    ensures var end := col + Width(text);
            && Width(text + Repeat(pad)) == Width(text) + pad
            && Columns(PLAIN, col, text + Repeat(pad))
               == Columns(PLAIN, col, text) + Fill(StyleAfter(PLAIN, text), end, end + pad)
  {
    hide Columns, Width, StyleAfter, Fill;
    BlankColumns(StyleAfter(PLAIN, text), col + Width(text), pad);
    ColumnsConcat(PLAIN, col, text, Repeat(pad));
    Concat(PLAIN, text, Repeat(pad));
  }

  lemma JoinThree(first: Line, second: Line, third: Line)
    requires StyleAfter(PLAIN, first) == PLAIN && StyleAfter(PLAIN, second) == PLAIN
    ensures var line := first + second + third; var a := Width(first); var b := a + Width(second);
            && Width(line) == b + Width(third)
            && Columns(PLAIN, 0, line) == Columns(PLAIN, 0, first) + Columns(PLAIN, a, second) + Columns(PLAIN, b, third)
  {
    hide Columns, Width, StyleAfter;
    ColumnsConcat(PLAIN, 0, first, second);
    Concat(PLAIN, first, second);
    ColumnsConcat(PLAIN, 0, first + second, third);
    Concat(PLAIN, first + second, third);
  }

  /** What the overlay leaves of the line, glyph for glyph: the base line's glyphs left of
      it, the overlay's own, the base line's glyphs right of it; and blanks in between, in
      the style of the last glyph before the overlay, the one in which the overlay's part
      ends, and the one in which the base line reaches the edge, if it shows anything there. */
  function Composite(baseLine: Line, overlayLine: Line, startCol: nat, overlayWidth: nat,
                     totalWidth: nat): seq<Placed> {
    var afterStart := startCol + overlayWidth;
    var left := Picked(baseLine, 0, startCol, false);
    var right := Picked(baseLine, afterStart, totalWidth, true);
    Padded(left, LastStyle(left), startCol,
           Shift(Picked(overlayLine, 0, overlayWidth, true), startCol), EndStyle(overlayLine, overlayWidth), afterStart,
           right, if right == [] then PLAIN else EndStyle(baseLine, totalWidth), totalWidth)
  }

  /** The overlay replaces columns `startCol` to `startCol + overlayWidth`. */
  method CompositeLineAt(baseLine: Line, overlayLine: Line, startCol: nat, overlayWidth: nat, totalWidth: nat,
                         tracker: AnsiCodeTracker)
    returns (result: Line)
    modifies tracker
    ensures Width(result) <= totalWidth
    ensures var afterStart := startCol + overlayWidth;
            afterStart <= totalWidth && NoStraddle(baseLine, startCol) && NoStraddle(baseLine, afterStart) ==>
              Width(result) == totalWidth
              && Columns(PLAIN, 0, result) == Composite(baseLine, overlayLine, startCol, overlayWidth, totalWidth)
  {
    hide Columns, Width, StyleAfter, Picked, NoStraddle, Assemble, Bare, AnsiCodeTracker.View;
    hide Fill, Ends, EndStyle, LastStyle, Shift, SliceText, LeftCodes, EdgeCodes, SliceStyle, LineStyle;
    var afterStart := startCol + overlayWidth;
    var before, beforeWidth, after, afterWidth := ExtractSegments(baseLine, startCol, afterStart,
                                                                  totalWidth - afterStart, true, tracker);
    var overlay, width := SliceWithWidth(overlayLine, 0, overlayWidth, true);
    var beforePad := Max(0, startCol - beforeWidth);
    var overlayPad := Max(0, overlayWidth - width);
    var actualBeforeWidth := Max(startCol, beforeWidth);
    var actualOverlayWidth := Max(overlayWidth, width);
    var afterTarget := Max(0, totalWidth - actualBeforeWidth - actualOverlayWidth);
    var afterPad := Max(0, afterTarget - afterWidth);
    PickedBounds(overlay, overlayLine, overlayWidth);
    AssembleColumns(before, beforePad, overlay, overlayPad, after, afterPad);
    result := Assemble(before, beforePad, overlay, overlayPad, after, afterPad);
    if afterStart <= totalWidth && NoStraddle(baseLine, startCol) && NoStraddle(baseLine, afterStart) {
      BeforeBounds(before, baseLine, startCol);
      AfterBounds(after, baseLine, afterStart, totalWidth);
      ColumnsShift(PLAIN, 0, startCol, overlay);
    }
    var resultWidth := Width(result);
    if resultWidth <= totalWidth {
      return;
    }
    var whole := result;
    result, width := SliceWithWidth(whole, 0, totalWidth, true);
    PickedBounds(result, whole, totalWidth);
  }
}
