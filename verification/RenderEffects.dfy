/** What each buffer of the renderer does to the terminal. */
module RenderEffects {
  import opened Basics
  import opened Terminal
  import opened RenderPlan

  /** Line `i` on row `i`, and blank rows below. */
  function Image(lines: seq<Line>, total: nat): (rows: seq<Row>)
    ensures |rows| == total
    ensures forall i :: 0 <= i < total ==> rows[i] == if i < |lines| then Shown(lines[i]) else Blank
  {
    seq(total, i requires 0 <= i => if i < |lines| then Shown(lines[i]) else Blank)
  }

  /** Lines `first..n` on their rows, the other rows as they were. */
  function Painted(rows: seq<Row>, lines: seq<Line>, first: nat, n: nat): (r: seq<Row>)
    requires first <= n <= |lines| && first <= |rows|
    ensures |r| == Max(|rows|, n)
    ensures forall i :: 0 <= i < |r| ==> r[i] == if first <= i < n then Shown(lines[i]) else rows[i]
  {
    rows[..first] + seq(n - first, i requires 0 <= i < n - first => Shown(lines[first + i]))
    + (if n < |rows| then rows[n..] else [])
  }

  predicate Fits(lines: seq<Line>, columns: nat) {
    forall i :: 0 <= i < |lines| ==> lines[i].width <= columns
  }

  lemma RunCrlf(s: Screen, a: seq<Command>)
    requires s.Valid()
    ensures Run(s, a + CRLF) == Apply(Apply(Run(s, a), CarriageReturn), LineFeed)
  {
    assert a + CRLF == (a + [CarriageReturn]) + [LineFeed];
    RunSnoc(s, a + [CarriageReturn], LineFeed);
    RunSnoc(s, a, CarriageReturn);
  }

  /** A relative move goes where it should, cut short by the screen's edges. */
  lemma MoveEffect(s: Screen, d: int)
    requires s.Valid()
    ensures var r := Run(s, Move(d));
            r == s.(row := Max(s.Top(), Min(|s.rows| - 1, s.row + d)),
                    exact := s.exact && s.Top() <= s.row + d < |s.rows|)
  {
    if d != 0 {
      RunSnoc(s, [], Move(d)[0]);
      assert [] + [Move(d)[0]] == Move(d);
    }
  }

  /** A move inside the screen, then a carriage return. */
  lemma MoveHomeEffect(s: Screen, row: int)
    requires s.Valid() && s.Top() <= row < |s.rows|
    ensures Run(s, Move(row - s.row) + [CarriageReturn]) == s.(row := row, col := 0)
  {
    MoveEffect(s, row - s.row);
    RunSnoc(s, Move(row - s.row), CarriageReturn);
  }

  /** A move inside the screen, then a new line. */
  lemma MoveNewLineEffect(s: Screen, row: int)
    requires s.Valid() && s.Top() <= row < |s.rows|
    ensures Run(s, Move(row - s.row) + CRLF)
            == s.(row := row + 1, col := 0, rows := if row + 1 == |s.rows| then s.rows + [Blank] else s.rows)
  {
    hide Run, Move;
    MoveEffect(s, row - s.row);
    RunCrlf(s, Move(row - s.row));
  }

  lemma ClearEffect(s: Screen)
    requires s.Valid()
    ensures Run(s, ClearAll()) == s.(rows := Blanks(s.height), row := 0, col := 0)
  {
    hide Run;
    RunSnoc(s, [EraseScreen, CursorHome], EraseScrollback);
    RunSnoc(s, [EraseScreen], CursorHome);
    RunSnoc(s, [], EraseScreen);
    RunEmpty(s);
    assert [EraseScreen, CursorHome] + [EraseScrollback] == ClearAll();
    assert [EraseScreen] + [CursorHome] == [EraseScreen, CursorHome];
    assert [] + [EraseScreen] == [EraseScreen];
    assert (s.rows[..s.Top()] + Blanks(s.height))[s.Top()..] == Blanks(s.height);
  }

  /** The first `n` rows after printing `n` lines: each line where it fits. */
  function Printed(lines: seq<Line>, columns: nat, n: nat, total: nat): (rows: seq<Row>)
    requires n <= |lines|
    ensures |rows| == total
    ensures forall i :: 0 <= i < total ==>
      rows[i] == if i < n then (if lines[i].width <= columns then Shown(lines[i]) else Garbled) else Blank
  {
    seq(total, i requires 0 <= i => if i < n then (if lines[i].width <= columns then Shown(lines[i]) else Garbled) else Blank)
  }

  /** One more line below the `n` printed so far. */
  lemma PrintNext(s: Screen, lines: seq<Line>, n: nat)
    requires s.Valid() && n < |lines| && s.rows == Printed(lines, s.columns, n, Max(s.height, n))
    requires s.row == Max(0, n - 1) && (n == 0 ==> s.col == 0)
    ensures var at := if n > 0 then Apply(Apply(s, CarriageReturn), LineFeed) else s;
            var r := Apply(at, Print(lines[n]));
            r.rows == Printed(lines, s.columns, n + 1, Max(s.height, n + 1)) && r.row == n && r.exact == s.exact
  {
    var at := if n > 0 then Apply(Apply(s, CarriageReturn), LineFeed) else s;
    assert at.rows == Printed(lines, s.columns, n, Max(s.height, n + 1));
    assert at.rows[n] == Blank;
  }

  lemma {:induction false} PrintAllEffect(s: Screen, lines: seq<Line>, n: nat)
    requires s.Valid() && s.row == 0 && s.col == 0 && s.rows == Blanks(s.height) && n <= |lines|
    ensures var r := Run(s, PrintAll(lines, n));
            && r.rows == Printed(lines, s.columns, n, Max(s.height, n))
            && r.row == Max(0, n - 1) && r.exact == s.exact && (n == 0 ==> r.col == 0)
  {
    if n > 0 {
      PrintAllEffect(s, lines, n - 1);
      PrintNext(Run(s, PrintAll(lines, n - 1)), lines, n - 1);
      var before := PrintAll(lines, n - 1) + (if n > 1 then CRLF else []);
      if n > 1 { RunCrlf(s, PrintAll(lines, n - 1)); } else { assert before == PrintAll(lines, 0); }
      RunSnoc(s, before, Print(lines[n - 1]));
    }
  }

  /** Erases and reprints the cursor's row. */
  lemma RepaintRow(s: Screen, line: Line)
    requires s.Valid() && s.col == 0 && line.width <= s.columns
    ensures Apply(Apply(s, EraseLine), Print(line)) == s.(rows := s.rows[s.row := Shown(line)], col := line.width)
  {
    assert s.rows[s.row := Blank][s.row := Shown(line)] == s.rows[s.row := Shown(line)];
  }

  lemma PaintedNext(rows: seq<Row>, lines: seq<Line>, first: nat, n: nat, at: seq<Row>)
    requires first <= n < |lines| && first < |rows|
    requires var painted := Painted(rows, lines, first, n);
             at == if n < |painted| then painted else painted + [Blank]
    ensures n < |at| && at[n := Shown(lines[n])] == Painted(rows, lines, first, n + 1)
  {
  }

  lemma RepaintNext(s: Screen, rows: seq<Row>, lines: seq<Line>, first: nat, n: nat)
    requires s.Valid() && first <= n < |lines| && first < |rows| && s.rows == Painted(rows, lines, first, n)
    requires if n == first then s.row == first && s.col == 0 else s.row == n - 1
    requires lines[n].width <= s.columns
    ensures var at := if n > first then Apply(Apply(s, CarriageReturn), LineFeed) else s;
            var r := Apply(Apply(at, EraseLine), Print(lines[n]));
            r.rows == Painted(rows, lines, first, n + 1) && r.row == n && r.exact == s.exact
  {
    hide Painted;
    var at := if n > first then Apply(Apply(s, CarriageReturn), LineFeed) else s;
    assert at.row == n && at.col == 0 && at.exact == s.exact && at.columns == s.columns;
    PaintedNext(rows, lines, first, n, at.rows);
    RepaintRow(at, lines[n]);
  }

  lemma {:induction false} RepaintEffect(s: Screen, lines: seq<Line>, first: nat, n: nat)
    requires s.Valid() && s.row == first && s.col == 0 && first < n <= |lines|
    requires forall i :: first <= i < n ==> lines[i].width <= s.columns
    ensures var r := Run(s, Repaint(lines, first, n));
            r.rows == Painted(s.rows, lines, first, n) && r.row == n - 1 && r.exact == s.exact
  {
    hide Run, Painted;
    var before := Repaint(lines, first, n - 1) + (if n > first + 1 then CRLF else []);
    if n > first + 1 {
      RepaintEffect(s, lines, first, n - 1);
      RunCrlf(s, Repaint(lines, first, n - 1));
    } else {
      RunEmpty(s);
      assert before == Repaint(lines, first, first) && Painted(s.rows, lines, first, first) == s.rows;
    }
    RepaintNext(Run(s, Repaint(lines, first, n - 1)), s.rows, lines, first, n - 1);
    RunSnoc(s, before + [EraseLine], Print(lines[n - 1]));
    RunSnoc(s, before, EraseLine);
  }

  /** The deletion loop blanks the rows below the cursor; where it would leave the
      screen it blanks the last row instead. */
  function Wiped(rows: seq<Row>, row: nat, n: nat): (r: seq<Row>)
    ensures |r| == |rows|
    ensures forall k :: 0 <= k < |rows| ==>
      r[k] == if row < k <= row + n || (n > 0 && k == |rows| - 1 <= row + n) then Blank else rows[k]
  {
    seq(|rows|, k requires 0 <= k < |rows| =>
        if row < k <= row + n || (n > 0 && k == |rows| - 1 <= row + n) then Blank
        else rows[k])
  }

  /** One round of the deletion loop. */
  lemma WipeNext(s: Screen, rows: seq<Row>, row: nat, n: nat)
    requires s.Valid() && row < |rows| && s.rows == Wiped(rows, row, n) && s.row == Min(|rows| - 1, row + n + 1)
    ensures var r := Apply(Apply(s, CarriageReturn), EraseLine);
            r.rows == Wiped(rows, row, n + 1) && r.col == 0 && r.row == s.row && r.exact == s.exact
  {
    var r := Apply(Apply(s, CarriageReturn), EraseLine);
    assert r.rows == s.rows[s.row := Blank];
  }

  lemma {:induction false} WipeEffect(s: Screen, extra: nat, n: nat)
    requires s.Valid() && n <= extra && 0 < extra
    ensures var r := Run(s, [CursorDown(1)] + WipeRows(extra, n));
            && r.rows == Wiped(s.rows, s.row, n) && (n > 0 ==> r.col == 0)
            && r.row == Min(|s.rows| - 1, s.row + n + if n < extra then 1 else 0)
            && (s.row + extra < |s.rows| ==> r.exact == s.exact)
  {
    hide Run, Wiped;
    if n == 0 {
      RunSnoc(s, [], CursorDown(1));
      RunEmpty(s);
      assert [] + [CursorDown(1)] == [CursorDown(1)] + WipeRows(extra, 0);
      assert Wiped(s.rows, s.row, 0) == s.rows;
    } else {
      WipeEffect(s, extra, n - 1);
      var before := [CursorDown(1)] + WipeRows(extra, n - 1);
      WipeNext(Run(s, before), s.rows, s.row, n - 1);
      RunSnoc(s, before + [CarriageReturn], EraseLine);
      RunSnoc(s, before, CarriageReturn);
      var wiped := before + [CarriageReturn] + [EraseLine];
      if n < extra {
        RunSnoc(s, wiped, CursorDown(1));
        assert [CursorDown(1)] + WipeRows(extra, n) == wiped + [CursorDown(1)];
      } else {
        assert [CursorDown(1)] + WipeRows(extra, n) == wiped;
      }
    }
  }

  /** The whole deletion loop, and the move back up. */
  lemma WipeUpEffect(s: Screen, extra: nat)
    requires s.Valid() && 0 < extra
    ensures var r := Run(s, [CursorDown(1)] + WipeRows(extra, extra) + [CursorUp(extra)]);
            && r.rows == Wiped(s.rows, s.row, extra) && r.col == 0
            && r.row == Max(s.Top(), Min(|s.rows| - 1, s.row + extra) - extra)
            && (s.row + extra < |s.rows| ==> r.exact == s.exact)
  {
    WipeEffect(s, extra, extra);
    RunSnoc(s, [CursorDown(1)] + WipeRows(extra, extra), CursorUp(extra));
  }

  lemma {:induction false} EraseBelowEffect(s: Screen, n: nat)
    requires s.Valid() && s.row + n < |s.rows|
    ensures var r := Run(s, EraseBelow(n));
            && |r.rows| == |s.rows| && r.row == s.row + n && r.exact == s.exact
            && (forall k :: 0 <= k < |s.rows| ==> r.rows[k] == if s.row < k <= s.row + n then Blank else s.rows[k])
  {
    hide Run;
    RunEmpty(s);
    if n > 0 {
      EraseBelowEffect(s, n - 1);
      RunCrlf(s, EraseBelow(n - 1));
      RunSnoc(s, EraseBelow(n - 1) + CRLF, EraseLine);
      assert EraseBelow(n) == EraseBelow(n - 1) + CRLF + [EraseLine];
    }
  }
}
