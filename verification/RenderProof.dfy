/** The simulation: the renderer's shadow and the terminal stay in agreement, and
    exactly when they do. */
module RenderProof {
  import opened Basics
  import opened Terminal
  import opened RenderPlan
  import opened RenderEffects

  /** The terminal, scrollback included, holds exactly the remembered lines with
      blank rows below them, scrolled `top` times, and the cursor is where the
      renderer believes it is. */
  predicate Agrees(sh: Shadow, s: Screen) {
    && s.Valid()
    && 0 <= sh.top && |s.rows| == sh.top + s.height && |sh.lines| <= |s.rows|
    && s.rows == Image(sh.lines, |s.rows|)
    && s.row == sh.hardwareRow
    && (if sh.lines == [] then sh.top == 0 && s.row == 0 && s.col == 0 else sh.top < |sh.lines|)
  }

  /** Agreement, unless the terminal was resized or a redraw was forced since the
      last render; then nothing is assumed of it. */
  predicate InStep(sh: Shadow, s: Screen) {
    s.Valid() && (Resized(sh, s.columns, s.height) || Agrees(sh, s))
  }

  predicate MarkerVisible(cursor: Cursor, top: int) {
    cursor.At? ==> top <= cursor.row
  }

  /** The viewport top a diff leaves. */
  function DiffTop(sh: Shadow, lines: seq<Line>, last: nat, height: nat): int {
    Max(sh.top, DiffEnd(sh, lines, Min(last, |lines| - 1)) - height + 1)
  }

  /** When a render keeps renderer and terminal in agreement: a full redraw needs
      every line to fit; a marker must not lie above the window; and an empty frame
      that only deletes rows leaves row 0 behind unless the terminal has one row. */
  predicate Keeps(sh: Shadow, frame: Frame, columns: nat, height: nat) {
    var (lines, cursor) := Extract(frame.lines, height);
    KeepsPath(sh, ChoosePlan(sh, lines, frame.overlays, frame.clearOnShrink, columns, height), lines, cursor, columns, height)
  }

  predicate KeepsPath(sh: Shadow, plan: Plan, lines: seq<Line>, cursor: Cursor, columns: nat, height: nat) {
    match plan
    case FullFresh => Fits(lines, columns)
    case FullClear => Fits(lines, columns)
    case Unchanged => MarkerVisible(cursor, sh.top)
    case Deletion => if lines == [] then height == 1 else MarkerVisible(cursor, sh.top)
    case Diff(first, last) =>
      (forall i :: first <= i <= last && i < |lines| ==> lines[i].width <= columns)
      && MarkerVisible(cursor, DiffTop(sh, lines, last, height))
  }

  // ----- the shared ending -----

  /** Everything but the rows' contents is in place for `lines`. */
  predicate Laid(sh: Shadow, s: Screen, lines: seq<Line>) {
    && s.Valid()
    && 0 <= sh.top && |s.rows| == sh.top + s.height && |lines| <= |s.rows|
    && s.row == sh.hardwareRow
    && (if lines == [] then sh.top == 0 && s.row == 0 && s.col == 0 else sh.top < |lines|)
  }

  lemma PositionEffect(sh: Shadow, s: Screen, cursor: Cursor, lines: seq<Line>)
    requires Laid(sh, s, lines) && (cursor.At? ==> cursor.row < |lines|)
    ensures var (sh1, moves) := Position(sh, cursor, |lines|);
            var r := Run(s, moves);
            && r.rows == s.rows && sh1 == sh.(hardwareRow := sh1.hardwareRow)
            && (r.row == sh1.hardwareRow <==> MarkerVisible(cursor, sh.top))
            && (MarkerVisible(cursor, sh.top) ==> r.exact == s.exact)
            && (lines == [] ==> r == s)
  {
    if cursor.At? {
      MoveEffect(s, cursor.row - sh.hardwareRow);
      RunSnoc(s, Move(cursor.row - sh.hardwareRow), CursorColumn(cursor.col + 1));
    }
  }

  lemma FinishColumn(sh: Shadow, start: Screen, buffer: seq<Command>, cursor: Cursor, lines: seq<Line>, columns: nat,
                     height: nat)
    requires start.Valid() && cursor.At? && cursor.row < |lines|
    ensures var done := Finish(sh, cursor, lines, columns, height, buffer);
            Run(start, done.buffer).col == Min(cursor.col, start.columns - 1) && done.shadow.hardwareRow == cursor.row
  {
    hide Run;
    RunConcat(start, buffer, Position(sh, cursor, |lines|).1);
    PositionColumn(sh, Run(start, buffer), cursor, |lines|);
  }

  lemma FinishEffect(sh: Shadow, s: Screen, start: Screen, buffer: seq<Command>, cursor: Cursor, lines: seq<Line>)
    requires start.Valid() && Run(start, buffer) == s && Laid(sh, s, lines) && (cursor.At? ==> cursor.row < |lines|)
    ensures var done := Finish(sh, cursor, lines, s.columns, s.height, buffer);
            var r := Run(start, done.buffer);
            && !Resized(done.shadow, r.columns, r.height)
            && (Agrees(done.shadow, r) <==> s.rows == Image(lines, |s.rows|) && MarkerVisible(cursor, sh.top))
            && (MarkerVisible(cursor, sh.top) ==> r.exact == s.exact)
            && done.shadow.top == sh.top
  {
    RunConcat(start, buffer, Position(sh, cursor, |lines|).1);
    PositionEffect(sh, s, cursor, lines);
  }

  // ----- the paths -----

  lemma FullEffect(sh: Shadow, s: Screen, clear: bool, lines: seq<Line>)
    requires s.Valid() && (clear || (s.rows == Blanks(s.height) && s.row == 0 && s.col == 0))
    ensures var r := Run(s, (if clear then ClearAll() else []) + PrintAll(lines, |lines|));
            && Laid(FullShadow(sh, clear, lines, s.height), r, lines)
            && (r.rows == Image(lines, |r.rows|) <==> Fits(lines, s.columns))
            && r.exact == s.exact && |r.rows| == Max(s.height, |lines|)
  {
    var start := if clear then ClearAll() else [];
    if clear { ClearEffect(s); }
    RunConcat(s, start, PrintAll(lines, |lines|));
    PrintAllEffect(Run(s, start), lines, |lines|);
    var r := Run(s, start + PrintAll(lines, |lines|));
    if r.rows == Image(lines, |r.rows|) {
      forall i | 0 <= i < |lines| ensures lines[i].width <= s.columns {
        assert r.rows[i] == Image(lines, |r.rows|)[i];
      }
    }
  }

  lemma SameLines(prev: seq<Line>, next: seq<Line>)
    requires Changed(prev, next).0 == -1
    ensures prev == next
  {
    assert !Differ(prev, next, |prev|) && !Differ(prev, next, |next|);
    forall k | 0 <= k < |prev| ensures prev[k] == next[k] { assert !Differ(prev, next, k); }
  }

  /** What the deletion path may rely on. */
  lemma OnlyDeleted(prev: seq<Line>, next: seq<Line>)
    requires Changed(prev, next).0 >= |next|
    ensures |prev| > |next| && prev[..|next|] == next
  {
    var first := Changed(prev, next).0;
    if |prev| < |next| { assert Differ(prev, next, |prev|); }
    forall k | 0 <= k < |next| && k < |prev| ensures prev[k] == next[k] { assert !Differ(prev, next, k); }
  }

  lemma DeletionRows(prev: seq<Line>, lines: seq<Line>, total: nat)
    requires |lines| < |prev| <= total && prev[..|lines|] == lines
    ensures Wiped(Image(prev, total), Max(0, |lines| - 1), |prev| - |lines|) == Image(lines, total)
            <==> lines != [] || total == 1
  {
    var wiped := Wiped(Image(prev, total), Max(0, |lines| - 1), |prev| - |lines|);
    if lines == [] && total > 1 {
      assert wiped[0] == Shown(prev[0]) && Image(lines, total)[0] == Blank;
    } else {
      forall k | 0 <= k < total ensures wiped[k] == Image(lines, total)[k] {
        if k < |lines| { assert prev[k] == prev[..|lines|][k]; }
      }
    }
  }

  lemma DeletionRun(sh: Shadow, s: Screen, lines: seq<Line>)
    requires s.Valid() && |lines| < |sh.lines| && s.row == sh.hardwareRow
    requires s.Top() <= Max(0, |lines| - 1) < |s.rows|
    ensures var target := Max(0, |lines| - 1);
            var extra := |sh.lines| - |lines|;
            var r := Run(s, DeletionBuffer(sh, lines));
            && r.rows == Wiped(s.rows, target, extra) && r.col == 0
            && r.row == Max(s.Top(), Min(|s.rows| - 1, target + extra) - extra)
            && (target + extra < |s.rows| ==> r.exact == s.exact)
  {
    hide Run, Apply, Wiped, WipeRows;
    var target := Max(0, |lines| - 1);
    var extra := |sh.lines| - |lines|;
    var move := Move(target - sh.hardwareRow) + [CarriageReturn];
    MoveHomeEffect(s, target);
    var wipe := [CursorDown(1)] + WipeRows(extra, extra) + [CursorUp(extra)];
    WipeUpEffect(s.(row := target, col := 0), extra);
    RunConcat(s, move, wipe);
    assert move + wipe == DeletionBuffer(sh, lines);
  }

  lemma DeletionEffect(sh: Shadow, s: Screen, lines: seq<Line>)
    requires Agrees(sh, s) && |lines| < |sh.lines| && sh.lines[..|lines|] == lines && sh.top <= Max(0, |lines| - 1)
    ensures var target := Max(0, |lines| - 1);
            var r := Run(s, DeletionBuffer(sh, lines));
            && Laid(sh.(cursorRow := target, hardwareRow := target), r, lines)
            && (r.rows == Image(lines, |r.rows|) <==> lines != [] || s.height == 1)
            && (lines != [] ==> r.exact == s.exact)
  {
    DeletionRun(sh, s, lines);
    DeletionRows(sh.lines, lines, |s.rows|);
  }

  /** What a diff may rely on: lines outside `first..=last` are unchanged, and a
      change of length reaches to the end. */
  predicate SameOutside(prev: seq<Line>, next: seq<Line>, first: nat, last: nat) {
    && first <= |prev| && first < |next| && first <= last
    && (forall k :: 0 <= k < |next| && !(first <= k <= last) ==> k < |prev| && prev[k] == next[k])
    && (|prev| < |next| ==> last == |next| - 1)
    && (|next| < |prev| ==> last == |prev| - 1)
  }

  lemma OnlyChanged(prev: seq<Line>, next: seq<Line>, first: nat, last: nat)
    requires Changed(prev, next) == (first, last) && first < |next|
    ensures SameOutside(prev, next, first, last)
  {
    if |prev| < |next| { assert Differ(prev, next, |prev|); }
    if |next| < |prev| { assert Differ(prev, next, |prev| - 1); }
    forall k | 0 <= k < |next| && !(first <= k <= last) ensures k < |prev| && prev[k] == next[k] {
      assert !Differ(prev, next, k);
    }
  }

  /** Moving to the first changed row never scrolls ahead, and scrolls only to open a
      row below a full window. */
  lemma ApproachEffect(sh: Shadow, s: Screen, appendStart: bool, first: nat)
    requires Agrees(sh, s) && sh.lines != [] && sh.top <= first <= |sh.lines|
    requires appendStart <==> first == |sh.lines|
    ensures var (buffer, top) := Approach(sh, appendStart, first, s.height);
            var r := Run(s, buffer);
            && top == sh.top
            && r == s.(row := first, col := 0, rows := if first == |s.rows| then s.rows + [Blank] else s.rows)
  {
    if appendStart { MoveNewLineEffect(s, first - 1); } else { MoveHomeEffect(s, first); }
  }

  lemma TailEffect(sh: Shadow, s: Screen, lines: seq<Line>)
    requires s.Valid() && 0 < |lines| < |sh.lines| <= |s.rows| && s.row == |lines| - 1 && s.Top() <= s.row
    ensures var r := Run(s, DiffTail(sh, lines, |lines| - 1));
            && |r.rows| == |s.rows| && r.row == s.row && r.exact == s.exact
            && forall k :: 0 <= k < |s.rows| ==> r.rows[k] == if |lines| <= k < |sh.lines| then Blank else s.rows[k]
  {
    var extra := |sh.lines| - |lines|;
    EraseBelowEffect(s, extra);
    RunSnoc(s, EraseBelow(extra), CursorUp(extra));
    assert DiffTail(sh, lines, |lines| - 1) == EraseBelow(extra) + [CursorUp(extra)];
  }

  lemma DiffRows(prev: seq<Line>, lines: seq<Line>, rows: seq<Row>, first: nat, last: nat, r: seq<Row>)
    requires SameOutside(prev, lines, first, last) && first <= |rows| && |prev| <= |rows|
    requires forall k :: 0 <= k < |rows| ==> rows[k] == if k < |prev| then Shown(prev[k]) else Blank
    requires first <= Min(last, |lines| - 1) + 1
    requires var painted := Painted(rows, lines, first, Min(last, |lines| - 1) + 1);
             && |r| == |painted|
             && forall k :: 0 <= k < |r| ==> r[k] == if |lines| <= k < |prev| then Blank else painted[k]
    ensures r == Image(lines, |r|)
  {
  }

  /** Clearing what fell off the end completes the picture. */
  lemma DiffClose(sh: Shadow, s: Screen, rows: seq<Row>, lines: seq<Line>, first: nat, last: nat, end: nat)
    requires SameOutside(sh.lines, lines, first, last) && end == Min(last, |lines| - 1) && first <= end
    requires first < |rows| && |sh.lines| <= |rows| && rows == Image(sh.lines, |rows|)
    requires |lines| < |sh.lines| ==> end == |lines| - 1
    requires s.Valid() && s.row == end && s.rows == Painted(rows, lines, first, end + 1)
    ensures var r := Run(s, DiffTail(sh, lines, end));
            r.row == end && r.exact == s.exact && |r.rows| == |s.rows| && r.rows == Image(lines, |r.rows|)
  {
    if |sh.lines| > |lines| {
      TailEffect(sh, s, lines);
    }
    DiffRows(sh.lines, lines, rows, first, last, Run(s, DiffTail(sh, lines, end)).rows);
  }

  /** From the first changed row on. */
  lemma DiffBody(sh: Shadow, s: Screen, lines: seq<Line>, first: nat, last: nat, end: nat)
    requires s.Valid() && s.row == first && s.col == 0 && s.rows == Image(sh.lines, |s.rows|) && |sh.lines| <= |s.rows|
    requires SameOutside(sh.lines, lines, first, last) && end == Min(last, |lines| - 1) && first <= end
    requires |lines| < |sh.lines| ==> end == |lines| - 1
    requires forall i :: first <= i <= end ==> lines[i].width <= s.columns
    ensures var r := Run(Run(s, Repaint(lines, first, end + 1)), DiffTail(sh, lines, end));
            && r.row == end && r.exact == s.exact
            && |r.rows| == Max(|s.rows|, end + 1) && r.rows == Image(lines, |r.rows|)
  {
    RepaintEffect(s, lines, first, end + 1);
    DiffClose(sh, Run(s, Repaint(lines, first, end + 1)), s.rows, lines, first, last, end);
  }

  lemma DiffRun(sh: Shadow, s: Screen, lines: seq<Line>, first: nat, last: nat)
    requires Agrees(sh, s) && sh.lines != [] && SameOutside(sh.lines, lines, first, last)
    requires sh.top <= first < |lines| && first <= last
    requires forall i :: first <= i <= last && i < |lines| ==> lines[i].width <= s.columns
    ensures var end := Min(last, |lines| - 1);
            var (approach, top) := Approach(sh, AppendStart(sh, lines, first), first, s.height);
            var r := Run(s, approach + Repaint(lines, first, end + 1) + DiffTail(sh, lines, end));
            && top == sh.top && r.row == end && r.exact == s.exact
            && |r.rows| == Max(|s.rows|, end + 1) && r.rows == Image(lines, |r.rows|)
  {
    hide Run, Apply, Repaint, DiffTail, Painted;
    var end := Min(last, |lines| - 1);
    var (approach, top) := Approach(sh, AppendStart(sh, lines, first), first, s.height);
    var body := Repaint(lines, first, end + 1) + DiffTail(sh, lines, end);
    ApproachEffect(sh, s, AppendStart(sh, lines, first), first);
    DiffBody(sh, Run(s, approach), lines, first, last, end);
    RunConcat(s, approach, body);
    RunConcat(Run(s, approach), Repaint(lines, first, end + 1), DiffTail(sh, lines, end));
    assert approach + Repaint(lines, first, end + 1) + DiffTail(sh, lines, end) == approach + body;
  }

  lemma DiffEffect(sh: Shadow, s: Screen, lines: seq<Line>, first: nat, last: nat)
    requires Agrees(sh, s) && sh.lines != [] && SameOutside(sh.lines, lines, first, last)
    requires sh.top <= first < |lines| && first <= last
    requires forall i :: first <= i <= last && i < |lines| ==> lines[i].width <= s.columns
    ensures var end := Min(last, |lines| - 1);
            var (approach, top) := Approach(sh, AppendStart(sh, lines, first), first, s.height);
            var r := Run(s, approach + Repaint(lines, first, end + 1) + DiffTail(sh, lines, end));
            && Laid(DiffShadow(sh, lines, top, end, s.height), r, lines)
            && r.rows == Image(lines, |r.rows|) && r.exact == s.exact && top == sh.top
  {
    DiffRun(sh, s, lines, first, last);
  }

  // ----- one render -----

  lemma FullSync(sh: Shadow, s: Screen, clear: bool, lines: seq<Line>, cursor: Cursor)
    requires s.Valid() && (clear || (s.rows == Blanks(s.height) && s.row == 0 && s.col == 0))
    requires cursor.At? ==> WindowTop(|lines|, s.height) <= cursor.row < |lines|
    ensures var done := RenderFull(sh, clear, lines, cursor, s.columns, s.height);
            done.Done? &&
            var r := Run(s, done.buffer);
            && !Resized(done.shadow, r.columns, r.height)
            && (Agrees(done.shadow, r) <==> Fits(lines, s.columns))
            && r.exact == s.exact && done.shadow.top == WindowTop(|lines|, s.height) && done.shadow.lines == lines
  {
    var buffer := (if clear then ClearAll() else []) + PrintAll(lines, |lines|);
    FullEffect(sh, s, clear, lines);
    FinishEffect(FullShadow(sh, clear, lines, s.height), Run(s, buffer), s, buffer, cursor, lines);
  }

  lemma UnchangedSync(sh: Shadow, s: Screen, lines: seq<Line>, cursor: Cursor)
    requires Agrees(sh, s) && !Resized(sh, s.columns, s.height) && sh.lines == lines && lines != []
    requires cursor.At? ==> cursor.row < |lines|
    ensures var done := RenderUnchanged(sh, lines, cursor, s.height);
            var r := Run(s, done.buffer);
            && !Resized(done.shadow, r.columns, r.height)
            && (Agrees(done.shadow, r) <==> MarkerVisible(cursor, sh.top))
            && (MarkerVisible(cursor, sh.top) ==> r.exact == s.exact)
  {
    PositionEffect(sh, s, cursor, lines);
  }

  lemma DeletionSync(sh: Shadow, s: Screen, lines: seq<Line>, cursor: Cursor)
    requires Agrees(sh, s) && |lines| < |sh.lines| && sh.lines[..|lines|] == lines && sh.top <= Max(0, |lines| - 1)
    requires cursor.At? ==> cursor.row < |lines|
    ensures var done := RenderDeletion(sh, lines, cursor, s.columns, s.height);
            var r := Run(s, done.buffer);
            && !Resized(done.shadow, r.columns, r.height)
            && (Agrees(done.shadow, r) <==> if lines == [] then s.height == 1 else MarkerVisible(cursor, sh.top))
            && (lines != [] && MarkerVisible(cursor, sh.top) ==> r.exact == s.exact)
  {
    DeletionEffect(sh, s, lines);
    var target := Max(0, |lines| - 1);
    var buffer := DeletionBuffer(sh, lines);
    FinishEffect(sh.(cursorRow := target, hardwareRow := target), Run(s, buffer), s, buffer, cursor, lines);
  }

  /** A diff refuses exactly the frames with a changed line that is too wide. */
  lemma DiffRefuses(sh: Shadow, lines: seq<Line>, cursor: Cursor, first: nat, last: nat, columns: nat, height: nat)
    requires first < |lines| && first <= last
    ensures RenderDiff(sh, first, last, lines, cursor, columns, height).TooWide?
            <==> exists i :: first <= i <= last && i < |lines| && lines[i].width > columns
  {
    var wide := Overwide(lines, columns, first, Min(last, |lines| - 1) + 1);
    if wide != -1 { assert lines[wide].width > columns; }
  }

  lemma DiffSync(sh: Shadow, s: Screen, lines: seq<Line>, cursor: Cursor, first: nat, last: nat)
    requires Agrees(sh, s) && sh.lines != [] && SameOutside(sh.lines, lines, first, last) && sh.top <= first
    requires forall i :: first <= i <= last && i < |lines| ==> lines[i].width <= s.columns
    requires cursor.At? ==> cursor.row < |lines|
    ensures var done := RenderDiff(sh, first, last, lines, cursor, s.columns, s.height);
            done.Done? &&
            var r := Run(s, done.buffer);
            && !Resized(done.shadow, r.columns, r.height)
            && (Agrees(done.shadow, r) <==> MarkerVisible(cursor, DiffTop(sh, lines, last, s.height)))
            && (MarkerVisible(cursor, DiffTop(sh, lines, last, s.height)) ==> r.exact == s.exact)
  {
    hide Run, Apply, Repaint, DiffTail, Approach;
    DiffRefuses(sh, lines, cursor, first, last, s.columns, s.height);
    var end := Min(last, |lines| - 1);
    var (approach, top) := Approach(sh, AppendStart(sh, lines, first), first, s.height);
    DiffEffect(sh, s, lines, first, last);
    var buffer := approach + Repaint(lines, first, end + 1) + DiffTail(sh, lines, end);
    FinishEffect(DiffShadow(sh, lines, top, end, s.height), Run(s, buffer), s, buffer, cursor, lines);
  }

  /** The plan of a render that is in step, and what each path may rely on. */
  lemma PlanFacts(sh: Shadow, s: Screen, lines: seq<Line>, overlays: bool, clearOnShrink: bool)
    requires InStep(sh, s)
    ensures match ChoosePlan(sh, lines, overlays, clearOnShrink, s.columns, s.height)
            case FullFresh => s.rows == Blanks(s.height) && s.row == 0 && s.col == 0
            case FullClear => true
            case Unchanged => Agrees(sh, s) && sh.lines == lines != [] && !Resized(sh, s.columns, s.height)
            case Deletion =>
              Agrees(sh, s) && |lines| < |sh.lines| && sh.lines[..|lines|] == lines && sh.top <= Max(0, |lines| - 1)
            case Diff(first, last) =>
              Agrees(sh, s) && sh.lines != [] && SameOutside(sh.lines, lines, first, last) && sh.top <= first
  {
    match ChoosePlan(sh, lines, overlays, clearOnShrink, s.columns, s.height)
    case FullFresh => assert Image([], |s.rows|) == Blanks(s.height);
    case FullClear =>
    case Unchanged => SameLines(sh.lines, lines);
    case Deletion => OnlyDeleted(sh.lines, lines);
    case Diff(first, last) => OnlyChanged(sh.lines, lines, first, last);
  }
}
