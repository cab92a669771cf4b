/** The renderer's promises over one render and over whole runs. */
module RenderTheorems {
  import opened Basics
  import opened Terminal
  import opened RenderPlan
  import opened RenderEffects
  import opened RenderProof

  /** A render of screen `s` ended in agreement exactly if `keeps`. */
  predicate AgreesIf(keeps: bool, outcome: Outcome, s: Screen, empty: bool)
    requires s.Valid()
  {
    if outcome.TooWide? then !keeps
    else
      var r := Run(s, outcome.buffer);
      && !Resized(outcome.shadow, s.columns, s.height)
      && (Agrees(outcome.shadow, r) <==> keeps)
      && (keeps && !empty ==> r.exact == s.exact)
  }

  lemma PathAgreement(sh: Shadow, s: Screen, lines: seq<Line>, cursor: Cursor, overlays: bool, clearOnShrink: bool)
    requires InStep(sh, s) && (cursor.At? ==> WindowTop(|lines|, s.height) <= cursor.row < |lines|)
    ensures var plan := ChoosePlan(sh, lines, overlays, clearOnShrink, s.columns, s.height);
            AgreesIf(KeepsPath(sh, plan, lines, cursor, s.columns, s.height),
                     RenderExtracted(sh, lines, cursor, overlays, clearOnShrink, s.columns, s.height), s, lines == [])
  {
    PlanFacts(sh, s, lines, overlays, clearOnShrink);
    match ChoosePlan(sh, lines, overlays, clearOnShrink, s.columns, s.height)
    case FullFresh => FullSync(sh, s, false, lines, cursor);
    case FullClear => FullSync(sh, s, true, lines, cursor);
    case Unchanged => UnchangedSync(sh, s, lines, cursor);
    case Deletion => DeletionSync(sh, s, lines, cursor);
    case Diff(first, last) => DiffAgreement(sh, s, lines, cursor, first, last);
  }

  lemma DiffAgreement(sh: Shadow, s: Screen, lines: seq<Line>, cursor: Cursor, first: nat, last: nat)
    requires Agrees(sh, s) && sh.lines != [] && SameOutside(sh.lines, lines, first, last) && sh.top <= first
    requires cursor.At? ==> cursor.row < |lines|
    ensures AgreesIf(KeepsPath(sh, Diff(first, last), lines, cursor, s.columns, s.height),
                     RenderDiff(sh, first, last, lines, cursor, s.columns, s.height), s, false)
  {
    DiffRefuses(sh, lines, cursor, first, last, s.columns, s.height);
    if forall i :: first <= i <= last && i < |lines| ==> lines[i].width <= s.columns {
      DiffSync(sh, s, lines, cursor, first, last);
    }
  }

  /** The cursor stands where the marker was. */
  predicate OnMarker(sh: Shadow, s: Screen, cursor: Cursor) {
    cursor.At? ==>
      && s.col == Min(cursor.col, s.columns - 1) && sh.hardwareRow == cursor.row
      && (Agrees(sh, s) ==> s.row == cursor.row)
  }

  /** Every path ends by placing the cursor: it stands on the marker's column, and the
      renderer remembers the marker's row. */
  lemma CursorPlaced(sh: Shadow, s: Screen, lines: seq<Line>, cursor: Cursor, overlays: bool, clearOnShrink: bool)
    requires s.Valid() && cursor.At? && cursor.row < |lines|
    ensures var outcome := RenderExtracted(sh, lines, cursor, overlays, clearOnShrink, s.columns, s.height);
            outcome.Done? ==>
              && Run(s, outcome.buffer).col == Min(cursor.col, s.columns - 1)
              && outcome.shadow.hardwareRow == cursor.row
  {
    hide Run, Finish, Position, FullShadow, DiffShadow, PrintAll, DeletionBuffer, Approach, Repaint, DiffTail;
    match ChoosePlan(sh, lines, overlays, clearOnShrink, s.columns, s.height)
    case FullFresh =>
      FinishColumn(FullShadow(sh, false, lines, s.height), s, [] + PrintAll(lines, |lines|), cursor, lines,
                   s.columns, s.height);
    case FullClear =>
      FinishColumn(FullShadow(sh, true, lines, s.height), s, ClearAll() + PrintAll(lines, |lines|), cursor, lines,
                   s.columns, s.height);
    case Unchanged => PositionColumn(sh, s, cursor, |lines|);
    case Deletion =>
      if |sh.lines| <= |lines| {
        FinishColumn(sh, s, [], cursor, lines, s.columns, s.height);
      } else {
        var target := Max(0, |lines| - 1);
        FinishColumn(sh.(cursorRow := target, hardwareRow := target), s, DeletionBuffer(sh, lines), cursor, lines,
                     s.columns, s.height);
      }
    case Diff(first, last) =>
      var end := Min(last, |lines| - 1);
      var (approach, top) := Approach(sh, AppendStart(sh, lines, first), first, s.height);
      FinishColumn(DiffShadow(sh, lines, top, end, s.height), s,
                   approach + Repaint(lines, first, end + 1) + DiffTail(sh, lines, end), cursor, lines,
                   s.columns, s.height);
  }

  /** After a render that was in step, renderer and terminal agree if and only if
      `Keeps` held before it; and a render that keeps them in agreement, of a frame
      with at least one line, never has a cursor move cut short. The cursor stands on the
      marker's column, or the last one, and in agreement on its row. */
  lemma RenderAgreement(sh: Shadow, s: Screen, frame: Frame)
    requires InStep(sh, s)
    ensures var outcome := Render(sh, frame, s.columns, s.height);
            var keeps := Keeps(sh, frame, s.columns, s.height);
            && (outcome.TooWide? ==> !keeps)
            && (outcome.Done? ==>
                  var r := Run(s, outcome.buffer);
                  && !Resized(outcome.shadow, s.columns, s.height)
                  && (Agrees(outcome.shadow, r) <==> keeps)
                  && (keeps && frame.lines != [] ==> r.exact == s.exact)
                  && OnMarker(outcome.shadow, r, Extract(frame.lines, s.height).1))
  {
    hide RenderExtracted, KeepsPath;
    var (lines, cursor) := Extract(frame.lines, s.height);
    PathAgreement(sh, s, lines, cursor, frame.overlays, frame.clearOnShrink);
    if cursor.At? { CursorPlaced(sh, s, lines, cursor, frame.overlays, frame.clearOnShrink); }
  }

  /** On every render in step, the diff path never scrolls ahead of its first changed
      row and the deletion path never has more rows to clear than the window has. */
  lemma GuardsNeverTaken(sh: Shadow, s: Screen, lines: seq<Line>)
    requires Agrees(sh, s) && !Resized(sh, s.columns, s.height) && sh.lines != []
    ensures var (first, last) := Changed(sh.lines, lines);
            && (sh.top <= first < |lines| ==>
                  (if AppendStart(sh, lines, first) then first - 1 else first) <= sh.top + s.height - 1)
            && (first >= |lines| && sh.top <= Max(0, |lines| - 1) ==> |sh.lines| - |lines| <= s.height)
  {
    var (first, last) := Changed(sh.lines, lines);
    if 0 <= first < |lines| && first <= last { OnlyChanged(sh.lines, lines, first, last); }
  }

  // ----- runs -----

  /** The terminal is resized, losing its contents; a redraw is forced; a frame is
      rendered. */
  datatype Event = Resize(screen: Screen) | Force | Draw(frame: Frame)

  function After(sh: Shadow, s: Screen, e: Event): (Shadow, Screen)
    requires s.Valid()
  {
    match e
    case Resize(screen) => (sh, screen)
    case Force => (Forget(sh), s)
    case Draw(frame) =>
      var outcome := Render(sh, frame, s.columns, s.height);
      if outcome.TooWide? then (sh, s) else (outcome.shadow, Run(s, outcome.buffer))
  }

  /** A resize that a later render can see, and frames that keep agreement. */
  predicate Allowed(sh: Shadow, s: Screen, e: Event) {
    match e
    case Resize(screen) => screen.Valid() && Resized(sh, screen.columns, screen.height)
    case Force => true
    case Draw(frame) => Keeps(sh, frame, s.columns, s.height)
  }

  predicate AllAllowed(sh: Shadow, s: Screen, events: seq<Event>)
    requires s.Valid()
    decreases |events|
  {
    events == [] ||
    (Allowed(sh, s, events[0]) &&
     var (sh1, s1) := After(sh, s, events[0]);
     s1.Valid() && AllAllowed(sh1, s1, events[1..]))
  }

  function Final(sh: Shadow, s: Screen, events: seq<Event>): (Shadow, Screen)
    requires s.Valid() && AllAllowed(sh, s, events)
    decreases |events|
  {
    if events == [] then (sh, s)
    else var (sh1, s1) := After(sh, s, events[0]); Final(sh1, s1, events[1..])
  }

  /** On every run of allowed events the terminal shows exactly the last frame drawn
      (with the remembered scrollback above it), whatever mixture of paths drew it;
      and unless an empty frame is drawn no cursor move is ever cut short. */
  lemma {:induction false} EveryRunAgrees(sh: Shadow, s: Screen, events: seq<Event>)
    requires InStep(sh, s) && AllAllowed(sh, s, events)
    ensures var (sh1, s1) := Final(sh, s, events);
            && InStep(sh1, s1)
            && (events != [] && events[|events| - 1].Draw? ==>
                  Agrees(sh1, s1) && OnMarker(sh1, s1, Extract(events[|events| - 1].frame.lines, s1.height).1))
            && (s.exact && (forall e :: e in events ==> (e.Draw? ==> e.frame.lines != []) && (e.Resize? ==> e.screen.exact))
                ==> s1.exact)
    decreases |events|
  {
    if events != [] {
      if events[0].Draw? { RenderAgreement(sh, s, events[0].frame); }
      var (sh1, s1) := After(sh, s, events[0]);
      EveryRunAgrees(sh1, s1, events[1..]);
      if |events| > 1 {
        assert events[1..][|events| - 2] == events[|events| - 1];
      } else {
        assert events[1..] == [];
      }
    }
  }

  // ----- against a plain redraw -----

  function Visible(s: Screen): seq<Row>
    requires s.Valid()
  {
    s.rows[s.Top()..]
  }

  /** Known before the render: it redraws everything, or the window is not scrolled
      further than the new frame needs. */
  predicate WindowFits(sh: Shadow, frame: Frame, columns: nat, height: nat) {
    var lines := Extract(frame.lines, height).0;
    var plan := ChoosePlan(sh, lines, frame.overlays, frame.clearOnShrink, columns, height);
    plan.FullFresh? || plan.FullClear? || sh.top <= WindowTop(|lines|, height)
  }

  /** Exactly then the render leaves the window at the end of the frame. */
  lemma TopAfterRender(sh: Shadow, s: Screen, frame: Frame)
    requires InStep(sh, s) && Keeps(sh, frame, s.columns, s.height)
    ensures var outcome := Render(sh, frame, s.columns, s.height);
            outcome.Done? && (outcome.shadow.top == WindowTop(|Extract(frame.lines, s.height).0|, s.height) <==>
                               WindowFits(sh, frame, s.columns, s.height))
  {
    hide Run, Keeps, RenderExtracted, ChoosePlan, Image;
    var (lines, cursor) := Extract(frame.lines, s.height);
    CheapShows(sh, s, frame);
    TopOfRender(sh, lines, cursor, frame.overlays, frame.clearOnShrink, s.columns, s.height);
  }

  /** A full render puts the window at the frame's end; the others never move it up, and
      down no further than that. */
  lemma TopOfRender(sh: Shadow, lines: seq<Line>, cursor: Cursor, overlays: bool, clearOnShrink: bool, columns: nat,
                    height: nat)
    ensures var outcome := RenderExtracted(sh, lines, cursor, overlays, clearOnShrink, columns, height);
            var plan := ChoosePlan(sh, lines, overlays, clearOnShrink, columns, height);
            outcome.Done? ==>
              if plan.FullFresh? || plan.FullClear? then outcome.shadow.top == WindowTop(|lines|, height)
              else sh.top <= outcome.shadow.top <= Max(sh.top, WindowTop(|lines|, height))
  {
    match ChoosePlan(sh, lines, overlays, clearOnShrink, columns, height)
    case FullFresh =>
    case FullClear =>
    case Unchanged =>
    case Deletion =>
    case Diff(first, last) => TopOfDiff(sh, first, last, lines, cursor, columns, height);
  }

  lemma TopOfDiff(sh: Shadow, first: nat, last: nat, lines: seq<Line>, cursor: Cursor, columns: nat, height: nat)
    requires first < |lines| && first <= last
    ensures var outcome := RenderDiff(sh, first, last, lines, cursor, columns, height);
            outcome.Done? ==> sh.top <= outcome.shadow.top <= Max(sh.top, WindowTop(|lines|, height))
  {
  }

  /** The rows of a window whose first row shows line `top`. */
  function Window(lines: seq<Line>, top: nat, height: nat): seq<Row> { Image(lines, top + height)[top..] }

  /** The cheap render shows what clearing and reprinting would show exactly when the
      window fits; otherwise it was left scrolled past the end of a shrunken frame. */
  lemma SameAsRedraw(sh: Shadow, s: Screen, frame: Frame, other: Screen)
    requires InStep(sh, s) && Keeps(sh, frame, s.columns, s.height)
    requires other.Valid() && other.columns == s.columns && other.height == s.height
    requires Fits(Extract(frame.lines, s.height).0, s.columns)
    ensures var (lines, cursor) := Extract(frame.lines, s.height);
            var cheap := Render(sh, frame, s.columns, s.height);
            var redraw := RenderFull(sh, true, lines, cursor, s.columns, s.height);
            && cheap.Done?
            && (Visible(Run(s, cheap.buffer)) == Visible(Run(other, redraw.buffer)) <==>
                WindowFits(sh, frame, s.columns, s.height))
  {
    hide Run, Render, RenderFull, Keeps, Fits, Image, Window, WindowFits, WindowTop, Extract, Agrees, Visible;
    var (lines, cursor) := Extract(frame.lines, s.height);
    CheapWindow(sh, s, frame);
    RedrawWindow(sh, other, lines, cursor);
    TopAfterRender(sh, s, frame);
    SameWindow(lines, Render(sh, frame, s.columns, s.height).shadow.top, s.height);
  }

  lemma CheapWindow(sh: Shadow, s: Screen, frame: Frame)
    requires InStep(sh, s) && Keeps(sh, frame, s.columns, s.height)
    ensures var lines := Extract(frame.lines, s.height).0;
            var cheap := Render(sh, frame, s.columns, s.height);
            && cheap.Done? && 0 <= cheap.shadow.top
            && (if lines == [] then cheap.shadow.top == 0 else cheap.shadow.top < |lines| <= cheap.shadow.top + s.height)
            && Visible(Run(s, cheap.buffer)) == Window(lines, cheap.shadow.top, s.height)
  {
    hide Run, Render, Keeps, Extract, Image;
    CheapShows(sh, s, frame);
  }

  lemma RedrawWindow(sh: Shadow, s: Screen, lines: seq<Line>, cursor: Cursor)
    requires s.Valid() && Fits(lines, s.columns)
             && (cursor.At? ==> WindowTop(|lines|, s.height) <= cursor.row < |lines|)
    ensures var redraw := RenderFull(sh, true, lines, cursor, s.columns, s.height);
            redraw.Done? && Visible(Run(s, redraw.buffer)) == Window(lines, WindowTop(|lines|, s.height), s.height)
  {
    hide Run, RenderFull, Image;
    RedrawShows(sh, s, lines, cursor);
  }

  lemma CheapShows(sh: Shadow, s: Screen, frame: Frame)
    requires InStep(sh, s) && Keeps(sh, frame, s.columns, s.height)
    ensures var lines := Extract(frame.lines, s.height).0;
            var cheap := Render(sh, frame, s.columns, s.height);
            cheap.Done? &&
            var rows := Run(s, cheap.buffer).rows;
            && |lines| <= |rows| && |rows| == cheap.shadow.top + s.height && rows == Image(lines, |rows|)
            && (if lines == [] then cheap.shadow.top == 0 else 0 <= cheap.shadow.top < |lines|)
  {
    hide Run, Render, Keeps;
    RenderAgreement(sh, s, frame);
    RenderedLines(sh, s, frame);
  }

  lemma RedrawShows(sh: Shadow, s: Screen, lines: seq<Line>, cursor: Cursor)
    requires s.Valid() && Fits(lines, s.columns)
             && (cursor.At? ==> WindowTop(|lines|, s.height) <= cursor.row < |lines|)
    ensures var redraw := RenderFull(sh, true, lines, cursor, s.columns, s.height);
            redraw.Done? &&
            var rows := Run(s, redraw.buffer).rows;
            |rows| == WindowTop(|lines|, s.height) + s.height && rows == Image(lines, |rows|)
  {
    hide Run, RenderFull;
    FullSync(sh, s, true, lines, cursor);
  }

  /** A render remembers the frame it was given, without its marker. */
  lemma RenderedLines(sh: Shadow, s: Screen, frame: Frame)
    requires InStep(sh, s) && Render(sh, frame, s.columns, s.height).Done?
    ensures Render(sh, frame, s.columns, s.height).shadow.lines == Extract(frame.lines, s.height).0
  {
    PlanFacts(sh, s, Extract(frame.lines, s.height).0, frame.overlays, frame.clearOnShrink);
  }

  lemma SameWindow(lines: seq<Line>, top: nat, height: nat)
    requires 1 <= height && if lines == [] then top == 0 else top < |lines| <= top + height
    ensures Window(lines, top, height) == Window(lines, WindowTop(|lines|, height), height) <==>
              top == WindowTop(|lines|, height)
  {
    var end := WindowTop(|lines|, height);
    if top != end {
      // The row on which the redraw shows the frame's last line is blank in the
      // window that stayed scrolled.
      var k := |lines| - 1 - end;
      RowOfWindow(Image(lines, top + height), lines, height, k);
      RowOfWindow(Image(lines, end + height), lines, height, k);
    }
  }

  lemma RowOfWindow(rows: seq<Row>, lines: seq<Line>, height: nat, k: nat)
    requires k < height <= |rows| && rows == Image(lines, |rows|)
    ensures var i := |rows| - height + k;
            rows[|rows| - height..][k] == if i < |lines| then Shown(lines[i]) else Blank
  {
  }

  /** While renderer and terminal agree, row k of the window shows line `top + k` of the
      last frame, and the row below the last line is blank. */
  lemma WindowRow(sh: Shadow, s: Screen, k: nat)
    requires Agrees(sh, s) && k < s.height
    ensures Visible(s)[k] == if sh.top + k < |sh.lines| then Shown(sh.lines[sh.top + k]) else Blank
    ensures s.row - s.Top() == sh.hardwareRow - sh.top
  {
    RowOfWindow(s.rows, sh.lines, s.height, k);
  }

  /** Stopping leaves the frame where it is and the cursor at the start of a row below it. */
  lemma StopBelowContent(sh: Shadow, s: Screen)
    requires Agrees(sh, s) && sh.lines != []
    ensures var r := Run(s, StopBuffer(sh));
            && r.col == 0 && r.row >= |sh.lines| && r.row == Min(|s.rows| - 1, |sh.lines|) + 1
            && |sh.lines| <= |r.rows| && r.rows[..|sh.lines|] == s.rows[..|sh.lines|]
  {
    hide Run, Move, Image;
    MoveEffect(s, |sh.lines| - sh.hardwareRow);
    RunCrlf(s, Move(|sh.lines| - sh.hardwareRow));
  }

  // ----- clearing on shrink -----

  /** The renderer knows of at least as many lines as the terminal holds, and has not
      scrolled past them. */
  predicate Tracked(sh: Shadow, height: nat) {
    |sh.lines| <= sh.maxLines && sh.top <= WindowTop(sh.maxLines, height)
  }

  lemma TrackedKept(sh: Shadow, lines: seq<Line>, cursor: Cursor, overlays: bool, clearOnShrink: bool, columns: nat,
                    height: nat)
    requires Resized(sh, columns, height) || Tracked(sh, height)
    ensures var outcome := RenderExtracted(sh, lines, cursor, overlays, clearOnShrink, columns, height);
            outcome.Done? ==> Tracked(outcome.shadow, height)
  {
    hide Approach, Repaint, DiffTail, PrintAll, DeletionBuffer, Overwide;
    match ChoosePlan(sh, lines, overlays, clearOnShrink, columns, height)
    case FullFresh =>
    case FullClear =>
    case Unchanged => UnchangedLength(sh.lines, lines);
    case Deletion =>
      if sh.lines != lines { DeletedLength(sh.lines, lines); }
    case Diff(first, last) => TrackedDiff(sh, first, last, lines, cursor, columns, height);
  }

  lemma UnchangedLength(prev: seq<Line>, next: seq<Line>)
    requires Changed(prev, next).0 == -1
    ensures prev == next
  {
    SameLines(prev, next);
  }

  lemma DeletedLength(prev: seq<Line>, next: seq<Line>)
    requires Changed(prev, next).0 >= |next|
    ensures |next| < |prev|
  {
    OnlyDeleted(prev, next);
  }

  lemma TrackedDiff(sh: Shadow, first: nat, last: nat, lines: seq<Line>, cursor: Cursor, columns: nat, height: nat)
    requires first < |lines| && first <= last && Tracked(sh, height) && sh.top <= first
    ensures var outcome := RenderDiff(sh, first, last, lines, cursor, columns, height);
            outcome.Done? ==> Tracked(outcome.shadow, height)
  {
    TopOfDiff(sh, first, last, lines, cursor, columns, height);
  }

  /** With `clearOnShrink` and no overlays the window never stays scrolled: after every run
      that ends in a draw it ends where the frame ends, as after a redraw. */
  lemma {:induction false} ClearOnShrinkFits(sh: Shadow, s: Screen, events: seq<Event>)
    requires InStep(sh, s) && AllAllowed(sh, s, events) && (Resized(sh, s.columns, s.height) || Tracked(sh, s.height))
    requires forall e :: e in events && e.Draw? ==> e.frame.clearOnShrink && !e.frame.overlays
    ensures var (sh1, s1) := Final(sh, s, events);
            events != [] && events[|events| - 1].Draw? ==> sh1.top == WindowTop(|sh1.lines|, s1.height)
    decreases |events|
  {
    hide Keeps, Render;
    if events != [] {
      var (sh1, s1) := After(sh, s, events[0]);
      if events[0].Draw? {
        assert events[0] in events;
        DrawFits(sh, s, events[0].frame);
      }
      ClearOnShrinkFits(sh1, s1, events[1..]);
      if |events| > 1 {
        assert events[1..][|events| - 2] == events[|events| - 1];
      } else {
        assert events[1..] == [];
      }
    }
  }

  lemma DrawFits(sh: Shadow, s: Screen, frame: Frame)
    requires InStep(sh, s) && Keeps(sh, frame, s.columns, s.height) && frame.clearOnShrink && !frame.overlays
    requires Resized(sh, s.columns, s.height) || Tracked(sh, s.height)
    ensures var (sh1, s1) := After(sh, s, Draw(frame));
            && InStep(sh1, s1) && Tracked(sh1, s1.height) && s1.height == s.height
            && sh1.top == WindowTop(|sh1.lines|, s1.height)
  {
    hide Keeps, RenderExtracted, Run, Changed;
    var (lines, cursor) := Extract(frame.lines, s.height);
    RenderAgreement(sh, s, frame);
    TopAfterRender(sh, s, frame);
    TrackedKept(sh, lines, cursor, frame.overlays, frame.clearOnShrink, s.columns, s.height);
    RenderedLines(sh, s, frame);
  }

  // ----- what is printed -----

  /** The lines that a buffer prints. */
  function Prints(buffer: seq<Command>): seq<Line> {
    if buffer == [] then []
    else
      var last := buffer[|buffer| - 1];
      Prints(buffer[..|buffer| - 1]) + if last.Print? then [last.line] else []
  }

  lemma {:induction false} PrintsConcat(a: seq<Command>, b: seq<Command>)
    ensures Prints(a + b) == Prints(a) + Prints(b)
  {
    if b == [] {
      assert a + b == a;
    } else {
      var n := |b| - 1;
      assert (a + b)[..|a| + n] == a + b[..n] && (a + b)[|a| + n] == b[n];
      PrintsConcat(a, b[..n]);
    }
  }

  lemma {:induction false} PrintsNothing(buffer: seq<Command>)
    requires forall c :: c in buffer ==> !c.Print?
    ensures Prints(buffer) == []
  {
    if buffer != [] { PrintsNothing(buffer[..|buffer| - 1]); }
  }

  lemma PrintsSnoc(buffer: seq<Command>, line: Line)
    ensures Prints(buffer + [Print(line)]) == Prints(buffer) + [line]
  {
    assert (buffer + [Print(line)])[..|buffer|] == buffer;
  }

  lemma RepaintNone(lines: seq<Line>, first: nat)
    requires first <= |lines|
    ensures Repaint(lines, first, first) == []
  {
  }

  lemma RepaintSnoc(lines: seq<Line>, first: nat, n: nat)
    requires first < n <= |lines|
    ensures var b := (if n > first + 1 then CRLF else []) + [EraseLine];
            Repaint(lines, first, n) == Repaint(lines, first, n - 1) + b + [Print(lines[n - 1])]
  {
    var a, b := Repaint(lines, first, n - 1), (if n > first + 1 then CRLF else []) + [EraseLine];
    assert Repaint(lines, first, n) == a + (if n > first + 1 then CRLF else []) + [EraseLine] + [Print(lines[n - 1])];
  }

  lemma {:induction false} RepaintPrints(lines: seq<Line>, first: nat, n: nat)
    requires first <= n <= |lines|
    ensures Prints(Repaint(lines, first, n)) == lines[first..n]
  {
    hide Prints, Repaint;
    if n == first {
      RepaintNone(lines, first);
      PrintsNothing([]);
    } else {
      RepaintPrints(lines, first, n - 1);
      var a, b := Repaint(lines, first, n - 1), (if n > first + 1 then CRLF else []) + [EraseLine];
      RepaintSnoc(lines, first, n);
      PrintsConcat(a, b);
      PrintsNothing(b);
      PrintsSnoc(a + b, lines[n - 1]);
    }
  }

  lemma {:induction false} PrintAllPrints(lines: seq<Line>, n: nat)
    requires n <= |lines|
    ensures Prints(PrintAll(lines, n)) == lines[..n]
  {
    hide Prints;
    if n == 0 {
      PrintsNothing([]);
    } else {
      PrintAllPrints(lines, n - 1);
      var a, b := PrintAll(lines, n - 1), if n > 1 then CRLF else [];
      PrintsConcat(a, b);
      PrintsNothing(b);
      PrintsSnoc(a + b, lines[n - 1]);
    }
  }

  lemma {:induction false} NewLinesPrintNothing(n: nat)
    ensures forall c :: c in NewLines(n) ==> !c.Print?
  {
    if n > 0 { NewLinesPrintNothing(n - 1); }
  }

  lemma {:induction false} EraseBelowPrintsNothing(n: nat)
    ensures forall c :: c in EraseBelow(n) ==> !c.Print?
  {
    if n > 0 { EraseBelowPrintsNothing(n - 1); }
  }

  lemma {:induction false} WipeRowsPrintNothing(extra: nat, i: nat)
    ensures forall c :: c in WipeRows(extra, i) ==> !c.Print?
  {
    if i > 0 { WipeRowsPrintNothing(extra, i - 1); }
  }

  /** A full redraw prints the frame, a diff exactly its lines from the first to the last
      changed one, the other paths nothing. */
  lemma RenderPrints(sh: Shadow, lines: seq<Line>, cursor: Cursor, overlays: bool, clearOnShrink: bool, columns: nat,
                     height: nat)
    ensures var outcome := RenderExtracted(sh, lines, cursor, overlays, clearOnShrink, columns, height);
            var plan := ChoosePlan(sh, lines, overlays, clearOnShrink, columns, height);
            outcome.Done? ==>
              Prints(outcome.buffer) ==
                if plan.FullFresh? || plan.FullClear? then lines
                else if plan.Diff? then lines[plan.first..Min(plan.last, |lines| - 1) + 1]
                else []
  {
    hide Prints, Repaint, PrintAll, Approach, DiffTail, DeletionBuffer, FullShadow, DiffShadow, Position, Overwide;
    match ChoosePlan(sh, lines, overlays, clearOnShrink, columns, height)
    case FullFresh => FullPrints(sh, false, lines, cursor, height);
    case FullClear => FullPrints(sh, true, lines, cursor, height);
    case Unchanged => PositionPrintsNothing(sh, cursor, |lines|);
    case Deletion =>
      DeletedLength(sh.lines, lines);
      DeletionPrints(sh, lines, cursor);
    case Diff(first, last) => DiffPrints(sh, first, last, lines, cursor, height);
  }

  lemma PositionPrintsNothing(sh: Shadow, cursor: Cursor, total: nat)
    ensures Prints(Position(sh, cursor, total).1) == []
  {
    PrintsNothing(Position(sh, cursor, total).1);
  }

  lemma FullPrints(sh: Shadow, clear: bool, lines: seq<Line>, cursor: Cursor, height: nat)
    ensures var sh1 := FullShadow(sh, clear, lines, height);
            Prints((if clear then ClearAll() else []) + PrintAll(lines, |lines|) + Position(sh1, cursor, |lines|).1) == lines
  {
    hide Prints, PrintAll, Position;
    var start := if clear then ClearAll() else [];
    PrintsNothing(start);
    PrintAllPrints(lines, |lines|);
    PrintsConcat(start, PrintAll(lines, |lines|));
    PositionPrintsNothing(FullShadow(sh, clear, lines, height), cursor, |lines|);
    PrintsConcat(start + PrintAll(lines, |lines|), Position(FullShadow(sh, clear, lines, height), cursor, |lines|).1);
    assert lines[..|lines|] == lines;
  }

  lemma DeletionPrints(sh: Shadow, lines: seq<Line>, cursor: Cursor)
    requires |lines| < |sh.lines|
    ensures var target := Max(0, |lines| - 1);
            Prints(DeletionBuffer(sh, lines)
                   + Position(sh.(cursorRow := target, hardwareRow := target), cursor, |lines|).1) == []
  {
    hide Prints, Position;
    var target := Max(0, |lines| - 1);
    var extra := |sh.lines| - |lines|;
    WipeRowsPrintNothing(extra, extra);
    PrintsNothing(DeletionBuffer(sh, lines));
    PositionPrintsNothing(sh.(cursorRow := target, hardwareRow := target), cursor, |lines|);
    PrintsConcat(DeletionBuffer(sh, lines),
                 Position(sh.(cursorRow := target, hardwareRow := target), cursor, |lines|).1);
  }

  lemma DiffPrints(sh: Shadow, first: nat, last: nat, lines: seq<Line>, cursor: Cursor, height: nat)
    requires first < |lines| && first <= last
    ensures var end := Min(last, |lines| - 1);
            var (approach, top) := Approach(sh, AppendStart(sh, lines, first), first, height);
            var moves := Position(DiffShadow(sh, lines, top, end, height), cursor, |lines|).1;
            Prints(approach + Repaint(lines, first, end + 1) + DiffTail(sh, lines, end) + moves) == lines[first..end + 1]
  {
    hide Prints, Position, Repaint, DiffShadow;
    var end := Min(last, |lines| - 1);
    var (approach, top) := Approach(sh, AppendStart(sh, lines, first), first, height);
    var sh1 := DiffShadow(sh, lines, top, end, height);
    var repaint, tail := Repaint(lines, first, end + 1), DiffTail(sh, lines, end);
    NewLinesPrintNothing(Max(0, (if AppendStart(sh, lines, first) then first - 1 else first) - (sh.top + height - 1)));
    EraseBelowPrintsNothing(Max(0, |sh.lines| - |lines|));
    PrintsNothing(approach);
    PrintsNothing(tail);
    RepaintPrints(lines, first, end + 1);
    PositionPrintsNothing(sh1, cursor, |lines|);
    PrintsConcat(approach, repaint);
    PrintsConcat(approach + repaint, tail);
    PrintsConcat(approach + repaint + tail, Position(sh1, cursor, |lines|).1);
  }

  // ----- where agreement is lost -----

  /** A frame with one line, then an empty frame: on a terminal of two rows or more
      the old line stays on the screen. */
  lemma EmptyFrameLeavesRow(s: Screen, a: Line)
    requires s == Screen(Blanks(s.height), s.columns, s.height, 0, 0, true) && 1 <= s.columns && 2 <= s.height
    requires a.markers == [] && a.width <= s.columns
    ensures var (sh1, s1) := After(INITIAL, s, Draw(Frame([a], false, false)));
            var (sh2, s2) := After(sh1, s1, Draw(Frame([], false, false)));
            Agrees(sh1, s1) && !Agrees(sh2, s2)
  {
    assert Agrees(INITIAL, s);
    RenderAgreement(INITIAL, s, Frame([a], false, false));
    var (sh1, s1) := After(INITIAL, s, Draw(Frame([a], false, false)));
    assert sh1.lines == [a] && sh1.top == 0 && Differ([a], [], 0);
    RenderAgreement(sh1, s1, Frame([], false, false));
  }

  /** Two blank rows, and lines without a marker that fit them. */
  predicate TwoRows(s: Screen, lines: seq<Line>) {
    && s == Screen(Blanks(2), s.columns, 2, 0, 0, true) && 1 <= s.columns
    && forall i :: 0 <= i < |lines| ==> lines[i].markers == [] && lines[i].width <= s.columns
  }

  /** Three lines on a terminal of two rows scroll it by one. */
  lemma ThreeLines(s: Screen, a: Line, b: Line, c: Line)
    requires TwoRows(s, [a, b, c])
    ensures var (sh1, s1) := After(INITIAL, s, Draw(Frame([a, b, c], false, false)));
            && Agrees(sh1, s1) && !Resized(sh1, s1.columns, s1.height) && s1.columns == s.columns && s1.height == 2
            && sh1.lines == [a, b, c] && sh1.top == 1
  {
    var lines := [a, b, c];
    assert lines[0] == a && lines[1] == b && lines[2] == c;
    assert Agrees(INITIAL, s);
    RenderAgreement(INITIAL, s, Frame(lines, false, false));
  }

  /** Dropping the last of three lines leaves only that one to clear. */
  lemma LastLineDropped(a: Line, b: Line, c: Line)
    ensures Differ([a, b, c], [a, b], 2) && !Differ([a, b, c], [a, b], 1) && !Differ([a, b, c], [a, b], 0)
  {
  }

  /** Three lines on a terminal of two rows, then a frame of the first two with the
      cursor marker on the first: the marker lies above the window, and the renderer
      loses track of the cursor. */
  lemma MarkerAboveWindow(s: Screen, a: Line, b: Line, c: Line)
    requires TwoRows(s, [a, b, c])
    ensures var (sh1, s1) := After(INITIAL, s, Draw(Frame([a, b, c], false, false)));
            var (sh2, s2) := After(sh1, s1, Draw(Frame([a.(markers := [0]), b], false, false)));
            Agrees(sh1, s1) && !Agrees(sh2, s2)
  {
    hide Run, Agrees;
    var shrunk := Frame([a.(markers := [0]), b], false, false);
    ThreeLines(s, a, b, c);
    var (sh1, s1) := After(INITIAL, s, Draw(Frame([a, b, c], false, false)));
    MarkerStripped(s, a, b, c);
    LastLineDropped(a, b, c);
    RenderAgreement(sh1, s1, shrunk);
  }

  lemma MarkerStripped(s: Screen, a: Line, b: Line, c: Line)
    requires TwoRows(s, [a, b, c])
    ensures Extract([a.(markers := [0]), b], 2) == ([a, b], At(0, 0))
  {
    assert [a, b, c][0] == a && [a, b, c][1] == b;
    assert [0][1..] == [] && a.(markers := [0]).(markers := []) == a;
    assert [a.(markers := [0]), b][0 := a] == [a, b];
  }

  /** Three lines on a terminal of two rows, then a frame of the first two: the renderer
      only clears the third, and the window stays one row down, where a redraw would show
      both lines. */
  lemma ShrunkFrameStaysScrolled(s: Screen, a: Line, b: Line, c: Line)
    requires TwoRows(s, [a, b, c])
    ensures var (sh1, s1) := After(INITIAL, s, Draw(Frame([a, b, c], false, false)));
            var (sh2, s2) := After(sh1, s1, Draw(Frame([a, b], false, false)));
            && Agrees(sh2, s2) && !WindowFits(sh1, Frame([a, b], false, false), s.columns, 2)
            && Visible(s2) == [Shown(b), Blank]
  {
    hide Run, Agrees;
    ThreeLines(s, a, b, c);
    var (sh1, s1) := After(INITIAL, s, Draw(Frame([a, b, c], false, false)));
    NoMarker(s, a, b, c);
    LastLineDropped(a, b, c);
    DroppedLine(sh1, s1, a, b, c);
  }

  lemma NoMarker(s: Screen, a: Line, b: Line, c: Line)
    requires TwoRows(s, [a, b, c])
    ensures Extract([a, b], 2) == ([a, b], Hidden)
  {
    assert [a, b, c][0] == a && [a, b, c][1] == b;
  }

  lemma DroppedLine(sh1: Shadow, s1: Screen, a: Line, b: Line, c: Line)
    requires Agrees(sh1, s1) && !Resized(sh1, s1.columns, s1.height) && s1.height == 2 && sh1.lines == [a, b, c]
             && sh1.top == 1
    requires Extract([a, b], 2) == ([a, b], Hidden)
    requires Differ([a, b, c], [a, b], 2) && !Differ([a, b, c], [a, b], 1) && !Differ([a, b, c], [a, b], 0)
    ensures var shrunk := Frame([a, b], false, false); var (sh2, s2) := After(sh1, s1, Draw(shrunk));
            Agrees(sh2, s2) && !WindowFits(sh1, shrunk, s1.columns, 2) && Visible(s2) == [Shown(b), Blank]
  {
    hide Run, Extract;
    var shrunk := Frame([a, b], false, false);
    RenderAgreement(sh1, s1, shrunk);
    TopAfterRender(sh1, s1, shrunk);
    var (sh2, s2) := After(sh1, s1, Draw(shrunk));
    WindowRow(sh2, s2, 0);
    WindowRow(sh2, s2, 1);
  }
}
