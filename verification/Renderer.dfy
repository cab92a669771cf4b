/** The differential renderer itself: an object whose fields shadow the terminal,
    and methods that update both. */
module Renderer {
  import opened Basics
  import opened Terminal
  import opened RenderPlan

  class TUI {
    const terminal: Terminal
    var previousLines: seq<Line>
    var previousWidth: int
    var previousHeight: int
    var cursorRow: int
    var hardwareCursorRow: int
    var maxLinesRendered: nat
    var previousViewportTop: int
    var fullRedrawCount: nat
    var clearOnShrink: bool
    var overlaysActive: bool
    var stopped: bool

    ghost function View(): Shadow
      reads this
    {
      Shadow(previousLines, previousViewportTop, hardwareCursorRow, cursorRow, maxLinesRendered,
             previousWidth, previousHeight, fullRedrawCount)
    }

    ghost predicate Valid()
      reads this, terminal
    {
      terminal.screen.Valid()
    }

    /** The renderer and the terminal are where `outcome` takes them from screen `was`. */
    ghost predicate Performed(outcome: Outcome, was: Screen)
      requires was.Valid()
      reads this, terminal
    {
      outcome.Done? && View() == outcome.shadow && terminal.screen == Run(was, outcome.buffer)
    }

    /** The renderer has stopped, with nothing written but its farewell. */
    ghost predicate Crashed(sh: Shadow, was: Screen)
      requires was.Valid()
      reads this, terminal
    {
      stopped && View() == sh && terminal.screen == Run(was, StopBuffer(sh))
    }

    constructor (terminal: Terminal)
      ensures this.terminal == terminal && View() == INITIAL && !stopped && !clearOnShrink && !overlaysActive
    {
      this.terminal := terminal;
      previousLines, previousWidth, previousHeight := [], 0, 0;
      cursorRow, hardwareCursorRow, maxLinesRendered, previousViewportTop := 0, 0, 0, 0;
      fullRedrawCount, clearOnShrink, overlaysActive, stopped := 0, false, false, false;
    }

    method RequestForcedRender()
      modifies this
      ensures View() == Forget(old(View()))
      ensures stopped == old(stopped) && clearOnShrink == old(clearOnShrink) && overlaysActive == old(overlaysActive)
    {
      previousLines := [];
      previousWidth, previousHeight := -1, -1;
      cursorRow, hardwareCursorRow, maxLinesRendered, previousViewportTop := 0, 0, 0, 0;
    }

    method Stop()
      requires Valid()
      modifies this, terminal
      ensures Valid() && stopped && View() == old(View())
      ensures clearOnShrink == old(clearOnShrink) && overlaysActive == old(overlaysActive)
      ensures terminal.screen == Run(old(terminal.screen), StopBuffer(View()))
    {
      stopped := true;
      if |previousLines| > 0 {
        terminal.Write(Move(|previousLines| - hardwareCursorRow));
        terminal.Write(CRLF);
        RunConcat(old(terminal.screen), Move(|previousLines| - hardwareCursorRow), CRLF);
      }
    }

    /** Finds the bottommost marker inside the bottom `height` lines and strips it. */
    static method ExtractCursorPosition(lines: seq<Line>, height: nat) returns (stripped: seq<Line>, cursor: Cursor)
      ensures (stripped, cursor) == Extract(lines, height)
    {
      var viewportTop := if |lines| < height then 0 else |lines| - height;
      var row := |lines| - 1;
      while row >= viewportTop
        invariant viewportTop - 1 <= row < |lines| || |lines| == 0 == viewportTop == row + 1
        invariant MarkedRow(lines, viewportTop, row + 1) == MarkedRow(lines, viewportTop, |lines|)
      {
        var line := lines[row];
        if line.markers != [] {
          stripped := lines[row := line.(markers := line.markers[1..])];
          cursor := At(row, line.markers[0]);
          return;
        }
        row := row - 1;
      }
      stripped, cursor := lines, Hidden;
    }

    method PositionHardwareCursor(cursor: Cursor, total: nat)
      requires Valid()
      modifies this`hardwareCursorRow, terminal
      ensures Valid()
      ensures (View(), terminal.screen)
              == var (sh, moves) := Position(old(View()), cursor, total); (sh, Run(old(terminal.screen), moves))
      ensures cursor.At? && total > 0 ==>
                && terminal.screen.col == Min(cursor.col, terminal.screen.columns - 1)
                && hardwareCursorRow == Min(cursor.row, total - 1)
    {
      hide Run;
      RunEmpty(terminal.screen);
      if cursor.Hidden? || total <= 0 {
        return;
      }
      var targetRow := Max(0, Min(cursor.row, total - 1));
      var rowDelta := targetRow - hardwareCursorRow;
      var buffer := [];
      if rowDelta > 0 {
        buffer := buffer + [CursorDown(rowDelta)];
      } else if rowDelta < 0 {
        buffer := buffer + [CursorUp(-rowDelta)];
      }
      buffer := buffer + [CursorColumn(cursor.col + 1)];
      assert buffer == Position(View(), cursor, total).1;
      PositionColumn(View(), terminal.screen, cursor, total);
      terminal.Write(buffer);
      hardwareCursorRow := targetRow;
    }

    /** Ends a render that wrote `buffer` on screen `was`: places the cursor and
        remembers the frame. */
    method FinishRender(newLines: seq<Line>, cursor: Cursor, ghost buffer: seq<Command>, ghost was: Screen)
      requires Valid() && was.Valid() && terminal.screen == Run(was, buffer)
      modifies this, terminal
      ensures Valid() && stopped == old(stopped)
      ensures clearOnShrink == old(clearOnShrink) && overlaysActive == old(overlaysActive)
      ensures Performed(Finish(old(View()), cursor, newLines, was.columns, was.height, buffer), was)
    {
      hide Run, Position;
      RunConcat(was, buffer, Position(View(), cursor, |newLines|).1);
      PositionHardwareCursor(cursor, |newLines|);
      previousLines := newLines;
      previousWidth := terminal.screen.columns;
      previousHeight := terminal.screen.height;
    }

    static method FullBuffer(clear: bool, newLines: seq<Line>) returns (buffer: seq<Command>)
      ensures buffer == (if clear then ClearAll() else []) + PrintAll(newLines, |newLines|)
    {
      buffer := if clear then ClearAll() else [];
      ghost var start := buffer;
      var i := 0;
      while i < |newLines|
        invariant 0 <= i <= |newLines|
        invariant buffer == start + PrintAll(newLines, i)
      {
        if i > 0 { buffer := buffer + CRLF; }
        buffer := buffer + [Print(newLines[i])];
        i := i + 1;
      }
    }

    method FullRender(clear: bool, newLines: seq<Line>, cursor: Cursor)
      requires Valid()
      modifies this, terminal
      ensures Valid() && stopped == old(stopped)
      ensures clearOnShrink == old(clearOnShrink) && overlaysActive == old(overlaysActive)
      ensures Performed(RenderFull(old(View()), clear, newLines, cursor,
                                   old(terminal.screen.columns), old(terminal.screen.height)),
                        old(terminal.screen))
    {
      hide Run, Position;
      var height := terminal.screen.height;
      fullRedrawCount := fullRedrawCount + 1;
      var buffer := FullBuffer(clear, newLines);
      terminal.Write(buffer);
      cursorRow := Max(0, |newLines| - 1);
      hardwareCursorRow := cursorRow;
      maxLinesRendered := if clear then |newLines| else Max(maxLinesRendered, |newLines|);
      var bufferLength := Max(height, |newLines|);
      previousViewportTop := Max(0, bufferLength - height);
      assert View() == FullShadow(old(View()), clear, newLines, height);
      FinishRender(newLines, cursor, buffer, old(terminal.screen));
    }

    /** The first and last index at which the frame differs from the shadow. */
    method FindChanged(newLines: seq<Line>) returns (firstChanged: int, lastChanged: int)
      ensures (firstChanged, lastChanged) == Changed(previousLines, newLines)
    {
      firstChanged, lastChanged := -1, -1;
      var maxLines := Max(|newLines|, |previousLines|);
      var i := 0;
      while i < maxLines
        invariant 0 <= i <= maxLines
        invariant lastChanged == LastDiffering(previousLines, newLines, i)
        invariant firstChanged == -1 ==>
                    FirstDiffering(previousLines, newLines, i) == FirstDiffering(previousLines, newLines, 0)
        invariant firstChanged != -1 ==> firstChanged == FirstDiffering(previousLines, newLines, 0)
      {
        if Differ(previousLines, newLines, i) {
          if firstChanged == -1 {
            firstChanged := i;
          }
          lastChanged := i;
        }
        i := i + 1;
      }
      if |newLines| > |previousLines| {
        if firstChanged == -1 {
          firstChanged := |previousLines|;
        }
        lastChanged := |newLines| - 1;
      }
    }

    /** The deletion path: rows fell off the end and nothing else changed. */
    method DeletionPath(newLines: seq<Line>, cursor: Cursor)
      requires Valid()
      modifies this, terminal
      ensures Valid() && stopped == old(stopped)
      ensures clearOnShrink == old(clearOnShrink) && overlaysActive == old(overlaysActive)
      ensures Performed(RenderDeletion(old(View()), newLines, cursor,
                                       old(terminal.screen.columns), old(terminal.screen.height)),
                        old(terminal.screen))
    {
      hide Run, Position;
      ghost var written: seq<Command> := [];
      RunEmpty(terminal.screen);
      if |previousLines| > |newLines| {
        var targetRow := Max(0, |newLines| - 1);
        var approach := Move(targetRow - hardwareCursorRow) + [CarriageReturn];
        var extraLines := |previousLines| - |newLines|;
        var buffer := approach + [CursorDown(1)];
        var i := 0;
        while i < extraLines
          invariant 0 <= i <= extraLines
          invariant buffer == approach + ([CursorDown(1)] + WipeRows(extraLines, i))
        {
          buffer := buffer + [CarriageReturn, EraseLine];
          if i < extraLines - 1 { buffer := buffer + [CursorDown(1)]; }
          i := i + 1;
        }
        buffer := buffer + [CursorUp(extraLines)];
        terminal.Write(buffer);
        written := buffer;
        cursorRow := targetRow;
        hardwareCursorRow := targetRow;
      }
      FinishRender(newLines, cursor, written, old(terminal.screen));
    }

    /** Moves to the first changed row, scrolling when it lies below the window. */
    method ApproachBuffer(firstChanged: nat, appendStart: bool) returns (buffer: seq<Command>, viewportTop: int)
      requires Valid() && (appendStart ==> firstChanged > 0)
      ensures (buffer, viewportTop) == Approach(View(), appendStart, firstChanged, terminal.screen.height)
    {
      var height := terminal.screen.height;
      viewportTop := previousViewportTop;
      var hardwareRow: int := hardwareCursorRow;
      buffer := [];
      var prevViewportBottom := viewportTop + height - 1;
      var moveTargetRow := if appendStart then firstChanged - 1 else firstChanged;
      if moveTargetRow > prevViewportBottom {
        var currentScreenRow := Max(0, Min(height - 1, hardwareRow - viewportTop));
        var moveToBottom := height - 1 - currentScreenRow;
        if moveToBottom > 0 {
          buffer := [CursorDown(moveToBottom)];
        }
        var scroll := moveTargetRow - prevViewportBottom;
        buffer := buffer + NewLines(scroll);
        viewportTop := viewportTop + scroll;
        hardwareRow := moveTargetRow;
      }
      assert [] + Move(moveTargetRow - hardwareRow) == Move(moveTargetRow - hardwareRow);
      assert moveTargetRow == hardwareRow ==> buffer + Move(moveTargetRow - hardwareRow) == buffer;
      buffer := buffer + Move(moveTargetRow - hardwareRow);
      buffer := buffer + if appendStart then CRLF else [CarriageReturn];
    }

    /** Appends lines `first..=renderEnd`, or stops at the first that is too wide. */
    static method RepaintBuffer(start: seq<Command>, newLines: seq<Line>, first: nat, renderEnd: nat, width: nat)
      returns (buffer: seq<Command>, wide: int)
      requires first <= renderEnd < |newLines|
      ensures wide == Overwide(newLines, width, first, renderEnd + 1)
      ensures wide == -1 ==> buffer == start + Repaint(newLines, first, renderEnd + 1)
    {
      buffer := start;
      var i := first;
      while i <= renderEnd
        invariant first <= i <= renderEnd + 1
        invariant buffer == start + Repaint(newLines, first, i)
        invariant Overwide(newLines, width, i, renderEnd + 1) == Overwide(newLines, width, first, renderEnd + 1)
      {
        if i > first { buffer := buffer + CRLF; }
        buffer := buffer + [EraseLine];
        if newLines[i].width > width {
          return buffer, i;
        }
        buffer := buffer + [Print(newLines[i])];
        i := i + 1;
      }
      wide := -1;
    }

    /** Appends what clears the rows that fell off the end of the frame. */
    method TailBuffer(start: seq<Command>, newLines: seq<Line>, renderEnd: nat)
      returns (buffer: seq<Command>, finalCursorRow: int)
      requires renderEnd < |newLines|
      ensures buffer == start + DiffTail(View(), newLines, renderEnd)
      ensures finalCursorRow == DiffEnd(View(), newLines, renderEnd)
    {
      buffer, finalCursorRow := start, renderEnd;
      if |previousLines| > |newLines| {
        if renderEnd < |newLines| - 1 {
          buffer := buffer + [CursorDown(|newLines| - 1 - renderEnd)];
          finalCursorRow := |newLines| - 1;
        }
        ghost var moved := buffer;
        var extraLines := |previousLines| - |newLines|;
        var j := |newLines|;
        while j < |previousLines|
          invariant |newLines| <= j <= |previousLines|
          invariant buffer == moved + EraseBelow(j - |newLines|)
        {
          buffer := buffer + [CarriageReturn, LineFeed, EraseLine];
          j := j + 1;
        }
        buffer := buffer + [CursorUp(extraLines)];
      }
    }

    /** All that a diff writes, unless it meets a line that is too wide. */
    method DiffBuffer(firstChanged: nat, lastChanged: nat, newLines: seq<Line>)
      returns (buffer: seq<Command>, wide: int, viewportTop: int, finalCursorRow: int)
      requires Valid() && firstChanged < |newLines| && firstChanged <= lastChanged
      ensures var end := Min(lastChanged, |newLines| - 1);
              && wide == Overwide(newLines, terminal.screen.columns, firstChanged, end + 1)
              && (wide == -1 ==>
                    var (approach, top) := Approach(View(), AppendStart(View(), newLines, firstChanged), firstChanged,
                                                    terminal.screen.height);
                    && buffer == approach + Repaint(newLines, firstChanged, end + 1) + DiffTail(View(), newLines, end)
                    && viewportTop == top && finalCursorRow == DiffEnd(View(), newLines, end))
    {
      var appendStart := |newLines| > |previousLines| && firstChanged == |previousLines| && firstChanged > 0;
      buffer, viewportTop := ApproachBuffer(firstChanged, appendStart);
      var renderEnd := Min(lastChanged, |newLines| - 1);
      finalCursorRow := renderEnd;
      buffer, wide := RepaintBuffer(buffer, newLines, firstChanged, renderEnd, terminal.screen.columns);
      if wide == -1 {
        buffer, finalCursorRow := TailBuffer(buffer, newLines, renderEnd);
      }
    }

    /** The diff path. A line wider than the terminal stops the renderer before
        anything of the frame is written. */
    method DiffPath(firstChanged: nat, lastChanged: nat, newLines: seq<Line>, cursor: Cursor) returns (crashed: bool)
      requires Valid() && firstChanged < |newLines| && firstChanged <= lastChanged
      modifies this, terminal
      ensures Valid() && clearOnShrink == old(clearOnShrink) && overlaysActive == old(overlaysActive)
      ensures var outcome := RenderDiff(old(View()), firstChanged, lastChanged, newLines, cursor,
                                        old(terminal.screen.columns), old(terminal.screen.height));
              if crashed then outcome.TooWide? && Crashed(old(View()), old(terminal.screen))
              else stopped == old(stopped) && Performed(outcome, old(terminal.screen))
    {
      hide Run, Position;
      var height := terminal.screen.height;
      var buffer, wide, viewportTop, finalCursorRow := DiffBuffer(firstChanged, lastChanged, newLines);
      if wide != -1 {
        Stop();
        return true;
      }
      terminal.Write(buffer);
      cursorRow := Max(0, |newLines| - 1);
      hardwareCursorRow := finalCursorRow;
      maxLinesRendered := Max(maxLinesRendered, |newLines|);
      previousViewportTop := Max(viewportTop, finalCursorRow - height + 1);
      assert View() == DiffShadow(old(View()), newLines, viewportTop, Min(lastChanged, |newLines| - 1), height);
      FinishRender(newLines, cursor, buffer, old(terminal.screen));
      crashed := false;
    }

    /** The guards of a render, in order. */
    method ChoosePath(newLines: seq<Line>) returns (plan: Plan)
      requires Valid()
      ensures plan == ChoosePlan(View(), newLines, overlaysActive, clearOnShrink, terminal.screen.columns,
                                 terminal.screen.height)
    {
      var width, height := terminal.screen.columns, terminal.screen.height;
      var widthChanged := previousWidth != 0 && previousWidth != width;
      var heightChanged := previousHeight != 0 && previousHeight != height;
      if |previousLines| == 0 && !widthChanged && !heightChanged {
        return FullFresh;
      }
      if widthChanged || heightChanged {
        return FullClear;
      }
      if clearOnShrink && |newLines| < maxLinesRendered && !overlaysActive {
        return FullClear;
      }
      var firstChanged, lastChanged := FindChanged(newLines);
      if firstChanged == -1 {
        return Unchanged;
      }
      if firstChanged >= |newLines| {
        if |previousLines| > |newLines| {
          var targetRow := Max(0, |newLines| - 1);
          if targetRow < previousViewportTop {
            return FullClear;
          }
          var extraLines := |previousLines| - |newLines|;
          if extraLines > height {
            return FullClear;
          }
        }
        return Deletion;
      }
      if firstChanged < previousViewportTop {
        return FullClear;
      }
      plan := Diff(firstChanged, lastChanged);
    }

    /** Renders a frame whose cursor marker has been extracted. */
    method RenderLines(newLines: seq<Line>, cursor: Cursor) returns (crashed: bool)
      requires Valid() && !stopped
      modifies this, terminal
      ensures Valid() && clearOnShrink == old(clearOnShrink) && overlaysActive == old(overlaysActive)
      ensures var outcome := RenderExtracted(old(View()), newLines, cursor, overlaysActive, clearOnShrink,
                                             old(terminal.screen.columns), old(terminal.screen.height));
              if crashed then outcome.TooWide? && Crashed(old(View()), old(terminal.screen))
              else !stopped && Performed(outcome, old(terminal.screen))
    {
      crashed := false;
      var plan := ChoosePath(newLines);
      match plan {
        case FullFresh => FullRender(false, newLines, cursor);
        case FullClear => FullRender(true, newLines, cursor);
        case Unchanged =>
          PositionHardwareCursor(cursor, |newLines|);
          previousHeight := terminal.screen.height;
        case Deletion => DeletionPath(newLines, cursor);
        case Diff(firstChanged, lastChanged) => crashed := DiffPath(firstChanged, lastChanged, newLines, cursor);
      }
    }

    /** Renders a frame. Reports a crash when the diff meets a line that is too wide. */
    method DoRender(lines: seq<Line>) returns (crashed: bool)
      requires Valid()
      modifies this, terminal
      ensures Valid() && clearOnShrink == old(clearOnShrink) && overlaysActive == old(overlaysActive)
      ensures old(stopped) ==> !crashed && stopped && View() == old(View()) && terminal.screen == old(terminal.screen)
      ensures !old(stopped) ==>
                var outcome := Render(old(View()), Frame(lines, overlaysActive, clearOnShrink),
                                      old(terminal.screen.columns), old(terminal.screen.height));
                if crashed then outcome.TooWide? && Crashed(old(View()), old(terminal.screen))
                else !stopped && Performed(outcome, old(terminal.screen))
    {
      crashed := false;
      if stopped { return; }
      var newLines, cursor := ExtractCursorPosition(lines, terminal.screen.height);
      crashed := RenderLines(newLines, cursor);
    }
  }
}
