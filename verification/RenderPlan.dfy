/** What one `doRender` of the differential renderer does, as a function of the
    renderer's fields, its configuration and the new frame. */
module RenderPlan {
  import opened Basics
  import opened Terminal

  /** The renderer's fields: what it believes the terminal shows. A size of 0 means
      "never rendered", -1 "redraw everything". */
  datatype Shadow = Shadow(
    lines: seq<Line>,        // previousLines
    top: int,                // previousViewportTop
    hardwareRow: int,        // hardwareCursorRow
    cursorRow: int,
    maxLines: nat,           // maxLinesRendered
    width: int,              // previousWidth
    height: int,             // previousHeight
    redraws: nat)            // fullRedrawCount

  const INITIAL := Shadow([], 0, 0, 0, 0, 0, 0, 0)

  /** A frame as the components render it, and what else a render looks at. */
  datatype Frame = Frame(lines: seq<Line>, overlays: bool, clearOnShrink: bool)

  datatype Cursor = Hidden | At(row: nat, col: nat)

  // ----- cursor extraction -----

  /** The last row of `lines[low..high]` that holds a marker, or -1. */
  function MarkedRow(lines: seq<Line>, low: nat, high: nat): (r: int)
    requires high <= |lines|
    ensures r == -1 || low <= r < high
    ensures r != -1 ==> lines[r].markers != []
    ensures forall k :: low <= k < high && r < k ==> lines[k].markers == []
    decreases high
  {
    if high <= low then -1
    else if lines[high - 1].markers != [] then high - 1
    else MarkedRow(lines, low, high - 1)
  }

  function WindowTop(n: nat, height: nat): nat { if n < height then 0 else n - height }

  /** The frame without its cursor marker, and the marker's place: the first marker of the
      bottommost marked line among the last `height`. Only that line changes. */
  function Extract(lines: seq<Line>, height: nat): (r: (seq<Line>, Cursor))
    ensures |r.0| == |lines|
    ensures r.1.Hidden? ==> r.0 == lines && forall k :: WindowTop(|lines|, height) <= k < |lines| ==>
              lines[k].markers == []
    ensures r.1.At? ==>
              && WindowTop(|lines|, height) <= r.1.row < |lines|
              && lines[r.1.row].markers == [r.1.col] + r.0[r.1.row].markers
              && (forall k :: r.1.row < k < |lines| ==> lines[k].markers == [])
              && r.0 == lines[r.1.row := lines[r.1.row].(markers := r.0[r.1.row].markers)]
  {
    var row := MarkedRow(lines, WindowTop(|lines|, height), |lines|);
    if row == -1 then (lines, Hidden)
    else (lines[row := lines[row].(markers := lines[row].markers[1..])], At(row, lines[row].markers[0]))
  }

  // ----- what changed -----

  predicate Differ(prev: seq<Line>, next: seq<Line>, i: nat) {
    if i < |prev| && i < |next| then prev[i] != next[i] else i < |prev| || i < |next|
  }

  function FirstDiffering(prev: seq<Line>, next: seq<Line>, from: nat): (r: int)
    ensures r == -1 || (from <= r < Max(|prev|, |next|) && Differ(prev, next, r))
    ensures forall k: nat :: from <= k && (r == -1 || k < r) ==> !Differ(prev, next, k)
    decreases Max(|prev|, |next|) - from
  {
    if from >= Max(|prev|, |next|) then -1
    else if Differ(prev, next, from) then from
    else FirstDiffering(prev, next, from + 1)
  }

  function LastDiffering(prev: seq<Line>, next: seq<Line>, upTo: nat): (r: int)
    requires upTo <= Max(|prev|, |next|)
    ensures r == -1 || (0 <= r < upTo && Differ(prev, next, r))
    ensures forall k: nat :: r < k < upTo ==> !Differ(prev, next, k)
  {
    if upTo == 0 then -1
    else if Differ(prev, next, upTo - 1) then upTo - 1
    else LastDiffering(prev, next, upTo - 1)
  }

  /** `firstChanged` and `lastChanged` of a render. */
  function Changed(prev: seq<Line>, next: seq<Line>): (int, int) {
    var first := FirstDiffering(prev, next, 0);
    var last := LastDiffering(prev, next, Max(|prev|, |next|));
    if |next| > |prev| then (if first == -1 then |prev| else first, |next| - 1) else (first, last)
  }

  // ----- which path a render takes -----

  datatype Plan = FullFresh | FullClear | Unchanged | Deletion | Diff(first: nat, last: nat)

  predicate Resized(sh: Shadow, columns: nat, height: nat) {
    (sh.width != 0 && sh.width != columns) || (sh.height != 0 && sh.height != height)
  }

  function ChoosePlan(sh: Shadow, lines: seq<Line>, overlays: bool, clearOnShrink: bool, columns: nat,
                      height: nat): Plan
  {
    if sh.lines == [] && !Resized(sh, columns, height) then FullFresh
    else if Resized(sh, columns, height) then FullClear
    else if clearOnShrink && |lines| < sh.maxLines && !overlays then FullClear
    else
      var (first, last) := Changed(sh.lines, lines);
      if first == -1 then Unchanged
      else if first >= |lines| then
        if |sh.lines| > |lines| && (Max(0, |lines| - 1) < sh.top || |sh.lines| - |lines| > height) then FullClear
        else Deletion
      else if first < sh.top then FullClear
      else Diff(first, last)
  }

  // ----- command buffers -----

  const CRLF := [CarriageReturn, LineFeed]

  function Move(rows: int): seq<Command> {
    if rows > 0 then [CursorDown(rows)] else if rows < 0 then [CursorUp(-rows)] else []
  }

  /** Lines `0..n` printed one below the other. */
  function PrintAll(lines: seq<Line>, n: nat): seq<Command>
    requires n <= |lines|
  {
    if n == 0 then []
    else PrintAll(lines, n - 1) + (if n > 1 then CRLF else []) + [Print(lines[n - 1])]
  }

  /** Lines `first..n` reprinted over whatever is there. */
  function Repaint(lines: seq<Line>, first: nat, n: nat): seq<Command>
    requires first <= n <= |lines|
  {
    if n == first then []
    else Repaint(lines, first, n - 1) + (if n > first + 1 then CRLF else []) + [EraseLine] + [Print(lines[n - 1])]
  }

  function NewLines(n: nat): seq<Command> { if n == 0 then [] else NewLines(n - 1) + CRLF }

  /** The deletion path's loop after `i` of `extra` rounds. */
  function WipeRows(extra: nat, i: nat): seq<Command> {
    if i == 0 then []
    else WipeRows(extra, i - 1) + [CarriageReturn, EraseLine] + (if i < extra then [CursorDown(1)] else [])
  }

  /** The diff path's loop over `n` rows that fell off the end. */
  function EraseBelow(n: nat): seq<Command> {
    if n == 0 then [] else EraseBelow(n - 1) + [CarriageReturn, LineFeed, EraseLine]
  }

  // ----- the paths -----

  /** A new shadow and what was written to get there; or, for a render that meets a
      line wider than the terminal, the row of that line. */
  datatype Outcome = Done(shadow: Shadow, buffer: seq<Command>) | TooWide(row: nat)

  function Position(sh: Shadow, cursor: Cursor, total: nat): (Shadow, seq<Command>) {
    if cursor.Hidden? || total == 0 then (sh, [])
    else
      var target := Max(0, Min(cursor.row, total - 1));
      (sh.(hardwareRow := target), Move(target - sh.hardwareRow) + [CursorColumn(cursor.col + 1)])
  }

  /** Placing the cursor puts it on the marker's column, or on the last one, and has the
      renderer remember the marker's row. */
  lemma PositionColumn(sh: Shadow, s: Screen, cursor: Cursor, total: nat)
    requires s.Valid() && cursor.At? && total > 0
    ensures var (sh1, moves) := Position(sh, cursor, total);
            Run(s, moves).col == Min(cursor.col, s.columns - 1) && sh1.hardwareRow == Min(cursor.row, total - 1)
  {
    hide Run, Move;
    var target := Max(0, Min(cursor.row, total - 1));
    RunSnoc(s, Move(target - sh.hardwareRow), CursorColumn(cursor.col + 1));
  }

  /** The last steps every path shares: place the cursor, remember the frame. */
  function Finish(sh: Shadow, cursor: Cursor, lines: seq<Line>, columns: nat, height: nat,
                  buffer: seq<Command>): Outcome
  {
    var (sh1, moves) := Position(sh, cursor, |lines|);
    Done(sh1.(lines := lines, width := columns, height := height), buffer + moves)
  }

  /** The shadow once a full redraw is written and before the cursor is placed. */
  function FullShadow(sh: Shadow, clear: bool, lines: seq<Line>, height: nat): Shadow {
    var end := Max(0, |lines| - 1);
    sh.(redraws := sh.redraws + 1, cursorRow := end, hardwareRow := end,
        maxLines := if clear then |lines| else Max(sh.maxLines, |lines|),
        top := Max(0, Max(height, |lines|) - height))
  }

  function ClearAll(): seq<Command> { [EraseScreen, CursorHome, EraseScrollback] }

  function RenderFull(sh: Shadow, clear: bool, lines: seq<Line>, cursor: Cursor, columns: nat, height: nat): Outcome {
    Finish(FullShadow(sh, clear, lines, height), cursor, lines, columns, height,
           (if clear then ClearAll() else []) + PrintAll(lines, |lines|))
  }

  function RenderUnchanged(sh: Shadow, lines: seq<Line>, cursor: Cursor, height: nat): Outcome {
    var (sh1, moves) := Position(sh, cursor, |lines|);
    Done(sh1.(height := height), moves)
  }

  function DeletionBuffer(sh: Shadow, lines: seq<Line>): seq<Command>
    requires |lines| < |sh.lines|
  {
    var extra := |sh.lines| - |lines|;
    Move(Max(0, |lines| - 1) - sh.hardwareRow) + [CarriageReturn]
    + ([CursorDown(1)] + WipeRows(extra, extra)) + [CursorUp(extra)]
  }

  function RenderDeletion(sh: Shadow, lines: seq<Line>, cursor: Cursor, columns: nat, height: nat): Outcome {
    if |sh.lines| <= |lines| then Finish(sh, cursor, lines, columns, height, [])
    else
      var target := Max(0, |lines| - 1);
      Finish(sh.(cursorRow := target, hardwareRow := target), cursor, lines, columns, height, DeletionBuffer(sh, lines))
  }

  /** The diff path's approach to the first changed line: the buffer, and the
      viewport top it leaves. */
  function Approach(sh: Shadow, appendStart: bool, first: nat, height: nat): (seq<Command>, int)
    requires appendStart ==> first > 0
  {
    var target := if appendStart then first - 1 else first;
    var bottom := sh.top + height - 1;
    var newline := if appendStart then CRLF else [CarriageReturn];
    if target > bottom then
      var current := Max(0, Min(height - 1, sh.hardwareRow - sh.top));
      var down := height - 1 - current;
      var scroll := target - bottom;
      ((if down > 0 then [CursorDown(down)] else []) + NewLines(scroll) + newline, sh.top + scroll)
    else (Move(target - sh.hardwareRow) + newline, sh.top)
  }

  predicate AppendStart(sh: Shadow, lines: seq<Line>, first: nat) {
    |lines| > |sh.lines| && first == |sh.lines| && first > 0
  }

  /** The first of rows `from..upTo` that is wider than the terminal, or -1. */
  function Overwide(lines: seq<Line>, columns: nat, from: nat, upTo: nat): (r: int)
    requires upTo <= |lines|
    ensures r == -1 || (from <= r < upTo && lines[r].width > columns)
    ensures forall k :: from <= k < upTo && (r == -1 || k < r) ==> lines[k].width <= columns
    decreases upTo - from
  {
    if from >= upTo then -1
    else if lines[from].width > columns then from
    else Overwide(lines, columns, from + 1, upTo)
  }

  /** The row the diff path ends on. */
  function DiffEnd(sh: Shadow, lines: seq<Line>, renderEnd: int): int {
    if |sh.lines| > |lines| then |lines| - 1 else renderEnd
  }

  function DiffTail(sh: Shadow, lines: seq<Line>, renderEnd: nat): seq<Command> {
    if |sh.lines| <= |lines| then []
    else
      (if renderEnd < |lines| - 1 then [CursorDown(|lines| - 1 - renderEnd)] else [])
      + EraseBelow(|sh.lines| - |lines|) + [CursorUp(|sh.lines| - |lines|)]
  }

  /** The shadow once a diff is written and before the cursor is placed. */
  function DiffShadow(sh: Shadow, lines: seq<Line>, top: int, renderEnd: int, height: nat): Shadow {
    var end := DiffEnd(sh, lines, renderEnd);
    sh.(cursorRow := Max(0, |lines| - 1), hardwareRow := end, maxLines := Max(sh.maxLines, |lines|),
        top := Max(top, end - height + 1))
  }

  function RenderDiff(sh: Shadow, first: nat, last: nat, lines: seq<Line>, cursor: Cursor, columns: nat,
                      height: nat): Outcome
    requires first < |lines| && first <= last
  {
    var renderEnd := Min(last, |lines| - 1);
    var wide := Overwide(lines, columns, first, renderEnd + 1);
    if wide != -1 then TooWide(wide)
    else
      var (approach, top) := Approach(sh, AppendStart(sh, lines, first), first, height);
      Finish(DiffShadow(sh, lines, top, renderEnd, height), cursor, lines, columns, height,
             approach + Repaint(lines, first, renderEnd + 1) + DiffTail(sh, lines, renderEnd))
  }

  /** What a render does with a frame whose marker has been extracted. */
  function RenderExtracted(sh: Shadow, lines: seq<Line>, cursor: Cursor, overlays: bool, clearOnShrink: bool,
                           columns: nat, height: nat): Outcome
  {
    match ChoosePlan(sh, lines, overlays, clearOnShrink, columns, height)
    case FullFresh => RenderFull(sh, false, lines, cursor, columns, height)
    case FullClear => RenderFull(sh, true, lines, cursor, columns, height)
    case Unchanged => RenderUnchanged(sh, lines, cursor, height)
    case Deletion => RenderDeletion(sh, lines, cursor, columns, height)
    case Diff(first, last) => RenderDiff(sh, first, last, lines, cursor, columns, height)
  }

  function Render(sh: Shadow, frame: Frame, columns: nat, height: nat): Outcome {
    var (lines, cursor) := Extract(frame.lines, height);
    RenderExtracted(sh, lines, cursor, frame.overlays, frame.clearOnShrink, columns, height)
  }

  /** What `stop` writes: down to the row below the content, then a new line. */
  function StopBuffer(sh: Shadow): seq<Command> {
    if sh.lines == [] then [] else Move(|sh.lines| - sh.hardwareRow) + CRLF
  }

  /** A forced `requestRender` forgets the screen. */
  function Forget(sh: Shadow): Shadow {
    Shadow([], 0, 0, 0, 0, -1, -1, sh.redraws)
  }
}
