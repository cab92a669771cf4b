/** The terminal as the renderer drives it: absolute rows (scrollback first), a
    window of `height` rows at the bottom of them, and a cursor inside the window.
    The controls are those of ECMA-48: CR, LF, CUU (8.3.22), CUD (8.3.19),
    ED (8.3.39), EL (8.3.41), CHA (8.3.9). */
module Terminal {
  import opened Basics

  /** A rendered line: opaque text, its visible width, and the columns of the
      zero-width cursor markers inside it, leftmost first. */
  datatype Line = Line(text: string, width: nat, markers: seq<nat>)

  /** `Garbled` stands for any content other than one line printed on a blank row. */
  datatype Row = Blank | Shown(line: Line) | Garbled

  datatype Command =
    | CarriageReturn
    | LineFeed
    | CursorUp(n: nat)
    | CursorDown(n: nat)
    | CursorColumn(column: nat)
    | CursorHome
    | EraseLine
    | EraseScreen
    | EraseScrollback
    | Print(line: Line)

  /** `exact` stays true as long as no vertical move was cut short by a screen edge. */
  datatype Screen = Screen(rows: seq<Row>, columns: nat, height: nat, row: nat, col: nat, exact: bool) {
    predicate Valid() {
      1 <= columns && 1 <= height <= |rows| && Top() <= row < |rows|
    }

    function Top(): int { |rows| - height }
  }

  function Blanks(n: nat): (rows: seq<Row>)
    ensures |rows| == n && forall k :: 0 <= k < n ==> rows[k] == Blank
  {
    seq(n, _ => Blank)
  }

  function Apply(s: Screen, c: Command): (r: Screen)
    requires s.Valid()
    ensures r.Valid() && r.columns == s.columns && r.height == s.height
  {
    match c
    case CarriageReturn => s.(col := 0)
    case LineFeed =>
      if s.row + 1 == |s.rows| then s.(rows := s.rows + [Blank], row := s.row + 1) else s.(row := s.row + 1)
    case CursorUp(n) =>
      s.(row := Max(s.Top(), s.row - n), exact := s.exact && s.Top() <= s.row - n)
    case CursorDown(n) =>
      s.(row := Min(|s.rows| - 1, s.row + n), exact := s.exact && s.row + n < |s.rows|)
    case CursorColumn(column) => s.(col := Max(0, Min(column, s.columns) - 1))
    case CursorHome => s.(row := s.Top(), col := 0)
    case EraseLine => s.(rows := s.rows[s.row := Blank])
    case EraseScreen => s.(rows := s.rows[..s.Top()] + Blanks(s.height))
    case EraseScrollback => s.(rows := s.rows[s.Top()..], row := s.row - s.Top())
    case Print(line) =>
      // A line that is too wide, or that starts off column 0 or on a used row, does
      // not show as itself; nothing more is said about such a row.
      if s.col == 0 && s.rows[s.row] == Blank && line.width <= s.columns
      then s.(rows := s.rows[s.row := Shown(line)], col := line.width)
      else s.(rows := s.rows[s.row := Garbled], col := s.columns)
  }

  function Run(s: Screen, cs: seq<Command>): (r: Screen)
    requires s.Valid()
    ensures r.Valid() && r.columns == s.columns && r.height == s.height
    decreases |cs|
  {
    if cs == [] then s else Run(Apply(s, cs[0]), cs[1..])
  }

  lemma {:induction false} RunConcat(s: Screen, a: seq<Command>, b: seq<Command>)
    requires s.Valid()
    ensures Run(s, a + b) == Run(Run(s, a), b)
    decreases |a|
  {
    if a == [] {
      assert a + b == b;
    } else {
      assert (a + b)[0] == a[0] && (a + b)[1..] == a[1..] + b;
      RunConcat(Apply(s, a[0]), a[1..], b);
    }
  }

  lemma RunEmpty(s: Screen)
    requires s.Valid()
    ensures Run(s, []) == s
  {
  }

  /** Running a buffer that ends in `c` applies `c` last. */
  lemma RunSnoc(s: Screen, a: seq<Command>, c: Command)
    requires s.Valid()
    ensures Run(s, a + [c]) == Apply(Run(s, a), c)
  {
    RunConcat(s, a, [c]);
    assert [c][1..] == [];
  }

  /** The terminal object the renderer writes to. */
  class Terminal {
    var screen: Screen

    constructor (columns: nat, height: nat)
      requires 1 <= columns && 1 <= height
      ensures screen == Screen(Blanks(height), columns, height, 0, 0, true)
    {
      screen := Screen(Blanks(height), columns, height, 0, 0, true);
    }

    method Write(buffer: seq<Command>)
      requires screen.Valid()
      modifies this
      ensures screen == Run(old(screen), buffer)
    {
      var i := 0;
      while i < |buffer|
        invariant 0 <= i <= |buffer| && screen.Valid()
        invariant Run(screen, buffer[i..]) == Run(old(screen), buffer)
      {
        assert buffer[i..][1..] == buffer[i + 1..];
        screen := Apply(screen, buffer[i]);
        i := i + 1;
      }
    }
  }
}
