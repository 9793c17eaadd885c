/** The dam used by the crack-mapping task: twelve squares in three rows of four, indexed row
    by row, a current position, first-crack-wins marking with the crack length clamped to the
    competition's limits, and the ASCII rendering of the grid. */
module DamGrid {
  import opened Common

  const SQUARES: int := 12
  const LENGTH_MIN: real := 8.0
  const LENGTH_MAX: real := 20.0

  /** `Crack.__init__` with `_format_length`: the length clamped into the competition's limits. */
  function CrackLength(length: real): (r: real)
    ensures LENGTH_MIN <= r <= LENGTH_MAX
    ensures LENGTH_MIN <= length <= LENGTH_MAX ==> r == length
    ensures length < LENGTH_MIN ==> r == LENGTH_MIN
    ensures length > LENGTH_MAX ==> r == LENGTH_MAX
  {
    var atLeast := if length < LENGTH_MIN then LENGTH_MIN else length;
    if atLeast > LENGTH_MAX then LENGTH_MAX else atLeast
  }

  /** A square of the grid and the length of the crack in it, if one was marked. */
  datatype Square = Square(position: int, crack: Option<real>)

  /** The list index that Python uses for `position`: negative indices count from the end. */
  function SquareIndex(position: int): (r: Option<int>)
    ensures r.Some? <==> -SQUARES <= position < SQUARES
    ensures r.Some? ==> 0 <= r.value < SQUARES && r.value % SQUARES == position % SQUARES
  {
    if 0 <= position < SQUARES then Some(position)
    else if -SQUARES <= position < 0 then Some(position + SQUARES)
    else None
  }

  /** `mark_crack` on the squares `s` at `target` (the explicit position, else the current
      one): no position at all is a TypeError, an index outside the list an IndexError; a
      square already holding a crack keeps it. */
  function Mark(s: seq<Square>, target: Option<int>, length: real): Result<seq<Square>, Fault>
    requires |s| == SQUARES
  {
    if target.None? then Failure(TypeError)
    else match SquareIndex(target.value)
      case None => Failure(IndexError)
      case Some(k) =>
        if s[k].crack.None? then Success(s[k := s[k].(crack := Some(CrackLength(length)))])
        else Success(s)
  }

  /** A valid mark changes at most the targeted square, and leaves it holding the first crack
      ever marked on it, clamped. */
  lemma MarkEffect(s: seq<Square>, position: int, length: real)
    requires |s| == SQUARES && 0 <= position < SQUARES
    ensures var r := Mark(s, Some(position), length);
      r.Success? && |r.value| == SQUARES &&
      (forall i :: 0 <= i < SQUARES && i != position ==> r.value[i] == s[i]) &&
      r.value[position].position == s[position].position &&
      r.value[position].crack == if s[position].crack.None? then Some(CrackLength(length)) else s[position].crack
  {
  }

  /** The first mark wins: marking the same square again changes nothing. */
  lemma FirstMarkWins(s: seq<Square>, position: int, first: real, second: real)
    requires |s| == SQUARES
    requires Mark(s, Some(position), first).Success?
    ensures var once := Mark(s, Some(position), first).value;
      |once| == SQUARES && Mark(once, Some(position), second) == Success(once)
  {
  }

  /** A marked square holds a length within the competition's limits. */
  lemma MarkedWithinLimits(s: seq<Square>, target: Option<int>, length: real)
    requires |s| == SQUARES
    requires forall i :: 0 <= i < SQUARES && s[i].crack.Some? ==> LENGTH_MIN <= s[i].crack.value <= LENGTH_MAX
    requires Mark(s, target, length).Success?
    ensures forall i :: 0 <= i < SQUARES && Mark(s, target, length).value[i].crack.Some? ==>
      LENGTH_MIN <= Mark(s, target, length).value[i].crack.value <= LENGTH_MAX
  {
  }

  /** Python's format specification `^5`: centred in five columns, the odd space on the right. */
  function Centre(s: string, width: nat): (r: string)
    ensures |s| <= width ==> |r| == width && r[(width - |s|) / 2..(width - |s|) / 2 + |s|] == s
    ensures |s| > width ==> r == s
    ensures |s| <= width ==> forall k :: 0 <= k < width && !((width - |s|) / 2 <= k < (width - |s|) / 2 + |s|) ==> r[k] == ' '
  {
    if |s| >= width then s
    else
      var left := (width - |s|) / 2;
      Spaces(left) + s + Spaces(width - |s| - left)
  }

  function Spaces(n: nat): (r: string)
    ensures |r| == n && forall k :: 0 <= k < n ==> r[k] == ' '
  {
    if n == 0 then "" else " " + Spaces(n - 1)
  }

  /** The text of one cell: the crack length as `show` formats it, else `X`. */
  function CellText(sq: Square, show: real -> string): string {
    if sq.crack.None? then "X" else show(sq.crack.value)
  }

  function Cell(sq: Square, show: real -> string): string {
    Centre(CellText(sq, show), 5)
  }

  /** The cells of the twelve squares, in index order. */
  function Cells(s: seq<Square>, show: real -> string): (cells: seq<string>)
    requires |s| == SQUARES
    ensures |cells| == SQUARES && forall i :: 0 <= i < SQUARES ==> cells[i] == Cell(s[i], show)
  {
    seq(SQUARES, i requires 0 <= i < SQUARES => Cell(s[i], show))
  }

  /** One line of `__str__`: `| {0[0]:^5} | {0[1]:^5} | {0[2]:^5} | {0[3]:^5} |` on the cells of
      row `row`. */
  function Row(cells: seq<string>, row: int): string
    requires |cells| == SQUARES && 0 <= row < 3
  {
    "| " + cells[4 * row] + " | " + cells[4 * row + 1] + " | " + cells[4 * row + 2] + " | " + cells[4 * row + 3] + " |"
  }

  /** The three lines joined by newlines. */
  function Grid(cells: seq<string>): string
    requires |cells| == SQUARES
  {
    Row(cells, 0) + "\n" + Row(cells, 1) + "\n" + Row(cells, 2)
  }

  /** `Dam.__str__` */
  function Render(s: seq<Square>, show: real -> string): string
    requires |s| == SQUARES
  {
    Grid(Cells(s, show))
  }

  /** Where the cell of square `i` starts in the rendering: its row of 34 characters (33 and
      a newline), past the leading bar and the cells before it. */
  function CellStart(i: int): int {
    34 * (i / 4) + 2 + 8 * (i % 4)
  }

  predicate FitsCells(s: seq<Square>, show: real -> string)
    requires |s| == SQUARES
  {
    forall i :: 0 <= i < SQUARES ==> |CellText(s[i], show)| <= 5
  }

  /** The cells of a formatted row sit at columns 2, 10, 18 and 26. */
  lemma RowCells(c0: string, c1: string, c2: string, c3: string)
    requires |c0| == |c1| == |c2| == |c3| == 5
    ensures var r := "| " + c0 + " | " + c1 + " | " + c2 + " | " + c3 + " |";
      |r| == 33 && r[2..7] == c0 && r[10..15] == c1 && r[18..23] == c2 && r[26..31] == c3
  {
    var r := "| " + c0 + " | " + c1 + " | " + c2 + " | " + c3 + " |";
    assert r[2..7] == c0 by { forall k | 0 <= k < 5 ensures r[2 + k] == c0[k] {} }
    assert r[10..15] == c1 by { forall k | 0 <= k < 5 ensures r[10 + k] == c1[k] {} }
    assert r[18..23] == c2 by { forall k | 0 <= k < 5 ensures r[18 + k] == c2[k] {} }
    assert r[26..31] == c3 by { forall k | 0 <= k < 5 ensures r[26 + k] == c3[k] {} }
  }

  /** Three 33-character lines joined by newlines start at 0, 34 and 68. */
  lemma JoinedLines(r0: string, r1: string, r2: string)
    requires |r0| == |r1| == |r2| == 33
    ensures var r := r0 + "\n" + r1 + "\n" + r2;
      |r| == 101 && r[0..33] == r0 && r[34..67] == r1 && r[68..101] == r2 && r[33] == '\n' && r[67] == '\n'
  {
    var r := r0 + "\n" + r1 + "\n" + r2;
    assert r[34..67] == r1 by { forall k | 0 <= k < 33 ensures r[34 + k] == r1[k] {} }
    assert r[68..101] == r2 by { forall k | 0 <= k < 33 ensures r[68 + k] == r2[k] {} }
  }

  lemma SliceOfSlice(r: string, a: int, n: int, b: int, m: int)
    requires 0 <= a && a + n <= |r| && 0 <= b && 0 <= m && b + m <= n
    ensures r[a..a + n][b..b + m] == r[a + b..a + b + m]
  {
    var inner, direct := r[a..a + n][b..b + m], r[a + b..a + b + m];
    assert forall k :: 0 <= k < m ==> inner[k] == direct[k];
  }

  /** The twelve cells of a grid of five-character cells, each at its offset. */
  lemma GridCells(cells: seq<string>)
    requires |cells| == SQUARES && forall i :: 0 <= i < SQUARES ==> |cells[i]| == 5
    ensures var g := Grid(cells);
      |g| == 101 && g[33] == '\n' && g[67] == '\n' &&
      g[2..7] == cells[0] && g[10..15] == cells[1] && g[18..23] == cells[2] && g[26..31] == cells[3] &&
      g[36..41] == cells[4] && g[44..49] == cells[5] && g[52..57] == cells[6] && g[60..65] == cells[7] &&
      g[70..75] == cells[8] && g[78..83] == cells[9] && g[86..91] == cells[10] && g[94..99] == cells[11]
  {
    var g := Grid(cells);
    RowCells(cells[0], cells[1], cells[2], cells[3]);
    RowCells(cells[4], cells[5], cells[6], cells[7]);
    RowCells(cells[8], cells[9], cells[10], cells[11]);
    var r0, r1, r2 := Row(cells, 0), Row(cells, 1), Row(cells, 2);
    JoinedLines(r0, r1, r2);
    SliceOfSlice(g, 34, 33, 2, 5);
    SliceOfSlice(g, 34, 33, 10, 5);
    SliceOfSlice(g, 34, 33, 18, 5);
    SliceOfSlice(g, 34, 33, 26, 5);
    SliceOfSlice(g, 68, 33, 2, 5);
    SliceOfSlice(g, 68, 33, 10, 5);
    SliceOfSlice(g, 68, 33, 18, 5);
    SliceOfSlice(g, 68, 33, 26, 5);
    SliceOfSlice(g, 0, 33, 2, 5);
    SliceOfSlice(g, 0, 33, 10, 5);
    SliceOfSlice(g, 0, 33, 18, 5);
    SliceOfSlice(g, 0, 33, 26, 5);
  }

  /** With five-character cells, each cell `i` of the grid sits in the five columns from
      CellStart(i), in three 33-character lines separated by newlines. */
  lemma GridLayout(cells: seq<string>)
    requires |cells| == SQUARES && forall i :: 0 <= i < SQUARES ==> |cells[i]| == 5
    ensures |Grid(cells)| == 101 && Grid(cells)[33] == '\n' && Grid(cells)[67] == '\n'
    ensures forall i :: 0 <= i < SQUARES ==> Grid(cells)[CellStart(i)..CellStart(i) + 5] == cells[i]
  {
    GridCells(cells);
    CellStarts();
    forall i | 0 <= i < SQUARES
      ensures Grid(cells)[CellStart(i)..CellStart(i) + 5] == cells[i]
    {
      if i == 0 {} else if i == 1 {} else if i == 2 {} else if i == 3 {}
      else if i == 4 {} else if i == 5 {} else if i == 6 {} else if i == 7 {}
      else if i == 8 {} else if i == 9 {} else if i == 10 {} else {}
    }
  }

  lemma CellStarts()
    ensures CellStart(0) == 2 && CellStart(1) == 10 && CellStart(2) == 18 && CellStart(3) == 26
    ensures CellStart(4) == 36 && CellStart(5) == 44 && CellStart(6) == 52 && CellStart(7) == 60
    ensures CellStart(8) == 70 && CellStart(9) == 78 && CellStart(10) == 86 && CellStart(11) == 94
  {
  }

  /** An empty square shows a centred `X`. */
  lemma EmptyCell(sq: Square, show: real -> string)
    requires sq.crack.None?
    ensures Cell(sq, show) == "  X  "
  {
    assert Spaces(2) == "  " by {
      assert Spaces(1) == " " + Spaces(0);
    }
  }

  /** With every crack fitting five columns, the rendering is three 33-character rows
      separated by newlines, and square `i` is shown centred in its cell at row `i / 4`,
      column `i % 4`: its crack length, or `X` for an empty square. */
  lemma RenderLayout(s: seq<Square>, show: real -> string)
    requires |s| == SQUARES && FitsCells(s, show)
    ensures |Render(s, show)| == 101 && Render(s, show)[33] == '\n' && Render(s, show)[67] == '\n'
    ensures forall i :: 0 <= i < SQUARES ==>
      Render(s, show)[CellStart(i)..CellStart(i) + 5] == Centre(CellText(s[i], show), 5)
    ensures forall i :: 0 <= i < SQUARES && s[i].crack.None? ==> Render(s, show)[CellStart(i)..CellStart(i) + 5] == "  X  "
  {
    var cells := Cells(s, show);
    forall i | 0 <= i < SQUARES ensures |cells[i]| == 5 {
      assert |CellText(s[i], show)| <= 5;
    }
    GridLayout(cells);
    forall i | 0 <= i < SQUARES && s[i].crack.None?
      ensures cells[i] == "  X  "
    {
      EmptyCell(s[i], show);
    }
  }

  class Dam {
    var squares: seq<Square>
    var position: Option<int>

    ghost predicate Valid()
      reads this
    {
      |squares| == SQUARES && forall i :: 0 <= i < SQUARES ==> squares[i].position == i
    }

    /** `Dam.__init__`: twelve empty squares, no position yet. */
    constructor ()
      ensures Valid() && position == None
      ensures forall i :: 0 <= i < SQUARES ==> squares[i].crack.None?
    {
      squares := seq(SQUARES, i => Square(i, None));
      position := None;
    }

    /** The `position` setter: 0 to 12 inclusive is taken; anything else is a ValueError. */
    method SetPosition(value: int) returns (fault: Option<Fault>)
      modifies this`position
      ensures 0 <= value <= SQUARES ==> fault == None && position == Some(value)
      ensures !(0 <= value <= SQUARES) ==> fault == Some(ValueError) && position == old(position)
    {
      if 0 <= value <= SQUARES {
        position := Some(value);
        fault := None;
      } else {
        fault := Some(ValueError);
      }
    }

    /** `mark_crack`, at the explicit position `at` or else the current one. */
    method MarkCrack(length: real, at: Option<int>) returns (fault: Option<Fault>)
      requires Valid()
      modifies this`squares
      ensures Valid()
      ensures var r := Mark(old(squares), if at.Some? then at else position, length);
        (r.Success? ==> fault == None && squares == r.value) &&
        (r.Failure? ==> fault == Some(r.error) && squares == old(squares))
    {
      var target := if at.Some? then at else position;
      if target.None? {
        return Some(TypeError);
      }
      var k := SquareIndex(target.value);
      if k.None? {
        return Some(IndexError);
      }
      if squares[k.value].crack.None? {
        squares := squares[k.value := squares[k.value].(crack := Some(CrackLength(length)))];
      }
      fault := None;
    }

    /** `__str__` */
    function ToString(show: real -> string): string
      requires Valid()
      reads this
    {
      Render(squares, show)
    }
  }

  /** Without a position set, `mark_crack` needs an explicit one; position 12 is accepted by the
      setter but marking there falls off the end of the grid. */
  lemma PositionEdges(s: seq<Square>, length: real)
    requires |s| == SQUARES
    ensures Mark(s, None, length) == Failure(TypeError)
    ensures Mark(s, Some(SQUARES), length) == Failure(IndexError)
    ensures Mark(s, Some(-1), length) == Mark(s, Some(SQUARES - 1), length)
  {
  }
}
