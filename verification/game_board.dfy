/** The 3x3 board of the game: nine cells addressed by the 1-based positions
    1..9 in row-major order, and the eight winning combinations over them. */
module GameBoard {

  /** The sign a player puts on the board ("x" or "o"). */
  datatype Sign = X | O

  /** A cell is either empty (the game writes an empty string there) or
      holds a sign. */
  datatype Cell = Empty | Marked(sign: Sign)

  /** A 1-based board position. */
  type Position = p: int | 1 <= p <= 9 witness 1

  /** The board always has exactly nine cells. */
  type Board = b: seq<Cell> | |b| == 9
    witness [Empty, Empty, Empty, Empty, Empty, Empty, Empty, Empty, Empty]

  /** A winning combination: the three positions that must all hold one
      sign. */
  datatype Line = Line(first: Position, second: Position, third: Position) {
    function Positions(): seq<Position>
    {
      [first, second, third]
    }

    predicate Includes(p: Position)
    {
      p == first || p == second || p == third
    }
  }

  /** The three rows, the three columns and the two diagonals, in the
      order the game scans them. */
  const WinningCombinations: seq<Line> :=
    [Line(1, 2, 3), Line(4, 5, 6), Line(7, 8, 9),
     Line(1, 4, 7), Line(2, 5, 8), Line(3, 6, 9),
     Line(1, 5, 9), Line(3, 5, 7)]

  function GetPosition(b: Board, p: Position): Cell
  {
    b[p - 1]
  }

  /** Writes a sign into a cell. There is no occupancy check at this layer:
      an occupied cell is simply overwritten. */
  function SetPosition(b: Board, p: Position, s: Sign): (r: Board)
    ensures GetPosition(r, p) == Marked(s)
    ensures forall q: Position :: q != p ==> GetPosition(r, q) == GetPosition(b, q)
  {
    b[p - 1 := Marked(s)]
  }

  /** The board with every cell cleared. */
  function ResetFields(): (r: Board)
    ensures forall p: Position :: GetPosition(r, p) == Empty
    ensures CountFilled(r) == 0
  {
    seq(9, _ => Empty)
  }

  /** Number of cells that hold a sign. */
  function CountFilled(cells: seq<Cell>): (n: nat)
    ensures n <= |cells|
    ensures n == 0 <==> forall i :: 0 <= i < |cells| ==> cells[i].Empty?
    ensures n == |cells| <==> forall i :: 0 <= i < |cells| ==> cells[i].Marked?
  {
    if |cells| == 0 then 0
    else (if cells[0].Empty? then 0 else 1) + CountFilled(cells[1..])
  }

  /** Every cell holds a sign. */
  predicate IsFull(b: Board)
  {
    forall p: Position :: GetPosition(b, p).Marked?
  }

  /** All positions of `line` hold sign `s` on board `b`. */
  predicate LineHeld(b: Board, line: Line, s: Sign)
  {
    && GetPosition(b, line.first) == Marked(s)
    && GetPosition(b, line.second) == Marked(s)
    && GetPosition(b, line.third) == Marked(s)
  }

  /** Marking an empty cell adds exactly one filled cell. */
  lemma {:induction false} CountFilledAfterMark(cells: seq<Cell>, i: nat, c: Cell)
    requires i < |cells| && cells[i].Empty? && c.Marked?
    ensures CountFilled(cells[i := c]) == CountFilled(cells) + 1
    decreases |cells|
  {
    if i == 0 {
      assert cells[i := c][1..] == cells[1..];
    } else {
      assert cells[i := c][1..] == cells[1..][i - 1 := c];
      CountFilledAfterMark(cells[1..], i - 1, c);
    }
  }

  /** A board is full exactly when all nine cells are counted as filled. */
  lemma FullIffNineFilled(b: Board)
    ensures IsFull(b) <==> CountFilled(b) == 9
  {
    if IsFull(b) {
      forall i | 0 <= i < 9 ensures b[i].Marked? {
        assert GetPosition(b, i + 1).Marked?;
      }
    }
  }

  /** Row and column of a position on the 3x3 grid, both counted from 0. */
  function RowOf(p: Position): int
  {
    (p - 1) / 3
  }

  function ColumnOf(p: Position): int
  {
    (p - 1) % 3
  }

  /** Three positions in ascending order that lie on one row, on one
      column, on the main diagonal or on the anti-diagonal of the grid. */
  predicate StraightLine(l: Line)
  {
    && l.first < l.second < l.third
    && (|| RowOf(l.first) == RowOf(l.second) == RowOf(l.third)
        || ColumnOf(l.first) == ColumnOf(l.second) == ColumnOf(l.third)
        || (forall p | p in l.Positions() :: RowOf(p) == ColumnOf(p))
        || (forall p | p in l.Positions() :: RowOf(p) + ColumnOf(p) == 2))
  }

  /** The table of winning combinations is exactly the set of straight
      lines of the grid: its three rows, three columns and two diagonals. */
  lemma WinningCombinationsAreStraightLines(l: Line)
    ensures l in WinningCombinations <==> StraightLine(l)
  {
    if StraightLine(l) {
      var a, b, c := l.first, l.second, l.third;
      assert l.Positions() == [a, b, c];
      if RowOf(a) == RowOf(b) == RowOf(c) {
        assert l == WinningCombinations[RowOf(a)];
      } else if ColumnOf(a) == ColumnOf(b) == ColumnOf(c) {
        assert l == WinningCombinations[3 + ColumnOf(a)];
      } else if RowOf(a) == ColumnOf(a) && RowOf(b) == ColumnOf(b) && RowOf(c) == ColumnOf(c) {
        assert l == WinningCombinations[6];
      } else {
        assert RowOf(a) + ColumnOf(a) == 2 && RowOf(b) + ColumnOf(b) == 2 && RowOf(c) + ColumnOf(c) == 2;
        assert l == WinningCombinations[7];
      }
    }
  }
}
