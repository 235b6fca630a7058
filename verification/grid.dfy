/** The 4×4 board of the 2048 game, the measures the move engine preserves
    (tile sum, tile count, power-of-two cells) and the two board queries the
    game loop uses to detect the end of a game. */
module Grid {

  /** One row or column of the board: four cells, 0 meaning empty. */
  type Line = s: seq<nat> | |s| == 4 witness [0, 0, 0, 0]

  /** A line of four empty cells. */
  const Blank: Line := [0, 0, 0, 0]

  /** The board, indexed `b[row][col]`. */
  type Board = s: seq<Line> | |s| == 4 witness [Blank, Blank, Blank, Blank]

  /** The board with every cell empty. */
  function EmptyBoard(): (b: Board)
    ensures forall i, j :: 0 <= i < 4 && 0 <= j < 4 ==> b[i][j] == 0
  {
    [Blank, Blank, Blank, Blank]
  }

  /** The board with the single cell (row, col) replaced by v. */
  function Set(b: Board, row: nat, col: nat, v: nat): (r: Board)
    requires row < 4 && col < 4
    ensures r[row][col] == v
    ensures forall i, j :: 0 <= i < 4 && 0 <= j < 4 && (i != row || j != col) ==> r[i][j] == b[i][j]
  {
    b[row := b[row][col := v]]
  }

  // ---------------------------------------------------------------------------
  // Rearrangements used to derive the four move directions from one

  /** A line read from the other end. */
  function Reverse(l: Line): (r: Line)
    ensures forall k :: 0 <= k < 4 ==> r[k] == l[3 - k]
  {
    [l[3], l[2], l[1], l[0]]
  }

  /** Column `c` of the board, top to bottom. */
  function Column(b: Board, c: nat): (l: Line)
    requires c < 4
    ensures forall k :: 0 <= k < 4 ==> l[k] == b[k][c]
  {
    [b[0][c], b[1][c], b[2][c], b[3][c]]
  }

  /** Rows become columns: row `c` of the result is column `c` of `b`. */
  function Transpose(b: Board): (t: Board)
    ensures forall i, j :: 0 <= i < 4 && 0 <= j < 4 ==> t[i][j] == b[j][i]
  {
    [Column(b, 0), Column(b, 1), Column(b, 2), Column(b, 3)]
  }

  /** Every row read from right to left. */
  function MirrorRows(b: Board): (m: Board)
    ensures forall i, j :: 0 <= i < 4 && 0 <= j < 4 ==> m[i][j] == b[i][3 - j]
  {
    [Reverse(b[0]), Reverse(b[1]), Reverse(b[2]), Reverse(b[3])]
  }

  /** The rows in bottom-to-top order. */
  function FlipRows(b: Board): (f: Board)
    ensures forall i, j :: 0 <= i < 4 && 0 <= j < 4 ==> f[i][j] == b[3 - i][j]
  {
    [b[3], b[2], b[1], b[0]]
  }

  lemma ReverseTwice(l: Line)
    ensures Reverse(Reverse(l)) == l
  {
  }

  lemma RearrangeTwice(b: Board)
    ensures Transpose(Transpose(b)) == b
    ensures MirrorRows(MirrorRows(b)) == b
    ensures FlipRows(FlipRows(b)) == b
  {
    BoardExt(Transpose(Transpose(b)), b);
  }

  /** Two boards are equal exactly when they agree cell by cell. */
  lemma BoardExt(a: Board, b: Board)
    requires forall i, j :: 0 <= i < 4 && 0 <= j < 4 ==> a[i][j] == b[i][j]
    ensures a == b
  {
    assert forall i :: 0 <= i < 4 ==> a[i] == b[i];
  }

  // ---------------------------------------------------------------------------
  // Measures

  function LineSum(l: Line): nat
  {
    l[0] + l[1] + l[2] + l[3]
  }

  /** The sum of all tile values on the board (`np.sum(board)`). */
  function Sum(b: Board): nat
  {
    LineSum(b[0]) + LineSum(b[1]) + LineSum(b[2]) + LineSum(b[3])
  }

  function Occupied(v: nat): nat
  {
    if v == 0 then 0 else 1
  }

  /** The number of non-empty cells in a line. */
  function LineCount(l: Line): (n: nat)
    ensures n <= 4
    ensures n < 4 <==> exists k :: 0 <= k < 4 && l[k] == 0
  {
    Occupied(l[0]) + Occupied(l[1]) + Occupied(l[2]) + Occupied(l[3])
  }

  /** The number of tiles on the board. */
  function Count(b: Board): (n: nat)
    ensures n <= 16
  {
    LineCount(b[0]) + LineCount(b[1]) + LineCount(b[2]) + LineCount(b[3])
  }

  /** A board holds some tile exactly when its tile sum is positive. */
  lemma TilesIffPositiveSum(b: Board)
    ensures Count(b) > 0 <==> Sum(b) > 0
  {
    assert forall l: Line :: LineCount(l) > 0 <==> LineSum(l) > 0;
  }

  /** The number of empty cells (`np.sum(np.array(board) == 0)`). */
  function Empties(b: Board): nat
  {
    16 - Count(b)
  }

  lemma MeasuresOfRearrangements(b: Board)
    ensures Sum(Transpose(b)) == Sum(b) && Count(Transpose(b)) == Count(b)
    ensures Sum(MirrorRows(b)) == Sum(b) && Count(MirrorRows(b)) == Count(b)
    ensures Sum(FlipRows(b)) == Sum(b) && Count(FlipRows(b)) == Count(b)
  {
  }

  /** Every rearrangement keeps fullness and the power-of-two invariant. */
  lemma CellsOfRearrangements(b: Board)
    ensures Full(Transpose(b)) <==> Full(b)
    ensures Full(MirrorRows(b)) <==> Full(b)
    ensures Full(FlipRows(b)) <==> Full(b)
    ensures AllCells(Transpose(b)) <==> AllCells(b)
    ensures AllCells(MirrorRows(b)) <==> AllCells(b)
    ensures AllCells(FlipRows(b)) <==> AllCells(b)
  {
    assert Full(Transpose(b)) ==> Full(b) by {
      if Full(Transpose(b)) {
        forall i, j | 0 <= i < 4 && 0 <= j < 4 ensures b[i][j] != 0 {
          assert Transpose(b)[j][i] == b[i][j];
        }
      }
    }
    assert AllCells(Transpose(b)) ==> AllCells(b) by {
      if AllCells(Transpose(b)) {
        forall i, j | 0 <= i < 4 && 0 <= j < 4 ensures IsCell(b[i][j]) {
          assert Transpose(b)[j][i] == b[i][j];
        }
      }
    }
    assert Full(MirrorRows(b)) ==> Full(b) by {
      if Full(MirrorRows(b)) {
        forall i, j | 0 <= i < 4 && 0 <= j < 4 ensures b[i][j] != 0 {
          assert MirrorRows(b)[i][3 - j] == b[i][j];
        }
      }
    }
    assert AllCells(MirrorRows(b)) ==> AllCells(b) by {
      if AllCells(MirrorRows(b)) {
        forall i, j | 0 <= i < 4 && 0 <= j < 4 ensures IsCell(b[i][j]) {
          assert MirrorRows(b)[i][3 - j] == b[i][j];
        }
      }
    }
    assert Full(FlipRows(b)) ==> Full(b) by {
      if Full(FlipRows(b)) {
        forall i, j | 0 <= i < 4 && 0 <= j < 4 ensures b[i][j] != 0 {
          assert FlipRows(b)[3 - i][j] == b[i][j];
        }
      }
    }
    assert AllCells(FlipRows(b)) ==> AllCells(b) by {
      if AllCells(FlipRows(b)) {
        forall i, j | 0 <= i < 4 && 0 <= j < 4 ensures IsCell(b[i][j]) {
          assert FlipRows(b)[3 - i][j] == b[i][j];
        }
      }
    }
  }

  /** Row c of the transposed board is column c, and column c of it is row c. */
  lemma ColumnOfTranspose(b: Board, c: nat)
    requires c < 4
    ensures Transpose(b)[c] == Column(b, c)
    ensures Column(Transpose(b), c) == b[c]
  {
  }

  /** Column c of the flipped board is column c read bottom to top. */
  lemma ColumnOfFlip(b: Board, c: nat)
    requires c < 4
    ensures Column(FlipRows(b), c) == Reverse(Column(b, c))
  {
  }

  /** The board invariant holds exactly when it holds row by row. */
  lemma AllCellsByRows(b: Board)
    ensures AllCells(b) <==> forall i :: 0 <= i < 4 ==> LineCells(b[i])
  {
  }

  /** A row with an empty cell makes the board not full. */
  lemma GapMeansNotFull(b: Board, i: nat)
    requires i < 4 && LineCount(b[i]) < 4
    ensures !Full(b)
  {
    var k :| 0 <= k < 4 && b[i][k] == 0;
  }

  /** Writing v into cell (row, col) changes the tile count by the occupancy difference. */
  lemma CountAfterSet(b: Board, row: nat, col: nat, v: nat)
    requires row < 4 && col < 4
    ensures Count(Set(b, row, col, v)) + Occupied(b[row][col]) == Count(b) + Occupied(v)
    ensures Sum(Set(b, row, col, v)) + b[row][col] == Sum(b) + v
  {
    var r := Set(b, row, col, v);
    assert forall i :: 0 <= i < 4 && i != row ==> r[i] == b[i];
  }

  // ---------------------------------------------------------------------------
  // Tile values

  /** A value a tile can carry: 2, 4, 8, ... */
  predicate IsPower(v: nat)
    decreases v
  {
    v == 2 || (v > 2 && v % 2 == 0 && IsPower(v / 2))
  }

  /** A cell content the game can produce: empty or a power of two from 2 up. */
  predicate IsCell(v: nat)
  {
    v == 0 || IsPower(v)
  }

  lemma DoublePower(v: nat)
    requires IsPower(v)
    ensures IsPower(2 * v)
  {
    assert (2 * v) / 2 == v;
  }

  predicate LineCells(l: Line)
  {
    forall k :: 0 <= k < 4 ==> IsCell(l[k])
  }

  /** The board invariant: every non-zero cell holds a power of two. */
  predicate AllCells(b: Board)
  {
    forall i, j :: 0 <= i < 4 && 0 <= j < 4 ==> IsCell(b[i][j])
  }

  // ---------------------------------------------------------------------------
  // Board queries

  /** No cell is empty. */
  predicate Full(b: Board)
  {
    forall i, j :: 0 <= i < 4 && 0 <= j < 4 ==> b[i][j] != 0
  }

  /** Some horizontally or vertically adjacent pair holds the same raw value;
      two adjacent empty cells count, exactly as `valid_moves_exist` in the Python
      game compares them. */
  predicate HasEqualNeighbours(b: Board)
  {
    exists i, j :: 0 <= i < 4 && 0 <= j < 4 && NeighboursEqual(b, i, j)
  }

  /** The cell (i, j) equals its right or its lower neighbour. */
  predicate NeighboursEqual(b: Board, i: nat, j: nat)
    requires i < 4 && j < 4
  {
    (j < 3 && b[i][j] == b[i][j + 1]) || (i < 3 && b[i][j] == b[i + 1][j])
  }

  /** The condition that ends the game. */
  predicate Terminal(b: Board)
  {
    Full(b) && !HasEqualNeighbours(b)
  }

  /** `is_board_full`: scans the rows and answers false at the first row holding a 0. */
  method IsBoardFull(b: Board) returns (full: bool)
    ensures full <==> Full(b)
  {
    var row := 0;
    while row < 4
      invariant row <= 4
      invariant forall i, j :: 0 <= i < row && 0 <= j < 4 ==> b[i][j] != 0
    {
      if 0 in b[row] {
        return false;
      }
      row := row + 1;
    }
    return true;
  }

  /** `valid_moves_exist`: scans the cells in row-major order and answers true at the
      first cell equal to its right or lower neighbour. */
  method ValidMovesExist(b: Board) returns (found: bool)
    ensures found <==> HasEqualNeighbours(b)
  {
    var row := 0;
    while row < 4
      invariant row <= 4
      invariant forall i, j :: 0 <= i < row && 0 <= j < 4 ==> !NeighboursEqual(b, i, j)
    {
      var col := 0;
      while col < 4
        invariant col <= 4
        invariant forall i, j :: 0 <= i < row && 0 <= j < 4 ==> !NeighboursEqual(b, i, j)
        invariant forall j :: 0 <= j < col ==> !NeighboursEqual(b, row, j)
      {
        if col < 3 && b[row][col] == b[row][col + 1] {
          assert NeighboursEqual(b, row, col);
          return true;
        }
        if row < 3 && b[row][col] == b[row + 1][col] {
          assert NeighboursEqual(b, row, col);
          return true;
        }
        col := col + 1;
      }
      row := row + 1;
    }
    return false;
  }

  // ---------------------------------------------------------------------------
  // Empty cells, in the row-major order the spawner's list comprehension builds

  datatype Cell = Cell(row: nat, col: nat)

  /** The row-major position of a cell, `row * 4 + col`. */
  function Index(c: Cell): nat
  {
    4 * c.row + c.col
  }

  /** The cell c is on the board and empty. */
  predicate IsEmptyCell(b: Board, c: Cell)
  {
    c.row < 4 && c.col < 4 && b[c.row][c.col] == 0
  }

  /** The empty cells at or after (row, col) in row-major order, built the way the
      list comprehension `for row in range(4) for col in range(4)` visits them. */
  function EmptyFrom(b: Board, row: nat, col: nat): (cells: seq<Cell>)
    requires row <= 4 && col <= 4
    decreases 4 - row, 4 - col
    ensures forall n :: 0 <= n < |cells| ==> IsEmptyCell(b, cells[n]) && 4 * row + col <= Index(cells[n])
    ensures forall n, m :: 0 <= n < m < |cells| ==> Index(cells[n]) < Index(cells[m])
  {
    if row == 4 then []
    else if col == 4 then EmptyFrom(b, row + 1, 0)
    else
      var rest := EmptyFrom(b, row, col + 1);
      if b[row][col] == 0 then [Cell(row, col)] + rest else rest
  }

  /** All empty cells of the board in row-major order. */
  function EmptyCells(b: Board): (cells: seq<Cell>)
    ensures forall n :: 0 <= n < |cells| ==> IsEmptyCell(b, cells[n])
    ensures forall n, m :: 0 <= n < m < |cells| ==> Index(cells[n]) < Index(cells[m])
  {
    EmptyFrom(b, 0, 0)
  }

  /** Every empty cell at or after (row, col) is listed. */
  lemma {:induction false} EmptyFromComplete(b: Board, row: nat, col: nat, i: nat, j: nat)
    requires row <= 4 && col <= 4 && i < 4 && j < 4 && b[i][j] == 0
    requires 4 * row + col <= 4 * i + j && (row < i || col <= j)
    ensures Cell(i, j) in EmptyFrom(b, row, col)
    decreases 4 - row, 4 - col
  {
    if col == 4 {
      EmptyFromComplete(b, row + 1, 0, i, j);
    } else if row != i || col != j {
      EmptyFromComplete(b, row, col + 1, i, j);
    }
  }

  /** Every empty cell of the board is listed. */
  lemma EmptyCellsComplete(b: Board, i: nat, j: nat)
    requires i < 4 && j < 4 && b[i][j] == 0
    ensures Cell(i, j) in EmptyCells(b)
  {
    EmptyFromComplete(b, 0, 0, i, j);
  }

  /** A board has no empty cell exactly when it is full. */
  lemma EmptyCellsOfFull(b: Board)
    ensures EmptyCells(b) == [] <==> Full(b)
  {
    var cells := EmptyCells(b);
    if !Full(b) {
      var i, j :| 0 <= i < 4 && 0 <= j < 4 && b[i][j] == 0;
      EmptyCellsComplete(b, i, j);
    }
    if cells != [] {
      assert IsEmptyCell(b, cells[0]);
    }
  }
}
