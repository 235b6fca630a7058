/** The spawner `add_new_tile`. The two random draws of the Python game become
    parameters: `pick` selects among the empty cells and `four` selects the value. */
module Spawn {
  import opened Grid

  /** `random.choice([2, 4])`, with the draw given as `four`. */
  function TileValue(four: bool): (v: nat)
    ensures v == 2 || v == 4
    ensures IsPower(v)
  {
    if four then 4 else 2
  }

  /** `add_new_tile`: when some cell is empty, the cell at position `pick` (taken modulo
      their number) of the row-major list of empty cells receives a 2 or a 4; a full
      board is left alone. */
  function AddNewTile(b: Board, pick: nat, four: bool): (r: Board)
    ensures Full(b) ==> r == b
    // exactly one cell changes, it was empty, and it now holds the new tile
    ensures !Full(b) ==> exists i, j :: 0 <= i < 4 && 0 <= j < 4 && b[i][j] == 0 && r == Set(b, i, j, TileValue(four))
    ensures !Full(b) ==> Count(r) == Count(b) + 1 && Sum(r) == Sum(b) + TileValue(four)
    ensures AllCells(b) ==> AllCells(r)
  {
    var cells := EmptyCells(b);
    EmptyCellsOfFull(b);
    if |cells| == 0 then b
    else
      var c := cells[pick % |cells|];
      var r := Set(b, c.row, c.col, TileValue(four));
      PlaceTile(b, c, TileValue(four), r);
      r
  }

  /** What writing a tile into an empty cell does to the board's measures. */
  lemma PlaceTile(b: Board, c: Cell, v: nat, r: Board)
    requires IsEmptyCell(b, c) && IsPower(v) && r == Set(b, c.row, c.col, v)
    ensures exists i, j :: 0 <= i < 4 && 0 <= j < 4 && b[i][j] == 0 && r == Set(b, i, j, v)
    ensures Count(r) == Count(b) + 1 && Sum(r) == Sum(b) + v
    ensures AllCells(b) ==> AllCells(r)
  {
    CountAfterSet(b, c.row, c.col, v);
  }

  /** Every empty cell is a possible target of the spawner: `random.choice` may pick any
      element of the list it is given. */
  lemma EveryEmptyCellCanReceive(b: Board, i: nat, j: nat, four: bool)
    requires i < 4 && j < 4 && b[i][j] == 0
    ensures exists pick :: AddNewTile(b, pick, four) == Set(b, i, j, TileValue(four))
  {
    var cells := EmptyCells(b);
    EmptyCellsComplete(b, i, j);
    var n :| 0 <= n < |cells| && cells[n] == Cell(i, j);
    EmptyCellsOfFull(b);
    SmallRemainder(n, |cells|);
    assert AddNewTile(b, n, four) == Set(b, i, j, TileValue(four));
  }

  /** Different picks below the number of empty cells fill different cells. */
  lemma DistinctPicks(b: Board, p: nat, q: nat, four: bool)
    requires p < q < |EmptyCells(b)|
    ensures AddNewTile(b, p, four) != AddNewTile(b, q, four)
  {
    var cells := EmptyCells(b);
    EmptyCellsOfFull(b);
    var c, d := cells[p], cells[q];
    SmallRemainder(p, |cells|);
    SmallRemainder(q, |cells|);
    assert Index(c) < Index(d);
    assert IsEmptyCell(b, d);
    assert AddNewTile(b, p, four)[d.row][d.col] == 0;
  }

  lemma SmallRemainder(n: nat, m: nat)
    requires n < m
    ensures n % m == n
  {
  }

  /** The starting board: two spawns onto the empty board. */
  function NewBoard(pick1: nat, four1: bool, pick2: nat, four2: bool): (r: Board)
    ensures Count(r) == 2
    ensures Sum(r) == TileValue(four1) + TileValue(four2)
    ensures AllCells(r)
    ensures !Terminal(r)
  {
    var e := EmptyBoard();
    var first := AddNewTile(e, pick1, four1);
    var r := AddNewTile(first, pick2, four2);
    TwoSpawns(e, first, r, TileValue(four1), TileValue(four2));
    r
  }

  lemma FewTilesNotFull(b: Board)
    requires Count(b) < 16
    ensures !Full(b)
  {
    var i :| 0 <= i < 4 && LineCount(b[i]) < 4;
    GapMeansNotFull(b, i);
  }

  /** Two spawns onto a board without tiles leave two tiles. */
  lemma TwoSpawns(e: Board, first: Board, r: Board, v1: nat, v2: nat)
    requires forall i, j :: 0 <= i < 4 && 0 <= j < 4 ==> e[i][j] == 0
    requires !Full(e) ==> Count(first) == Count(e) + 1 && Sum(first) == Sum(e) + v1
    requires AllCells(e) ==> AllCells(first)
    requires !Full(first) ==> Count(r) == Count(first) + 1 && Sum(r) == Sum(first) + v2
    requires AllCells(first) ==> AllCells(r)
    ensures Count(r) == 2 && Sum(r) == v1 + v2 && AllCells(r) && !Terminal(r)
  {
    assert !Full(e) by { assert e[0][0] == 0; }
    assert Count(e) == 0 && Sum(e) == 0 by {
      assert forall i :: 0 <= i < 4 ==> e[i] == Blank;
    }
    FewTilesNotFull(first);
    FewTilesNotFull(r);
  }
}
