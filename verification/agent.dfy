/** The AI player: the board heuristic `evaluate_board` and the sampling move picker
    `get_move`. Weights are exact reals; the 100000 random draws of `get_move` are
    given as a finite sequence of sampled directions. */
module Agent {
  import opened Grid
  import opened Moves
  import opened MoveLoops

  datatype Option<T> = None | Some(value: T)

  /** The tile-position term of one cell: `board[row][col] * (row * 4 + col) * 0.1`
      for a tile, nothing for an empty cell. */
  function CellWeight(v: nat, row: nat, col: nat): real
  {
    if v != 0 then (v * (row * 4 + col)) as real * 0.1 else 0.0
  }

  /** The tile-position term of the cells (row, 0) .. (row, col - 1). */
  function LineWeight(l: Line, row: nat, col: nat): real
    requires col <= 4
  {
    if col == 0 then 0.0 else LineWeight(l, row, col - 1) + CellWeight(l[col - 1], row, col - 1)
  }

  /** The tile-position term of rows 0 .. row - 1. */
  function RowsWeight(b: Board, row: nat): real
    requires row <= 4
  {
    if row == 0 then 0.0 else RowsWeight(b, row - 1) + LineWeight(b[row - 1], row - 1, 4)
  }

  /** `evaluate_board`: tile sum, twice the empty cells, and the tile-position term. */
  function Evaluate(b: Board): real
  {
    Sum(b) as real * 1.0 + Empties(b) as real * 2.0 + RowsWeight(b, 4)
  }

  /** The heuristic is the tile sum plus twice the empty cells, raised by at most 1.5
      times the tile sum for the tiles' positions. */
  lemma EvaluateBounds(b: Board)
    ensures (Sum(b) + 2 * Empties(b)) as real <= Evaluate(b)
    ensures Evaluate(b) <= (Sum(b) + 2 * Empties(b)) as real + 1.5 * Sum(b) as real
  {
    PositionBounds(b);
  }

  /** A tile at row-major position p < 16 weighs between 0 and 1.5 times its value. */
  lemma CellWeightBounds(v: nat, row: nat, col: nat)
    requires row < 4 && col < 4
    ensures 0.0 <= CellWeight(v, row, col) <= 1.5 * v as real
  {
    var p := row * 4 + col;
    assert p <= 15;
    assert v * p <= v * 15;
  }

  lemma LineWeightBounds(l: Line, row: nat)
    requires row < 4
    ensures 0.0 <= LineWeight(l, row, 4) <= 1.5 * LineSum(l) as real
  {
    CellWeightBounds(l[0], row, 0);
    CellWeightBounds(l[1], row, 1);
    CellWeightBounds(l[2], row, 2);
    CellWeightBounds(l[3], row, 3);
    assert LineWeight(l, row, 4) == CellWeight(l[0], row, 0) + CellWeight(l[1], row, 1) + CellWeight(l[2], row, 2) + CellWeight(l[3], row, 3) by {
      assert LineWeight(l, row, 1) == CellWeight(l[0], row, 0);
      assert LineWeight(l, row, 2) == LineWeight(l, row, 1) + CellWeight(l[1], row, 1);
      assert LineWeight(l, row, 3) == LineWeight(l, row, 2) + CellWeight(l[2], row, 2);
    }
  }

  /** The tile-position term lies between 0 and 1.5 times the tile sum. */
  lemma PositionBounds(b: Board)
    ensures 0.0 <= RowsWeight(b, 4) <= 1.5 * Sum(b) as real
  {
    LineWeightBounds(b[0], 0);
    LineWeightBounds(b[1], 1);
    LineWeightBounds(b[2], 2);
    LineWeightBounds(b[3], 3);
    assert RowsWeight(b, 4) == LineWeight(b[0], 0, 4) + LineWeight(b[1], 1, 4) + LineWeight(b[2], 2, 4) + LineWeight(b[3], 3, 4) by {
      assert RowsWeight(b, 1) == LineWeight(b[0], 0, 4);
      assert RowsWeight(b, 2) == RowsWeight(b, 1) + LineWeight(b[1], 1, 4);
      assert RowsWeight(b, 3) == RowsWeight(b, 2) + LineWeight(b[2], 2, 4);
    }
  }

  /** `evaluate_board` as the Python game computes it: the two whole-board reductions, then
      the row-major double loop of `TilePositions`. */
  method EvaluateBoard(b: Board) returns (overall: real)
    ensures overall == Evaluate(b)
  {
    // `np.sum(board)` and `np.sum(np.array(board) == 0)`, weighted 1.0 and 2.0
    var scoreEvaluation := Sum(b) as real * 1.0;
    var emptyCellsEvaluation := Empties(b) as real * 2.0;
    var tilePositionsEvaluation := TilePositions(b);
    overall := scoreEvaluation + emptyCellsEvaluation + tilePositionsEvaluation;
    EvaluateParts(b, scoreEvaluation, emptyCellsEvaluation, tilePositionsEvaluation);
  }

  /** The tile-position loop of `evaluate_board`: every tile adds its value times its
      row-major position times 0.1. */
  method TilePositions(b: Board) returns (positions: real)
    ensures positions == RowsWeight(b, 4)
  {
    var tilePositionsWeight := 0.1;
    positions := 0.0;
    var row := 0;
    while row < 4
      invariant row <= 4
      invariant positions == RowsWeight(b, row)
    {
      var col := 0;
      while col < 4
        invariant col <= 4
        invariant positions == RowsWeight(b, row) + LineWeight(b[row], row, col)
      {
        if b[row][col] != 0 {
          positions := positions + (b[row][col] * (row * 4 + col)) as real * tilePositionsWeight;
        }
        col := col + 1;
      }
      row := row + 1;
    }
  }

  lemma EvaluateParts(b: Board, scores: real, empties: real, positions: real)
    requires scores == Sum(b) as real * 1.0 && empties == Empties(b) as real * 2.0
    requires positions == RowsWeight(b, 4)
    ensures scores + empties + positions == Evaluate(b)
  {
  }

  /** The sampled direction d changes the board (the move is applied to a copy with
      score 0). */
  predicate Changes(b: Board, d: Direction)
  {
    Move(b, d, 0).moved
  }

  /** The heuristic value of the board after the sampled direction d. */
  function Value(b: Board, d: Direction): real
  {
    Evaluate(Move(b, d, 0).board)
  }

  /** The picker's view of the samples: `moves(d)` says whether direction d changes
      the board copy, `value(d)` is the copy's evaluation. Sample i is the one held
      after the first n draws: it moved, no moved sample scores higher, and every
      moved sample before it scores strictly lower, so ties go to the earliest. */
  predicate Held(samples: seq<Direction>, moves: Direction -> bool, value: Direction -> real, n: nat, i: nat)
    requires n <= |samples|
  {
    && i < n
    && moves(samples[i])
    && (forall j :: 0 <= j < n && moves(samples[j]) ==> value(samples[j]) <= value(samples[i]))
    && (forall j :: 0 <= j < i && moves(samples[j]) ==> value(samples[j]) < value(samples[i]))
  }

  /** The move function `get_move` samples: whether direction d changes a copy of `b`. */
  function MovesOf(b: Board): Direction -> bool
  {
    d => Changes(b, d)
  }

  /** The evaluation of the copy of `b` after direction d. */
  function ValueOf(b: Board): Direction -> real
  {
    d => Value(b, d)
  }

  /** `Held` for the move engine and the heuristic on board `b`. */
  predicate KeptAmong(b: Board, samples: seq<Direction>, n: nat, i: nat)
    requires n <= |samples|
  {
    Held(samples, MovesOf(b), ValueOf(b), n, i)
  }

  /** At most one sample is the earliest maximiser, so the contract of `GetMove` fixes
      which sample it returns. */
  lemma KeptIsUnique(b: Board, samples: seq<Direction>, n: nat, i: nat, k: nat)
    requires n <= |samples| && KeptAmong(b, samples, n, i) && KeptAmong(b, samples, n, k)
    ensures i == k
  {
  }

  /** The loop of `get_move` for any move function: a sample that moves replaces the
      held one when its evaluation is strictly greater. `None` stands for the Python game's
      `best_move = None` with `best_score = -inf`. */
  method PickBest(samples: seq<Direction>, moves: Direction -> bool, value: Direction -> real)
    returns (best: Option<Direction>, ghost kept: nat)
    ensures best.None? <==> forall i :: 0 <= i < |samples| ==> !moves(samples[i])
    ensures best.Some? ==> Held(samples, moves, value, |samples|, kept) && samples[kept] == best.value
  {
    best := None;
    var bestScore := 0.0;  // read only once `best` holds a move
    kept := 0;
    var k := 0;
    while k < |samples|
      invariant k <= |samples|
      invariant best.None? <==> forall j :: 0 <= j < k ==> !moves(samples[j])
      invariant best.Some? ==> Held(samples, moves, value, k, kept) && samples[kept] == best.value && bestScore == value(best.value)
    {
      var moveFunc := samples[k];
      if moves(moveFunc) {
        var score := value(moveFunc);
        if best.None? || score > bestScore {
          best, bestScore, kept := Some(moveFunc), score, k;
        }
      }
      k := k + 1;
    }
  }

  /** `get_move` over the given samples, each applied to a copy of the board with score 0. */
  method GetMove(b: Board, samples: seq<Direction>) returns (best: Option<Direction>)
    ensures best.None? <==> forall i :: 0 <= i < |samples| ==> !Changes(b, samples[i])
    ensures best.Some? ==> exists i :: 0 <= i < |samples| && samples[i] == best.value && KeptAmong(b, samples, |samples|, i)
  {
    ghost var kept;
    best, kept := PickBest(samples, MovesOf(b), ValueOf(b));
  }
}
