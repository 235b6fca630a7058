/** The four move functions as the Python game writes them: nested loops updating the
    board cell by cell, one `merged` flag per line and one `moved` flag and score for
    the whole board. Each is proved to compute exactly the derived move of `Moves`,
    which is how the mirror relations between the directions are established.

    The innermost loop (`for prev_col in range(col - 1, -1, -1)` and its row
    counterparts) ends in `break` in each of its three branches, so its body runs once,
    on the neighbour one step toward the wall; it is written here as that single
    three-way test. */
module MoveLoops {
  import opened Grid
  import opened LineMove
  import opened Moves

  /** One more line scanned adds that line's gain to `Gains`. */
  lemma GainsStep(lines: Board, n: nat)
    requires n < 4
    ensures Gains(lines, n + 1) == Gains(lines, n) + Scan(lines[n], 4).gained
  {
    assert Slide(lines[n]) == Scan(lines[n], 4);
  }

  /** The running totals of the loops, once all four lines are done, are those of `MoveLeft`. */
  lemma AllLinesDone(lines: Board, score: nat, b: Board, moved: bool, s: nat)
    requires forall k :: 0 <= k < 4 ==> b[k] == Scan(lines[k], 4).cells
    requires moved <==> exists k :: 0 <= k < 4 && Scan(lines[k], 4).moved
    requires s == score + Gains(lines, 4)
    ensures Outcome(b, moved, s) == MoveLeft(lines, score)
  {
    var o := MoveLeft(lines, score);
    BoardsDone(lines, score, b);
    MovedDone(lines, score, moved);
    assert o == Outcome(o.board, o.moved, o.score);
  }

  lemma BoardsDone(lines: Board, score: nat, b: Board)
    requires forall k :: 0 <= k < 4 ==> b[k] == Scan(lines[k], 4).cells
    ensures MoveLeft(lines, score).board == b
  {
  }

  lemma MovedDone(lines: Board, score: nat, moved: bool)
    requires moved <==> exists k :: 0 <= k < 4 && Scan(lines[k], 4).moved
    ensures MoveLeft(lines, score).moved == moved
  {
  }

  /** The inner column loop of `move_left` on one row: columns 1, 2, 3 each look at
      column - 1, with this row's own `merged` flag. */
  method LeftRow(row: Line) returns (line: Line, moved: bool, gained: nat)
    ensures line == Scan(row, 4).cells
    ensures moved == Scan(row, 4).moved && gained == Scan(row, 4).gained
  {
    var merged, col := false, 1;
    line, moved, gained := row, false, 0;
    while col < 4
      invariant 1 <= col <= 4
      invariant Scan(row, col) == LineResult(line, moved, merged, gained)
    {
      if line[col] != 0 {
        // `for prev_col in range(col - 1, -1, -1)`: every branch ends in `break`,
        // so only the neighbour at col - 1 is ever examined.
        var prev := col - 1;
        if line[prev] == 0 {
          line := line[prev := line[col]][col := 0];
          moved := true;
        } else if line[prev] == line[col] && !merged {
          line := line[prev := line[prev] * 2][col := 0];
          gained := gained + line[prev];
          moved := true;
          merged := true;
        }
      }
      col := col + 1;
    }
  }

  /** `move_left`: rows 0..3, each scanned by `LeftRow`, with one `moved` flag and one
      running score for the whole board. */
  method MoveLeftLoop(board: Board, score: nat) returns (b: Board, moved: bool, s: nat)
    ensures Outcome(b, moved, s) == MoveLeft(board, score)
  {
    b, moved, s := board, false, score;
    var row := 0;
    while row < 4
      invariant row <= 4
      invariant forall k :: 0 <= k < row ==> b[k] == Scan(board[k], 4).cells
      invariant forall k :: row <= k < 4 ==> b[k] == board[k]
      invariant moved <==> exists k :: 0 <= k < row && Scan(board[k], 4).moved
      invariant s == score + Gains(board, row)
    {
      var line, rowMoved, gained := LeftRow(b[row]);
      b := b[row := line];
      moved := moved || rowMoved;
      GainsStep(board, row);
      s := s + gained;
      row := row + 1;
    }
    AllLinesDone(board, score, b, moved, s);
  }

  /** One step of the scan toward index 3 on `c` is one step of the left scan on the
      mirrored line `st.cells`. */
  lemma MirroredStep(c: Line, st: LineResult, col: nat)
    requires col < 3 && Reverse(c) == st.cells
    ensures c[col] == 0 ==> Step(st, 3 - col) == st
    ensures c[col] != 0 && c[col + 1] == 0 ==>
      Step(st, 3 - col) == st.(cells := Reverse(c[col + 1 := c[col]][col := 0]), moved := true)
    ensures c[col] != 0 && c[col + 1] != 0 && c[col + 1] == c[col] && !st.merged ==>
      Step(st, 3 - col) == st.(cells := Reverse(c[col + 1 := c[col + 1] * 2][col := 0]), moved := true,
                               merged := true, gained := st.gained + c[col + 1] * 2)
    ensures c[col] != 0 && c[col + 1] != 0 && (c[col + 1] != c[col] || st.merged) ==> Step(st, 3 - col) == st
  {
    assert st.cells[3 - col] == c[col] && st.cells[2 - col] == c[col + 1];
  }

  /** The inner column loop of `move_right` on one row: columns 2, 1, 0 each look at
      column + 1, with this row's own `merged` flag. */
  method RightRow(row: Line) returns (line: Line, moved: bool, gained: nat)
    ensures Reverse(line) == Scan(Reverse(row), 4).cells
    ensures moved == Scan(Reverse(row), 4).moved && gained == Scan(Reverse(row), 4).gained
  {
    ghost var mirrored := Reverse(row);
    var merged, col := false, 2;
    line, moved, gained := row, false, 0;
    while col >= 0
      invariant -1 <= col <= 2
      invariant Scan(mirrored, 3 - col) == LineResult(Reverse(line), moved, merged, gained)
    {
      MirroredStep(line, Scan(mirrored, 3 - col), col);
      if line[col] != 0 {
        // `for prev_col in range(col + 1, 4)`: every branch ends in `break`.
        var prev := col + 1;
        if line[prev] == 0 {
          line := line[prev := line[col]][col := 0];
          moved := true;
        } else if line[prev] == line[col] && !merged {
          line := line[prev := line[prev] * 2][col := 0];
          gained := gained + line[prev];
          moved := true;
          merged := true;
        }
      }
      col := col - 1;
    }
  }

  /** `move_right`: rows 0..3, each scanned by `RightRow`, with one `moved` flag and one
      running score for the whole board. Read from the right, each row's scan is the
      left scan of the mirrored row. */
  method MoveRightLoop(board: Board, score: nat) returns (b: Board, moved: bool, s: nat)
    ensures Outcome(b, moved, s) == MoveRight(board, score)
  {
    ghost var lines := MirrorRows(board);
    assert forall k :: 0 <= k < 4 ==> lines[k] == Reverse(board[k]);
    b, moved, s := board, false, score;
    var row := 0;
    while row < 4
      invariant row <= 4
      invariant forall k :: 0 <= k < row ==> Reverse(b[k]) == Scan(lines[k], 4).cells
      invariant forall k :: row <= k < 4 ==> b[k] == board[k]
      invariant moved <==> exists k :: 0 <= k < row && Scan(lines[k], 4).moved
      invariant s == score + Gains(lines, row)
    {
      var line, rowMoved, gained := RightRow(b[row]);
      b := b[row := line];
      moved := moved || rowMoved;
      GainsStep(lines, row);
      s := s + gained;
      row := row + 1;
    }
    RightDone(board, score, b, moved, s);
  }

  /** The totals of the row loop of `move_right`, once all rows are done, are `MoveRight`. */
  lemma RightDone(board: Board, score: nat, b: Board, moved: bool, s: nat)
    requires forall k :: 0 <= k < 4 ==> Reverse(b[k]) == Scan(MirrorRows(board)[k], 4).cells
    requires moved <==> exists k :: 0 <= k < 4 && Scan(MirrorRows(board)[k], 4).moved
    requires s == score + Gains(MirrorRows(board), 4)
    ensures Outcome(b, moved, s) == MoveRight(board, score)
  {
    var left := MoveLeft(MirrorRows(board), score);
    assert forall k :: 0 <= k < 4 ==> MirrorRows(b)[k] == Reverse(b[k]);
    AllLinesDone(MirrorRows(board), score, MirrorRows(b), moved, s);
    RearrangeTwice(b);
    assert MoveRight(board, score) == Outcome(MirrorRows(left.board), left.moved, left.score);
  }

  /** The inner row loop of `move_up` on column `col`: rows 1, 2, 3 each look at
      row - 1, with this column's own `merged` flag. */
  method UpColumn(board: Board, col: nat) returns (b: Board, moved: bool, gained: nat)
    requires col < 4
    ensures Column(b, col) == Scan(Column(board, col), 4).cells
    ensures moved == Scan(Column(board, col), 4).moved && gained == Scan(Column(board, col), 4).gained
    ensures forall i, j :: 0 <= i < 4 && 0 <= j < 4 && j != col ==> b[i][j] == board[i][j]
  {
    ghost var line := Column(board, col);
    var merged, row := false, 1;
    b, moved, gained := board, false, 0;
    while row < 4
      invariant 1 <= row <= 4
      invariant Scan(line, row) == LineResult(Column(b, col), moved, merged, gained)
      invariant forall i, j :: 0 <= i < 4 && 0 <= j < 4 && j != col ==> b[i][j] == board[i][j]
    {
      if b[row][col] != 0 {
        // `for prev_row in range(row - 1, -1, -1)`: every branch ends in `break`.
        var prev := row - 1;
        if b[prev][col] == 0 {
          b := Set(b, prev, col, b[row][col]);
          b := Set(b, row, col, 0);
          moved := true;
        } else if b[prev][col] == b[row][col] && !merged {
          b := Set(b, prev, col, b[prev][col] * 2);
          b := Set(b, row, col, 0);
          gained := gained + b[prev][col];
          moved := true;
          merged := true;
        }
      }
      row := row + 1;
    }
  }

  /** `move_up`: columns 0..3, each scanned by `UpColumn`. */
  method MoveUpLoop(board: Board, score: nat) returns (b: Board, moved: bool, s: nat)
    ensures Outcome(b, moved, s) == MoveUp(board, score)
  {
    ghost var lines := Transpose(board);
    b, moved, s := board, false, score;
    var col := 0;
    while col < 4
      invariant col <= 4
      invariant forall k :: 0 <= k < col ==> Column(b, k) == Scan(Column(board, k), 4).cells
      invariant forall i, k :: 0 <= i < 4 && col <= k < 4 ==> b[i][k] == board[i][k]
      invariant moved <==> exists k :: 0 <= k < col && Scan(Column(board, k), 4).moved
      invariant s == score + Gains(lines, col)
    {
      ColumnOfTranspose(board, col);
      var colMoved, gained;
      b, colMoved, gained := UpColumn(b, col);
      moved := moved || colMoved;
      GainsStep(lines, col);
      s := s + gained;
      col := col + 1;
    }
    UpDone(board, score, b, moved, s);
  }

  /** The totals of the column loop of `move_up`, once all columns are done, are `MoveUp`. */
  lemma UpDone(board: Board, score: nat, b: Board, moved: bool, s: nat)
    requires forall k :: 0 <= k < 4 ==> Column(b, k) == Scan(Column(board, k), 4).cells
    requires moved <==> exists k :: 0 <= k < 4 && Scan(Column(board, k), 4).moved
    requires s == score + Gains(Transpose(board), 4)
    ensures Outcome(b, moved, s) == MoveUp(board, score)
  {
    var left := MoveLeft(Transpose(board), score);
    forall k | 0 <= k < 4
      ensures Transpose(b)[k] == Scan(Transpose(board)[k], 4).cells
      ensures Transpose(board)[k] == Column(board, k)
    {
      ColumnOfTranspose(b, k);
      ColumnOfTranspose(board, k);
    }
    AllLinesDone(Transpose(board), score, Transpose(b), moved, s);
    RearrangeTwice(b);
    assert MoveUp(board, score) == Outcome(Transpose(left.board), left.moved, left.score);
  }

  /** The inner row loop of `move_down` on column `col`: rows 2, 1, 0 each look at
      row + 1, with this column's own `merged` flag. Read from the bottom, that is the
      left scan of the reversed column. */
  method DownColumn(board: Board, col: nat) returns (b: Board, moved: bool, gained: nat)
    requires col < 4
    ensures Reverse(Column(b, col)) == Scan(Reverse(Column(board, col)), 4).cells
    ensures moved == Scan(Reverse(Column(board, col)), 4).moved
    ensures gained == Scan(Reverse(Column(board, col)), 4).gained
    ensures forall i, j :: 0 <= i < 4 && 0 <= j < 4 && j != col ==> b[i][j] == board[i][j]
  {
    ghost var line := Reverse(Column(board, col));
    var merged, row := false, 2;
    b, moved, gained := board, false, 0;
    while row >= 0
      invariant -1 <= row <= 2
      invariant Scan(line, 3 - row) == LineResult(Reverse(Column(b, col)), moved, merged, gained)
      invariant forall i, j :: 0 <= i < 4 && 0 <= j < 4 && j != col ==> b[i][j] == board[i][j]
    {
      MirroredStep(Column(b, col), Scan(line, 3 - row), row);
      if b[row][col] != 0 {
        // `for prev_row in range(row + 1, 4)`: every branch ends in `break`.
        var prev := row + 1;
        if b[prev][col] == 0 {
          b := Set(b, prev, col, b[row][col]);
          b := Set(b, row, col, 0);
          moved := true;
        } else if b[prev][col] == b[row][col] && !merged {
          b := Set(b, prev, col, b[prev][col] * 2);
          b := Set(b, row, col, 0);
          gained := gained + b[prev][col];
          moved := true;
          merged := true;
        }
      }
      row := row - 1;
    }
  }

  /** `move_down`: columns 0..3, each scanned by `DownColumn`. */
  method MoveDownLoop(board: Board, score: nat) returns (b: Board, moved: bool, s: nat)
    ensures Outcome(b, moved, s) == MoveDown(board, score)
  {
    ghost var lines := Transpose(FlipRows(board));
    b, moved, s := board, false, score;
    var col := 0;
    while col < 4
      invariant col <= 4
      invariant forall k :: 0 <= k < col ==> Reverse(Column(b, k)) == Scan(Reverse(Column(board, k)), 4).cells
      invariant forall i, k :: 0 <= i < 4 && col <= k < 4 ==> b[i][k] == board[i][k]
      invariant moved <==> exists k :: 0 <= k < col && Scan(Reverse(Column(board, k)), 4).moved
      invariant s == score + Gains(lines, col)
    {
      ColumnOfTranspose(FlipRows(board), col);
      ColumnOfFlip(board, col);
      var colMoved, gained;
      b, colMoved, gained := DownColumn(b, col);
      moved := moved || colMoved;
      GainsStep(lines, col);
      s := s + gained;
      col := col + 1;
    }
    DownDone(board, score, b, moved, s);
  }

  /** The totals of the column loop of `move_down`, once all columns are done, are
      `MoveDown`. */
  lemma DownDone(board: Board, score: nat, b: Board, moved: bool, s: nat)
    requires forall k :: 0 <= k < 4 ==> Reverse(Column(b, k)) == Scan(Reverse(Column(board, k)), 4).cells
    requires moved <==> exists k :: 0 <= k < 4 && Scan(Reverse(Column(board, k)), 4).moved
    requires s == score + Gains(Transpose(FlipRows(board)), 4)
    ensures Outcome(b, moved, s) == MoveDown(board, score)
  {
    var lines := Transpose(FlipRows(board));
    var done := Transpose(FlipRows(b));
    forall k | 0 <= k < 4
      ensures done[k] == Scan(lines[k], 4).cells
      ensures lines[k] == Reverse(Column(board, k))
    {
      ColumnOfTranspose(FlipRows(b), k);
      ColumnOfTranspose(FlipRows(board), k);
      ColumnOfFlip(b, k);
      ColumnOfFlip(board, k);
    }
    AllLinesDone(lines, score, done, moved, s);
    var left := MoveLeft(lines, score);
    RearrangeTwice(FlipRows(b));
    RearrangeTwice(b);
    assert MoveUp(FlipRows(board), score) == Outcome(Transpose(left.board), left.moved, left.score);
    assert MoveDown(board, score) == Outcome(FlipRows(Transpose(left.board)), left.moved, left.score);
  }

  /** The move function a direction names, run as the Python game runs it. */
  method MoveLoop(board: Board, d: Direction, score: nat) returns (b: Board, moved: bool, s: nat)
    ensures Outcome(b, moved, s) == Move(board, d, score)
  {
    match d
    case Up => b, moved, s := MoveUpLoop(board, score);
    case Down => b, moved, s := MoveDownLoop(board, score);
    case Left => b, moved, s := MoveLeftLoop(board, score);
    case Right => b, moved, s := MoveRightLoop(board, score);
  }
}
