/** The four move functions. Each returns the new board, whether anything moved and
    the running score plus what the merges earned. Left applies `LineMove.Slide` to
    every row; right, up and down are left seen through a mirror, a transposition and
    a vertical flip. */
module Moves {
  import opened Grid
  import opened LineMove

  datatype Direction = Up | Down | Left | Right

  /** The triple `(board, moved, score)` a move function returns. */
  datatype Outcome = Outcome(board: Board, moved: bool, score: nat)

  /** What every move guarantees about its outcome `o` from board `b` and score `score`. */
  predicate Conserves(b: Board, score: nat, o: Outcome)
  {
    // merges replace two tiles by one of the same total value
    && Sum(o.board) == Sum(b)
    // the score never decreases
    && score <= o.score
    // `moved` reports exactly a change of the board, and without one the score is kept
    && (o.moved <==> o.board != b)
    && (!o.moved ==> o.score == score)
    // tiles are lost only to merges, at most one per line
    && Count(o.board) <= Count(b) <= Count(o.board) + 4
    // the score grows exactly when some tiles merged
    && (o.score == score <==> Count(o.board) == Count(b))
    // after a real move there is room for the spawned tile
    && (o.moved ==> !Full(o.board))
    // every cell stays empty or a power of two
    && (AllCells(b) ==> AllCells(o.board))
  }

  /** The score earned by the merges of the first n lines of `lines`. */
  function Gains(lines: Board, n: nat): nat
    requires n <= 4
  {
    if n == 0 then 0 else Gains(lines, n - 1) + Slide(lines[n - 1]).gained
  }

  /** `move_left`: each row slides toward column 0, rows one after the other. */
  function MoveLeft(b: Board, score: nat): (o: Outcome)
    ensures forall i :: 0 <= i < 4 ==> o.board[i] == Slide(b[i]).cells
    ensures o.moved <==> exists i :: 0 <= i < 4 && Slide(b[i]).moved
    ensures o.score == score + Gains(b, 4)
    ensures Conserves(b, score, o)
  {
    var r0, r1, r2, r3 := Slide(b[0]), Slide(b[1]), Slide(b[2]), Slide(b[3]);
    var o := Outcome([r0.cells, r1.cells, r2.cells, r3.cells],
                     r0.moved || r1.moved || r2.moved || r3.moved,
                     score + r0.gained + r1.gained + r2.gained + r3.gained);
    AnyRowMoved(b, o.moved);
    assert Gains(b, 1) == r0.gained;
    assert Gains(b, 2) == r0.gained + r1.gained;
    assert Gains(b, 3) == r0.gained + r1.gained + r2.gained;
    assert Gains(b, 4) == r0.gained + r1.gained + r2.gained + r3.gained;
    LeftConserves(b, score, o);
    o
  }

  lemma AnyRowMoved(b: Board, moved: bool)
    requires moved == (Slide(b[0]).moved || Slide(b[1]).moved || Slide(b[2]).moved || Slide(b[3]).moved)
    ensures moved <==> exists i :: 0 <= i < 4 && Slide(b[i]).moved
  {
  }

  lemma LeftConserves(b: Board, score: nat, o: Outcome)
    requires forall i :: 0 <= i < 4 ==> o.board[i] == Slide(b[i]).cells
    requires o.moved <==> exists i :: 0 <= i < 4 && Slide(b[i]).moved
    requires o.score == score + Slide(b[0]).gained + Slide(b[1]).gained + Slide(b[2]).gained + Slide(b[3]).gained
    ensures Conserves(b, score, o)
  {
    assert o.moved <==> o.board != b by {
      if o.moved {
        var i :| 0 <= i < 4 && Slide(b[i]).moved;
        assert o.board[i] != b[i];
      } else {
        assert forall i :: 0 <= i < 4 ==> o.board[i] == b[i];
      }
    }
    if o.moved {
      var i :| 0 <= i < 4 && Slide(b[i]).moved;
      GapMeansNotFull(o.board, i);
    }
    forall i | 0 <= i < 4
      ensures Slide(b[i]).gained == 0 <==> !Slide(b[i]).merged
    {
      if Slide(b[i]).merged {
        var k :| 0 <= k < 3 && b[i][k] != 0 && b[i][k] == b[i][k + 1] && Slide(b[i]).cells[k] == 2 * b[i][k] && Slide(b[i]).gained == Slide(b[i]).cells[k];
      }
    }
    AllCellsByRows(b);
    AllCellsByRows(o.board);
  }

  /** Carries the guarantees of a move on a rearranged board back to the original board. */
  lemma Transfer(b: Board, score: nat, o: Outcome, orig: Board, image: Board)
    requires Conserves(b, score, o)
    requires Sum(orig) == Sum(b) && Count(orig) == Count(b) && (AllCells(orig) <==> AllCells(b))
    requires Sum(image) == Sum(o.board) && Count(image) == Count(o.board)
    requires (Full(image) <==> Full(o.board)) && (AllCells(image) <==> AllCells(o.board))
    requires image == orig <==> o.board == b
    ensures Conserves(orig, score, Outcome(image, o.moved, o.score))
  {
  }

  /** `move_right`: `move_left` on every row read from the right. */
  function MoveRight(b: Board, score: nat): (o: Outcome)
    ensures forall i :: 0 <= i < 4 ==> o.board[i] == Reverse(Slide(Reverse(b[i])).cells)
    ensures o.moved <==> exists i :: 0 <= i < 4 && Slide(Reverse(b[i])).moved
    ensures o.score == score + Gains(MirrorRows(b), 4)
    ensures Conserves(b, score, o)
  {
    var left := MoveLeft(MirrorRows(b), score);
    var o := Outcome(MirrorRows(left.board), left.moved, left.score);
    RightFacts(b, score, left, o);
    o
  }

  lemma RightFacts(b: Board, score: nat, left: Outcome, o: Outcome)
    requires forall i :: 0 <= i < 4 ==> left.board[i] == Slide(MirrorRows(b)[i]).cells
    requires left.moved <==> exists i :: 0 <= i < 4 && Slide(MirrorRows(b)[i]).moved
    requires Conserves(MirrorRows(b), score, left)
    requires o == Outcome(MirrorRows(left.board), left.moved, left.score)
    ensures forall i :: 0 <= i < 4 ==> o.board[i] == Reverse(Slide(Reverse(b[i])).cells)
    ensures o.moved <==> exists i :: 0 <= i < 4 && Slide(Reverse(b[i])).moved
    ensures Conserves(b, score, o)
  {
    RightShape(b, left, o);
    MeasuresOfRearrangements(b);
    MeasuresOfRearrangements(left.board);
    CellsOfRearrangements(b);
    CellsOfRearrangements(left.board);
    RearrangeTwice(b);
    RearrangeTwice(left.board);
    Transfer(MirrorRows(b), score, left, b, o.board);
  }

  lemma RightShape(b: Board, left: Outcome, o: Outcome)
    requires forall i :: 0 <= i < 4 ==> left.board[i] == Slide(MirrorRows(b)[i]).cells
    requires left.moved <==> exists i :: 0 <= i < 4 && Slide(MirrorRows(b)[i]).moved
    requires o == Outcome(MirrorRows(left.board), left.moved, left.score)
    ensures forall i :: 0 <= i < 4 ==> o.board[i] == Reverse(Slide(Reverse(b[i])).cells)
    ensures o.moved <==> exists i :: 0 <= i < 4 && Slide(Reverse(b[i])).moved
  {
    assert forall i :: 0 <= i < 4 ==> MirrorRows(b)[i] == Reverse(b[i]);
  }

  /** `move_up`: `move_left` on the transposed board, so every column slides toward row 0. */
  function MoveUp(b: Board, score: nat): (o: Outcome)
    ensures forall c :: 0 <= c < 4 ==> Column(o.board, c) == Slide(Column(b, c)).cells
    ensures o.moved <==> exists c :: 0 <= c < 4 && Slide(Column(b, c)).moved
    ensures o.score == score + Gains(Transpose(b), 4)
    ensures Conserves(b, score, o)
  {
    var left := MoveLeft(Transpose(b), score);
    var o := Outcome(Transpose(left.board), left.moved, left.score);
    UpFacts(b, score, left, o);
    o
  }

  lemma UpFacts(b: Board, score: nat, left: Outcome, o: Outcome)
    requires forall i :: 0 <= i < 4 ==> left.board[i] == Slide(Transpose(b)[i]).cells
    requires left.moved <==> exists i :: 0 <= i < 4 && Slide(Transpose(b)[i]).moved
    requires Conserves(Transpose(b), score, left)
    requires o == Outcome(Transpose(left.board), left.moved, left.score)
    ensures forall c :: 0 <= c < 4 ==> Column(o.board, c) == Slide(Column(b, c)).cells
    ensures o.moved <==> exists c :: 0 <= c < 4 && Slide(Column(b, c)).moved
    ensures Conserves(b, score, o)
  {
    UpShape(b, left, o);
    MeasuresOfRearrangements(b);
    MeasuresOfRearrangements(left.board);
    CellsOfRearrangements(b);
    CellsOfRearrangements(left.board);
    RearrangeTwice(b);
    RearrangeTwice(left.board);
    Transfer(Transpose(b), score, left, b, o.board);
  }

  lemma UpShape(b: Board, left: Outcome, o: Outcome)
    requires forall i :: 0 <= i < 4 ==> left.board[i] == Slide(Transpose(b)[i]).cells
    requires left.moved <==> exists i :: 0 <= i < 4 && Slide(Transpose(b)[i]).moved
    requires o == Outcome(Transpose(left.board), left.moved, left.score)
    ensures forall c :: 0 <= c < 4 ==> Column(o.board, c) == Slide(Column(b, c)).cells
    ensures o.moved <==> exists c :: 0 <= c < 4 && Slide(Column(b, c)).moved
  {
    forall c | 0 <= c < 4
      ensures Transpose(b)[c] == Column(b, c) && Column(o.board, c) == left.board[c]
    {
      ColumnOfTranspose(b, c);
      ColumnOfTranspose(left.board, c);
    }
  }

  /** `move_down`: `move_up` on the board turned upside down. */
  function MoveDown(b: Board, score: nat): (o: Outcome)
    ensures forall c :: 0 <= c < 4 ==> Column(o.board, c) == Reverse(Slide(Reverse(Column(b, c))).cells)
    ensures o.moved <==> exists c :: 0 <= c < 4 && Slide(Reverse(Column(b, c))).moved
    ensures o.score == score + Gains(Transpose(FlipRows(b)), 4)
    ensures Conserves(b, score, o)
  {
    var up := MoveUp(FlipRows(b), score);
    var o := Outcome(FlipRows(up.board), up.moved, up.score);
    DownFacts(b, score, up, o);
    o
  }

  lemma DownFacts(b: Board, score: nat, up: Outcome, o: Outcome)
    requires forall c :: 0 <= c < 4 ==> Column(up.board, c) == Slide(Column(FlipRows(b), c)).cells
    requires up.moved <==> exists c :: 0 <= c < 4 && Slide(Column(FlipRows(b), c)).moved
    requires Conserves(FlipRows(b), score, up)
    requires o == Outcome(FlipRows(up.board), up.moved, up.score)
    ensures forall c :: 0 <= c < 4 ==> Column(o.board, c) == Reverse(Slide(Reverse(Column(b, c))).cells)
    ensures o.moved <==> exists c :: 0 <= c < 4 && Slide(Reverse(Column(b, c))).moved
    ensures Conserves(b, score, o)
  {
    var f := FlipRows(b);
    MeasuresOfRearrangements(b);
    MeasuresOfRearrangements(up.board);
    CellsOfRearrangements(b);
    CellsOfRearrangements(up.board);
    RearrangeTwice(b);
    RearrangeTwice(up.board);
    Transfer(f, score, up, b, o.board);
    forall c | 0 <= c < 4
      ensures Column(o.board, c) == Reverse(Slide(Reverse(Column(b, c))).cells)
      ensures Column(f, c) == Reverse(Column(b, c))
    {
      ColumnOfFlip(b, c);
      ColumnOfFlip(up.board, c);
      ReverseTwice(Column(up.board, c));
    }
  }

  /** The move engine entry point. */
  function Move(b: Board, d: Direction, score: nat): (o: Outcome)
    ensures Conserves(b, score, o)
  {
    match d
    case Up => MoveUp(b, score)
    case Down => MoveDown(b, score)
    case Left => MoveLeft(b, score)
    case Right => MoveRight(b, score)
  }
}
