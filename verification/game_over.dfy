/** The end-of-game test `is_board_full(board) and not valid_moves_exist(board)`
    compared with what the move engine can still do. */
module GameOver {
  import opened Grid
  import opened LineMove
  import opened Moves

  /** A full line without two equal neighbours cannot act in either direction. */
  lemma StuckLine(l: Line)
    requires forall k :: 0 <= k < 4 ==> l[k] != 0
    requires forall k :: 0 <= k < 3 ==> l[k] != l[k + 1]
    ensures !Slide(l).moved && !Slide(Reverse(l)).moved
  {
    var r := Reverse(l);
    assert forall k :: 0 <= k < 3 ==> !PairActs(r, k) by {
      forall k | 0 <= k < 3 ensures !PairActs(r, k) {
        assert r[k] == l[3 - k] && r[k + 1] == l[2 - k];
      }
    }
  }

  /** On a terminal board no direction moves, whatever the score: the state the game
      loop declares over is one where every move returns `moved = false`. */
  lemma TerminalBlocksMoves(b: Board, d: Direction, score: nat)
    requires Terminal(b)
    ensures !Move(b, d, score).moved
  {
    forall i | 0 <= i < 4
      ensures !Slide(b[i]).moved && !Slide(Reverse(b[i])).moved
    {
      forall k | 0 <= k < 3 ensures b[i][k] != b[i][k + 1] {
        assert !NeighboursEqual(b, i, k);
      }
      StuckLine(b[i]);
    }
    forall c | 0 <= c < 4
      ensures !Slide(Column(b, c)).moved && !Slide(Reverse(Column(b, c))).moved
    {
      forall k | 0 <= k < 3 ensures b[k][c] != b[k + 1][c] {
        assert !NeighboursEqual(b, k, c);
      }
      StuckLine(Column(b, c));
    }
  }

  /** An empty cell somewhere before a tile lets some tile act toward index 0. */
  lemma {:induction false} GapBeforeTile(l: Line, z: nat, t: nat)
    requires z < t < 4 && l[z] == 0 && l[t] != 0
    ensures CanSlide(l)
    decreases t - z
  {
    if l[z + 1] != 0 {
      assert PairActs(l, z);
    } else {
      GapBeforeTile(l, z + 1, t);
    }
  }

  /** A line holding both an empty cell and a tile moves to one side or the other. */
  lemma GapAndTile(l: Line, z: nat, t: nat)
    requires z < 4 && t < 4 && l[z] == 0 && l[t] != 0
    ensures Slide(l).moved || Slide(Reverse(l)).moved
  {
    if z < t {
      GapBeforeTile(l, z, t);
    } else {
      GapBeforeTile(Reverse(l), 3 - z, 3 - t);
    }
  }

  lemma SomeTile(b: Board)
    requires Count(b) > 0
    ensures exists i, j :: 0 <= i < 4 && 0 <= j < 4 && b[i][j] != 0
  {
    var i :| 0 <= i < 4 && LineCount(b[i]) > 0;
    var j :| 0 <= j < 4 && b[i][j] != 0;
  }

  /** A row that can act to one side makes the left or the right move report a move. */
  lemma RowMoves(b: Board, i: nat)
    requires i < 4 && (Slide(b[i]).moved || Slide(Reverse(b[i])).moved)
    ensures Move(b, Left, 0).moved || Move(b, Right, 0).moved
  {
  }

  /** A column that can act to one side makes the up or the down move report a move. */
  lemma ColumnMoves(b: Board, c: nat)
    requires c < 4 && (Slide(Column(b, c)).moved || Slide(Reverse(Column(b, c))).moved)
    ensures Move(b, Up, 0).moved || Move(b, Down, 0).moved
  {
  }

  /** A board with a tile that is not terminal always admits some move. */
  lemma LiveBoardMoves(b: Board)
    requires Count(b) > 0 && !Terminal(b)
    ensures exists d :: Move(b, d, 0).moved
  {
    if !Full(b) {
      var i, j :| 0 <= i < 4 && 0 <= j < 4 && b[i][j] == 0;
      SomeTile(b);
      var p, q :| 0 <= p < 4 && 0 <= q < 4 && b[p][q] != 0;
      if b[i][q] != 0 {
        GapAndTile(b[i], j, q);
        RowMoves(b, i);
      } else {
        GapAndTile(Column(b, q), i, p);
        ColumnMoves(b, q);
      }
    } else {
      var i, j :| 0 <= i < 4 && 0 <= j < 4 && NeighboursEqual(b, i, j);
      if j < 3 && b[i][j] == b[i][j + 1] {
        assert PairActs(b[i], j);
        RowMoves(b, i);
      } else {
        assert PairActs(Column(b, j), i);
        ColumnMoves(b, j);
      }
    }
  }

  /** For every board with at least one tile, the game-over test holds exactly when
      no direction moves. */
  lemma GameOverIffNoMove(b: Board)
    requires Count(b) > 0
    ensures Terminal(b) <==> forall d :: !Move(b, d, 0).moved
  {
    if Terminal(b) {
      forall d ensures !Move(b, d, 0).moved {
        TerminalBlocksMoves(b, d, 0);
      }
    } else {
      LiveBoardMoves(b);
    }
  }

  /** The tile is needed above: the empty board fails the game-over test, yet nothing
      on it can move. The game never reaches it, since it starts with two tiles. */
  lemma EmptyBoardIsStuck(d: Direction)
    ensures !Terminal(EmptyBoard())
    ensures !Move(EmptyBoard(), d, 0).moved
  {
    var e := EmptyBoard();
    assert e[0][0] == e[0][1];
    assert NeighboursEqual(e, 0, 0);
    assert !CanSlide(Blank);
    assert forall c :: 0 <= c < 4 ==> Column(e, c) == Blank && Reverse(Column(e, c)) == Blank;
    assert forall i :: 0 <= i < 4 ==> e[i] == Blank && Reverse(e[i]) == Blank;
  }
}
