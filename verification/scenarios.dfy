/** Concrete boards that show how the loops of the move functions behave, where this
    differs from the usual rules of 2048. */
module Scenarios {
  import opened Grid
  import opened LineMove
  import opened Moves

  /** A tile moves at most one cell per move: the inner scan stops at the first
      neighbour it inspects. */
  lemma OneCellPerMove()
    ensures Slide([0, 0, 0, 2]).cells == [0, 0, 2, 0]
    ensures Slide([0, 0, 0, 2]).moved && Slide([0, 0, 0, 2]).gained == 0
  {
  }

  /** Two equal tiles separated by a gap do not merge in one move. */
  lemma GapBlocksMerge()
    ensures Slide([2, 0, 2, 0]).cells == [2, 2, 0, 0]
    ensures !Slide([2, 0, 2, 0]).merged && Slide([2, 0, 2, 0]).gained == 0
  {
  }

  /** At most one merge per line: the second pair only slides after the first merged. */
  lemma OneMergePerLine()
    ensures Slide([2, 2, 2, 2]).cells == [4, 2, 2, 0] && Slide([2, 2, 2, 2]).gained == 4
    ensures Slide([2, 2, 4, 4]).cells == [4, 4, 4, 0] && Slide([2, 2, 4, 4]).gained == 4
  {
    var l: Line := [2, 2, 2, 2];
    assert Step(Start(l), 1) == LineResult([4, 0, 2, 2], true, true, 4);
    assert Scan(l, 3) == LineResult([4, 2, 0, 2], true, true, 4);
    assert Scan(l, 4) == LineResult([4, 2, 2, 0], true, true, 4);
    var m: Line := [2, 2, 4, 4];
    assert Step(Start(m), 1) == LineResult([4, 0, 4, 4], true, true, 4);
    assert Scan(m, 3) == LineResult([4, 4, 0, 4], true, true, 4);
    assert Scan(m, 4) == LineResult([4, 4, 4, 0], true, true, 4);
  }

  /** The up move on a board whose only tiles sit side by side in the top row changes
      nothing, since each tile already rests against the wall. */
  lemma UpOnTopRow()
    ensures !Move([[2, 2, 0, 0], Blank, Blank, Blank], Up, 0).moved
  {
    var b: Board := [[2, 2, 0, 0], Blank, Blank, Blank];
    assert forall c :: 0 <= c < 4 ==> !CanSlide(Column(b, c));
  }

  /** The same board moved left merges the pair into the corner. */
  lemma LeftOnTopRow()
    ensures Move([[2, 2, 0, 0], Blank, Blank, Blank], Left, 0) == Outcome([[4, 0, 0, 0], Blank, Blank, Blank], true, 4)
  {
    var l: Line := [2, 2, 0, 0];
    assert Scan(l, 4) == LineResult([4, 0, 0, 0], true, true, 4);
    assert Scan(Blank, 4) == Start(Blank);
  }
}
