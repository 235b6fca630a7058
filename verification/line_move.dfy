/** The move engine on a single line, in the order the Python game's `move_left`
    loops process it.

    For a left move the column loop visits positions 1, 2, 3. At each position the
    inner `prev_col` scan ends in `break` in every branch, so a tile only ever looks
    at its neighbour one step toward the wall: it slides into that cell when it is
    empty, merges with it when it holds the same value and the line has not merged
    yet, and otherwise stays. Every other direction is this function applied to a
    reversed row, a column or a reversed column. */
module LineMove {
  import opened Grid

  /** The line as the scan leaves it, whether anything changed, whether the single
      merge of this line has happened, and the score the merges earned. */
  datatype LineResult = LineResult(cells: Line, moved: bool, merged: bool, gained: nat)

  /** The state before the scan starts. */
  function Start(l: Line): LineResult
  {
    LineResult(l, false, false, 0)
  }

  /** One iteration of the column loop at position `col` (1, 2 or 3). */
  function Step(s: LineResult, col: nat): LineResult
    requires 1 <= col < 4
  {
    var c := s.cells;
    if c[col] == 0 then s
    else if c[col - 1] == 0 then
      s.(cells := c[col - 1 := c[col]][col := 0], moved := true)
    else if c[col - 1] == c[col] && !s.merged then
      var doubled := 2 * c[col - 1];
      s.(cells := c[col - 1 := doubled][col := 0], moved := true, merged := true, gained := s.gained + doubled)
    else s
  }

  /** The state before position `col` is processed: positions 1 .. col - 1 are done. */
  function Scan(l: Line, col: nat): LineResult
    requires 1 <= col <= 4
  {
    if col == 1 then Start(l) else Step(Scan(l, col - 1), col - 1)
  }

  /** The tile at k + 1 can act on its neighbour k: slide into it or merge with it. */
  predicate PairActs(l: Line, k: nat)
    requires k < 3
  {
    l[k + 1] != 0 && (l[k] == 0 || l[k] == l[k + 1])
  }

  /** Some tile of the line can slide or merge toward index 0. */
  predicate CanSlide(l: Line)
  {
    exists k :: 0 <= k < 3 && PairActs(l, k)
  }

  /** The whole scan of one line toward index 0. */
  function Slide(l: Line): (r: LineResult)
    // the tile sum is conserved
    ensures LineSum(r.cells) == LineSum(l)
    // the tile count drops by one exactly when the line merged: at most one merge per line
    ensures LineCount(r.cells) + (if r.merged then 1 else 0) == LineCount(l)
    // the score gain is the value the merge wrote, and nothing without a merge
    ensures !r.merged ==> r.gained == 0
    ensures r.merged ==> exists i :: 0 <= i < 3 && l[i] != 0 && l[i] == l[i + 1] && r.cells[i] == 2 * l[i] && r.gained == r.cells[i]
    // a cell receives at most its own tile, its neighbour's, or the merge of the two:
    // nothing travels more than one cell
    ensures forall i :: 0 <= i < 3 ==> r.cells[i] == l[i] || r.cells[i] == l[i + 1] || (l[i] == l[i + 1] && r.cells[i] == l[i] + l[i + 1])
    ensures r.cells[3] == l[3] || r.cells[3] == 0
    // `moved` reports exactly a change, and exactly when some tile can act
    ensures r.moved <==> r.cells != l
    ensures r.moved <==> CanSlide(l)
    // a line that moved keeps an empty cell for the spawner
    ensures r.moved ==> LineCount(r.cells) < 4
    // powers of two stay powers of two
    ensures LineCells(l) ==> LineCells(r.cells)
  {
    var s1 := Step(Start(l), 1);
    var s2 := Step(s1, 2);
    var s3 := Step(s2, 3);
    assert Scan(l, 2) == s1 && Scan(l, 3) == s2 && Scan(l, 4) == s3;
    SlideBookkeeping(l, s1, s2, s3);
    SlideLocality(l, s1, s2, s3);
    SlideMoved(l, s1, s2, s3);
    Scan(l, 4)
  }

  // The contract of `Slide`, in three groups.

  lemma SlideBookkeeping(l: Line, s1: LineResult, s2: LineResult, s3: LineResult)
    requires s1 == Step(Start(l), 1) && s2 == Step(s1, 2) && s3 == Step(s2, 3)
    ensures LineSum(s3.cells) == LineSum(l)
    ensures LineCount(s3.cells) + (if s3.merged then 1 else 0) == LineCount(l)
    ensures !s3.merged ==> s3.gained == 0
    ensures s3.merged ==> exists i :: 0 <= i < 3 && l[i] != 0 && l[i] == l[i + 1] && s3.cells[i] == 2 * l[i] && s3.gained == s3.cells[i]
    ensures LineCells(l) ==> LineCells(s3.cells)
  {
  }

  lemma SlideLocality(l: Line, s1: LineResult, s2: LineResult, s3: LineResult)
    requires s1 == Step(Start(l), 1) && s2 == Step(s1, 2) && s3 == Step(s2, 3)
    ensures forall i :: 0 <= i < 3 ==> s3.cells[i] == l[i] || s3.cells[i] == l[i + 1] || (l[i] == l[i + 1] && s3.cells[i] == l[i] + l[i + 1])
    ensures s3.cells[3] == l[3] || s3.cells[3] == 0
  {
  }

  lemma SlideMoved(l: Line, s1: LineResult, s2: LineResult, s3: LineResult)
    requires s1 == Step(Start(l), 1) && s2 == Step(s1, 2) && s3 == Step(s2, 3)
    ensures s3.moved <==> s3.cells != l
    ensures s3.moved <==> CanSlide(l)
    ensures s3.moved ==> LineCount(s3.cells) < 4
  {
    assert CanSlide(l) <==> PairActs(l, 0) || PairActs(l, 1) || PairActs(l, 2);
  }
}
