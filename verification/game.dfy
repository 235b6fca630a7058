/** The state `main_game_loop` keeps between frames and the handlers that change it:
    the start and the restart, one move with its spawn (an arrow key in the manual game,
    the chosen sample in the AI game), the AI turn and the end-of-frame game-over test. */
module Game {
  import opened Grid
  import opened Moves
  import opened Spawn
  import opened Agent
  import opened GameOver

  /** `board`, `current_score`, `best_score` and `game_over`. */
  datatype State = State(board: Board, score: nat, best: nat, over: bool)

  /** The keys the manual game reacts to; every other key is ignored. */
  datatype Key = ArrowUp | ArrowDown | ArrowLeft | ArrowRight | Enter | Other

  /** What holds after every frame: the cells are empty or powers of two, some tile is
      on the board, and the game is over only on a terminal board whose score has
      already been folded into the best score. */
  predicate Valid(g: State)
  {
    && AllCells(g.board)
    && Count(g.board) > 0
    && (g.over ==> Terminal(g.board) && g.score <= g.best)
  }

  /** A fresh game: two tiles spawned onto the empty board, score 0, best score kept. */
  function NewGame(best: nat, pick1: nat, four1: bool, pick2: nat, four2: bool): (g: State)
    ensures Valid(g) && !g.over && g.score == 0 && g.best == best
    ensures Count(g.board) == 2 && Sum(g.board) == TileValue(four1) + TileValue(four2)
  {
    State(NewBoard(pick1, four1, pick2, four2), 0, best, false)
  }

  /** The state the program starts in. */
  function Start(pick1: nat, four1: bool, pick2: nat, four2: bool): (g: State)
    ensures Valid(g) && !g.over && g.score == 0 && g.best == 0 && Count(g.board) == 2
  {
    NewGame(0, pick1, four1, pick2, four2)
  }

  /** ENTER restarts only on the game-over screen; the best score survives. */
  function Restart(g: State, pick1: nat, four1: bool, pick2: nat, four2: bool): (r: State)
    ensures !g.over ==> r == g
    ensures g.over ==> !r.over && r.score == 0 && r.best == g.best && Count(r.board) == 2
    ensures Valid(g) ==> Valid(r)
  {
    if g.over then NewGame(g.best, pick1, four1, pick2, four2) else g
  }

  /** A move's board and flag do not depend on the score passed in, and the score it
      returns is that score plus what the merges earned. */
  lemma ScoreIsCarried(b: Board, d: Direction, score: nat)
    ensures Move(b, d, score).board == Move(b, d, 0).board
    ensures Move(b, d, score).moved == Move(b, d, 0).moved
    ensures Move(b, d, score).score == score + Move(b, d, 0).score
  {
  }

  /** A move on a live game followed by `add_new_tile` exactly when it moved. */
  function Play(g: State, d: Direction, pick: nat, four: bool): (r: State)
    ensures g.over ==> r == g
    // a move that changes nothing spawns nothing and keeps the score
    ensures !g.over && !Changes(g.board, d) ==> r == g
    // a move that changes the board is followed by exactly one new tile
    ensures !g.over && Changes(g.board, d) ==>
              && Count(r.board) == Count(Move(g.board, d, 0).board) + 1
              && Sum(r.board) == Sum(g.board) + TileValue(four)
              && r.score == g.score + Move(g.board, d, 0).score
    ensures r.best == g.best && r.over == g.over
    ensures Valid(g) ==> Valid(r)
  {
    if g.over then g
    else
      var o := Move(g.board, d, g.score);
      ScoreIsCarried(g.board, d, g.score);
      TilesIffPositiveSum(g.board);
      TilesIffPositiveSum(o.board);
      if o.moved then g.(board := AddNewTile(o.board, pick, four), score := o.score)
      else g.(board := o.board, score := o.score)
  }

  /** The direction an arrow key selects. */
  function Arrow(k: Key): (d: Option<Direction>)
    ensures d.None? <==> k == Enter || k == Other
  {
    match k
    case ArrowUp => Some(Up)
    case ArrowDown => Some(Down)
    case ArrowLeft => Some(Left)
    case ArrowRight => Some(Right)
    case Enter => None
    case Other => None
  }

  /** A key press in the manual game: ENTER restarts a finished game, an arrow plays on
      a live one, and anything else changes nothing. */
  function KeyPress(g: State, k: Key, pick: nat, four: bool, pick1: nat, four1: bool, pick2: nat, four2: bool): (r: State)
    ensures g.over && k != Enter ==> r == g
    ensures !g.over && Arrow(k).None? ==> r == g
    ensures g.over && k == Enter ==> r == NewGame(g.best, pick1, four1, pick2, four2)
    ensures !g.over && Arrow(k).Some? ==> r == Play(g, Arrow(k).value, pick, four)
    ensures Valid(g) ==> Valid(r)
  {
    if g.over then
      if k == Enter then Restart(g, pick1, four1, pick2, four2) else g
    else
      match Arrow(k)
      case Some(d) => Play(g, d, pick, four)
      case None => g
  }

  /** The end-of-frame test: a live game whose board is terminal ends, and its score is
      folded into the best score. */
  function CheckGameOver(g: State): (r: State)
    ensures r.board == g.board && r.score == g.score
    ensures r.over <==> g.over || Terminal(g.board)
    ensures g.over || !Terminal(g.board) ==> r == g
    ensures r.best >= g.best
    ensures !g.over && Terminal(g.board) ==> r.best == (if g.score > g.best then g.score else g.best)
    ensures Valid(g) ==> Valid(r)
  {
    if !g.over && Full(g.board) && !HasEqualNeighbours(g.board) then
      g.(over := true, best := if g.score > g.best then g.score else g.best)
    else g
  }

  /** The same test through the loops of `is_board_full` and `valid_moves_exist`. */
  method GameOverCheck(g: State) returns (r: State)
    ensures r == CheckGameOver(g)
  {
    r := g;
    if !g.over {
      var full := IsBoardFull(g.board);
      if full {
        var found := ValidMovesExist(g.board);
        if !found {
          r := g.(over := true, best := if g.score > g.best then g.score else g.best);
        }
      }
    }
  }

  /** On a valid state the game is over exactly when no direction changes the board:
      the game-over test never misses a stuck board nor ends a playable one. */
  lemma OverIffStuck(g: State)
    requires Valid(g)
    ensures Terminal(g.board) <==> forall d :: !Changes(g.board, d)
  {
    var b := g.board;
    if Terminal(b) {
      forall d ensures !Changes(b, d) {
        TerminalBlocksMoves(b, d, 0);
      }
    } else {
      LiveBoardMoves(b);
      var d :| Move(b, d, 0).moved;
      assert Changes(b, d);
    }
  }

  /** The AI turn: on a live game the picker chooses among the samples and the chosen
      move is played with its spawn; with no sample that moves, nothing happens. */
  method AiTurn(g: State, samples: seq<Direction>, pick: nat, four: bool) returns (r: State)
    ensures g.over ==> r == g
    ensures (forall i :: 0 <= i < |samples| ==> !Changes(g.board, samples[i])) ==> r == g
    // whenever some sample moves, the held sample is played and a tile is added
    ensures !g.over && (exists i :: 0 <= i < |samples| && Changes(g.board, samples[i])) ==>
              && Sum(r.board) > Sum(g.board) && r.score >= g.score
              && exists i :: 0 <= i < |samples| && KeptAmong(g.board, samples, |samples|, i) && r == Play(g, samples[i], pick, four)
    ensures Valid(g) ==> Valid(r)
  {
    r := g;
    if !g.over {
      var moveFunc := GetMove(g.board, samples);
      if moveFunc.Some? {
        r := Play(g, moveFunc.value, pick, four);
      }
    }
  }

  /** The event part of a frame of the AI game: ENTER on a finished game starts a new one. */
  function FrameStart(g: State, enter: bool, pick1: nat, four1: bool, pick2: nat, four2: bool): (r: State)
    ensures enter && g.over ==> r == NewGame(g.best, pick1, four1, pick2, four2)
    ensures !(enter && g.over) ==> r == g
  {
    if enter && g.over then Restart(g, pick1, four1, pick2, four2) else g
  }

  /** One pass of the AI game's main loop: the ENTER event, the AI turn on a live game,
      then the game-over test. */
  method AiFrame(g: State, enter: bool, pick1: nat, four1: bool, pick2: nat, four2: bool,
                 samples: seq<Direction>, pick: nat, four: bool) returns (r: State)
    ensures Valid(g) ==> Valid(r)
    ensures r.best >= g.best
    ensures g.over && !enter ==> r == g
    ensures Valid(g) ==> (r.over <==> Terminal(r.board))
    // a live frame with no moving sample only runs the game-over test
    ensures var g0 := FrameStart(g, enter, pick1, four1, pick2, four2);
            !g0.over && (forall i :: 0 <= i < |samples| ==> !Changes(g0.board, samples[i])) ==>
              r == CheckGameOver(g0)
    // otherwise the held sample is played with its spawn before the test
    ensures var g0 := FrameStart(g, enter, pick1, four1, pick2, four2);
            !g0.over && (exists i :: 0 <= i < |samples| && Changes(g0.board, samples[i])) ==>
              exists i :: 0 <= i < |samples| && KeptAmong(g0.board, samples, |samples|, i) &&
                r == CheckGameOver(Play(g0, samples[i], pick, four))
  {
    r := FrameStart(g, enter, pick1, four1, pick2, four2);
    if !r.over {
      r := AiTurn(r, samples, pick, four);
    }
    r := GameOverCheck(r);
  }
}
