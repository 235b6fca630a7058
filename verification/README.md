# 2048 move engine, spawner and AI picker

A model of the engine behind the two pygame 2048 programs `With_AI.py` (an AI
plays) and `manual_solver.py` (arrow keys play). Both carry the same engine:
the four move functions `move_up`, `move_down`, `move_left` and `move_right`,
the spawner `add_new_tile`, and the end-of-game test `is_board_full` /
`valid_moves_exist`. `With_AI.py` adds the heuristic `AI.evaluate_board` and
the sampling picker `AI.get_move`.

The board is a 4 by 4 grid of natural numbers, where 0 is an empty cell. A move
returns the new board, whether anything moved, and the running score plus what
its merges earned.

- `LineMove` models one row of `move_left` exactly as its loops run.
- `Moves` defines the four moves as pure functions. Right, up and down are left
  seen through a mirror, a transposition and a vertical flip.
- `MoveLoops` writes out the four nested-loop bodies as the Python game has them and
  proves each equal to its function.
- `GameOver` compares the end-of-game test with what the moves can still do.
- `Spawn` models `add_new_tile`.
- `Agent` models `evaluate_board` and `get_move`.
- `Game` models the state of `main_game_loop` and its handlers.
- `Scenarios` holds concrete boards.

Random draws are parameters:

- `pick` chooses among the empty cells. It is taken modulo their number, in the
  row-major order the list comprehension builds.
- `four` chooses between the tile values 2 and 4.
- `samples` is the sequence of directions drawn by `get_move`.

The code is followed where it departs from the usual rules of 2048. The
`Scenarios` module shows each case on a concrete board:

- Each inner `prev_col` / `prev_row` loop ends in `break` on every branch. So a
  tile only looks at its direct neighbour and moves at most one cell per move.
  Left on `[0,0,0,2]` gives `[0,0,2,0]`. Left on `[2,0,2,0]` gives `[2,2,0,0]`
  and does not merge.
- One `merged` flag guards each line, so a line merges at most once per move.
  Left on `[2,2,2,2]` gives `[4,2,2,0]` and earns 4.
- Up on a board whose only tiles are `2,2` side by side in the top row changes
  nothing.
- `valid_moves_exist` also counts two adjacent empty cells as equal. The
  end-of-game test only reaches it on a full board, so this makes no difference.
- The all-zero board fails the game-over test, yet no move changes it. The
  "over exactly when stuck" results therefore require at least one tile. The
  game never holds fewer than two.

## Model

| member | source | states |
|---|---|---|
| `Grid.EmptyBoard` | With_AI.py:66 | the fresh `[[0] * 4 for _ in range(4)]` board has every cell empty |
| `Grid.IsBoardFull` | With_AI.py:226-230 | the row scan answers true exactly when no cell holds 0 |
| `Grid.ValidMovesExist` | With_AI.py:233-241 | the row-major scan answers true exactly when some cell equals its right or lower neighbour |
| `Grid.EmptyCells` | With_AI.py:124 | the list of empty cells holds only empty cells, in strictly increasing row-major order |
| `Grid.EmptyCellsComplete` | With_AI.py:124 | every empty cell of the board appears in the list of empty cells |
| `Grid.EmptyCellsOfFull` | With_AI.py:124-125 | the list is empty exactly when the board is full, so the `if empty_cells` guard is the fullness test |
| `Grid.TilesIffPositiveSum` | With_AI.py:255 | a board holds a tile exactly when `np.sum(board)` is positive |
| `LineMove.Slide` | With_AI.py:180-198 | one row of `move_left`: the tile sum is kept; the count drops by one exactly when the single merge happened, which earns the merged value; no tile travels more than one cell; `moved` holds exactly when the line changed and exactly when some tile could slide or merge; a moved line has an empty cell; powers of two stay powers of two |
| `Moves.MoveLeft` | With_AI.py:178-199 | every row is the row scan of its old row; `moved` holds exactly when some row moved; the score grows by the rows' gains; sum, count bounds, score monotonicity and the power-of-two cells are kept |
| `Moves.MoveRight` | With_AI.py:202-223 | every row is the row scan of its reversed row, reversed back; `moved` holds exactly when some reversed row moved; the same conservation facts |
| `Moves.MoveUp` | With_AI.py:130-151 | every column is the scan of its old column toward row 0; `moved` holds exactly when some column moved; the same conservation facts |
| `Moves.MoveDown` | With_AI.py:154-175 | every column is the scan of its reversed column, reversed back; `moved` holds exactly when some reversed column moved; the same conservation facts |
| `Moves.Move` | With_AI.py:280-284 | whichever move function is applied, `moved` holds exactly when the board changed, the tile sum is kept, the score never drops and grows exactly when tiles merged, and a moved board has room for a spawn |
| `MoveLoops.LeftRow` | With_AI.py:181-198 | the column loop 1..3 with its neighbour test leaves the row, flag and gain of the row scan |
| `MoveLoops.MoveLeftLoop` | With_AI.py:178-199 | the nested loops of `move_left` compute exactly `MoveLeft` |
| `MoveLoops.MirroredStep` | With_AI.py:206-222 | one step of the right-to-left column loop is one step of the row scan on the reversed row |
| `MoveLoops.RightRow` | With_AI.py:205-222 | the column loop 2..0 leaves the reversed row scan of the row, with its flag and gain |
| `MoveLoops.MoveRightLoop` | With_AI.py:202-223 | the nested loops of `move_right` compute exactly `MoveRight` |
| `MoveLoops.UpColumn` | With_AI.py:133-150 | the row loop 1..3 on one column leaves the column scan there and touches no other column |
| `MoveLoops.MoveUpLoop` | With_AI.py:130-151 | the nested loops of `move_up` compute exactly `MoveUp` |
| `MoveLoops.DownColumn` | With_AI.py:157-174 | the row loop 2..0 on one column leaves the reversed column scan there and touches no other column |
| `MoveLoops.MoveDownLoop` | With_AI.py:154-175 | the nested loops of `move_down` compute exactly `MoveDown` |
| `MoveLoops.MoveLoop` | With_AI.py:280-284 | applying the chosen move function by its loops gives the outcome of `Move` |
| `GameOver.TerminalBlocksMoves` | With_AI.py:118-120 | on a board that passes the game-over test, no direction moves, whatever the score |
| `GameOver.LiveBoardMoves` | With_AI.py:118-120 | a board with a tile that fails the game-over test has some direction that moves |
| `GameOver.GameOverIffNoMove` | With_AI.py:118-120 | for a board with a tile, the game-over test holds exactly when no direction moves |
| `GameOver.EmptyBoardIsStuck` | With_AI.py:118-120 | the all-empty board fails the game-over test yet no direction moves it |
| `Spawn.TileValue` | With_AI.py:127 | the new tile is 2 or 4, a power of two |
| `Spawn.AddNewTile` | With_AI.py:123-127 | a full board is unchanged; otherwise exactly one formerly empty cell receives the new tile, the count grows by one, the sum by the tile, and power-of-two cells stay so |
| `Spawn.EveryEmptyCellCanReceive` | With_AI.py:124-127 | every empty cell is reached by some draw of the random choice |
| `Spawn.DistinctPicks` | With_AI.py:124-126 | different draws below the number of empty cells fill different cells |
| `Spawn.NewBoard` | With_AI.py:66-68 | two spawns on the empty board give two tiles, summing to the two drawn values, on a board that is not over |
| `Agent.EvaluateBounds` | With_AI.py:248-272 | the heuristic lies between tile sum plus twice the empty cells, and that plus 1.5 times the tile sum |
| `Agent.PositionBounds` | With_AI.py:263-267 | the tile-position term lies between 0 and 1.5 times the tile sum |
| `Agent.TilePositions` | With_AI.py:263-267 | the row-major double loop adds every tile's value times its position times 0.1 |
| `Agent.EvaluateBoard` | With_AI.py:248-272 | the weighted sum computed step by step equals the heuristic `Evaluate` |
| `Agent.PickBest` | With_AI.py:274-292 | for any move function: no move is returned exactly when no sample moves; otherwise the returned sample moved, no moving sample scores higher, and every earlier moving sample scores strictly lower |
| `Agent.GetMove` | With_AI.py:274-292 | the same, for the move engine applied to a copy of the board with score 0 and the heuristic |
| `Agent.KeptIsUnique` | With_AI.py:286-290 | the strict `>` makes the held sample unique: the earliest best moving sample |
| `Game.NewGame` | With_AI.py:79-85 | a restart yields a valid live game with score 0, two tiles and the best score kept |
| `Game.Start` | With_AI.py:64-71 | the program starts on a valid live game with two tiles and both scores 0 |
| `Game.Restart` | With_AI.py:79-85 | ENTER starts a new game only when the game is over, keeping the best score, and otherwise does nothing |
| `Game.ScoreIsCarried` | With_AI.py:284 | a move's board and flag do not depend on the score passed in, and the score returned is that score plus the gain |
| `Game.Play` | With_AI.py:91-93 | a move that changes nothing leaves the whole state alone; a move that changes the board is followed by exactly one new tile; validity is kept |
| `Game.Arrow` | manual_solver.py:94-106 | the four arrow keys select the four directions and no other key does |
| `Game.KeyPress` | manual_solver.py:78-109 | on a finished game only ENTER acts and restarts; on a live game an arrow plays its direction with the spawn-if-moved rule; other keys change nothing; validity is kept |
| `Game.CheckGameOver` | manual_solver.py:138-140 | the game becomes over exactly when its board is terminal, and the best score then takes the maximum of the two scores |
| `Game.GameOverCheck` | With_AI.py:118-120 | the test through `is_board_full` and `valid_moves_exist` gives `CheckGameOver` |
| `Game.OverIffStuck` | With_AI.py:118-120 | on a valid state the game-over test holds exactly when no direction changes the board |
| `Game.AiTurn` | With_AI.py:87-93 | a finished game is untouched; with no moving sample nothing happens; otherwise the held sample is played, the tile sum grows and the score does not drop; validity is kept |
| `Game.AiFrame` | With_AI.py:73-120 | one pass of the AI loop: ENTER restarts a finished game (`FrameStart`); on a live game with no moving sample only the game-over test runs; otherwise the earliest best moving sample is played with its spawn and then tested; validity is kept, the best score never drops, and the game ends exactly on a terminal board |
| `Game.FrameStart` | With_AI.py:79-85 | the event step of a frame: ENTER on a finished game gives a new game keeping the best score, and otherwise nothing changes |
| `Scenarios.OneCellPerMove` | With_AI.py:184-189 | a lone tile at the far end moves one cell, not to the wall |
| `Scenarios.GapBlocksMerge` | With_AI.py:182-198 | two equal tiles separated by a gap do not merge |
| `Scenarios.OneMergePerLine` | With_AI.py:190-196 | a line of four equal tiles merges once and earns 4 |
| `Scenarios.UpOnTopRow` | With_AI.py:130-151 | up on a board whose only tiles sit in the top row does not move |
| `Scenarios.LeftOnTopRow` | With_AI.py:178-199 | left on the same board merges the pair and earns 4 |

## Left out

- The pygame window: drawing, colours, fonts, the QUIT event, and the text of the start and game-over screens. They change no game state.
- The start screen of `manual_solver.py`: until ENTER it ignores arrows and the game-over test. `KeyPress` models the game after it.
- The distributions of `random.choice` and `np.random.choice`. The draws are parameters, so every outcome the Python game can reach is covered.
- The fixed budget of 100000 draws in `get_move`. `samples` may be any finite sequence.
- In-place mutation of the board lists. Every board is a value, and `copy.deepcopy` before a sampled move is a plain pass of the board.
- The `AI()` object built on every frame. It holds only the draw budget.
- `Agent.EvaluateBoard`: computes in exact reals rather than IEEE doubles, so the float rounding of `0.1` and its sums is not modelled. Near-ties between evaluations may compare differently in the Python game.
- `Agent.GetMove`: applies the move function `Move` and the heuristic `Evaluate` directly. The loop methods `MoveLoop` and `EvaluateBoard` are proved equal to them separately.
- `Moves.Move`: states exact merge bookkeeping per line, through `LineMove.Slide`: a line's tile count drops by one exactly when it merged. At board level it states only the bound of at most four merges, and that the score grows exactly when the tile count drops.
