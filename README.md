# snake-2017 in Dafny

A model of the game core of the snake-2017 browser game: the `Snake` class
(head, tail, facing direction, tail layout, turning, moving, the `tongue`
lookahead), the `Game` class (board size and walls, snake and apple
placement, the crash and score tests, the level-dependent timeout, and the
`tick`, `start`, `pause`, `resume` and `over` transitions), and the key
handler `receiveKey` of the DOM renderer that drives the game.

Modules, one per part of the program:

- `Wrappers`: `Option`.
- `Grid` (grid.dfy): points, the four directions, the direction-letter test
  `/^[NESW]$/`, the point `filter` the source uses for membership, and
  `slice(0, -1)`.
- `Snakes` (snake.dfy): `class Snake`, as in src/lib/Snake.js.
- `Board` (board.dfy): the board size, the wall layout as a function with
  its proved shape, and the head range that `placeSnake` computes.
- `Games` (game.dfy): `class Game`, as in src/lib/Game.js, and the state
  machine of its three flags.
- `Input` (input.dfy): `receiveKey` of src/lib/DOMRenderer.js.
- `Scenarios` (scenarios.dfy): concrete scenarios on a 10 by 10 board.

How the host is represented:

- The renderer is a ghost log `view` of the calls the game makes on it.
- The pending `setTimeout` is a ghost field `timer`. It holds the delay of
  the scheduled tick, or `None` when no tick is pending. `clearTimeout`
  sets it to `None`. A timer firing is a call of `Tick`.
- Every `Math.random()` result is passed in by the caller as the value
  `Math.floor(Math.random() * n)` it becomes:
  - a direction index and head offsets for `placeSnake`;
  - a `Draw` of two offsets for each `randomPoint`;
  - a finite list of draws, tried in order, for the `placeApple` retry loop.
- JavaScript's falsy "no argument" is modelled as 0 for numbers and `""` for
  the direction string.
- The tail's failure value `false` becomes the flag `tailPlaced` with an
  empty tail.

Main results:

- The walls are exactly the border ring, once each, `2W + 2H - 4` of them
  (`Board.WallsAreBorder`).
- A snake placed in the computed range lies, with its first lookahead cell,
  at least one cell away from every wall (`Board.SpawnIsClear`). Its tail is
  a straight line behind the head that the tongue does not touch
  (`Snakes.TailIsStraight`).
- The apple lands on the first drawn point that misses the snake
  (`Games.Game.PlaceApple`).
- Every operation keeps `Games.Game.Inv`:
  - the score is `0 + 1 + ... + (level - 1)`, which is
    `level * (level - 1) / 2` (`Games.Game.ScoreIsTriangular`);
  - a finished game has score 0 and level 1;
  - a live game's tail has grown by one cell per level gained.
- No sequence of keys and ticks leaves the game both over and paused
  (`Games.NeverOverAndPaused`).

A move that does not grow vacates the tail tip, but `willCrash` tests the
tongue against the tail before the move (src/lib/Game.js:175-177), so
moving into the tip is a crash; `Games.Game.TipIsCrash` states it.

## Model

| member | source | states |
|---|---|---|
| Grid.ParseDirection | src/lib/Snake.js:79 | a direction exactly when the string is one of the single letters N, E, S, W, and that direction's letter is the string |
| Grid.Filter | src/lib/Game.js:153-155 | the filtered list is non-empty exactly when the point is in the list, and it holds only that point |
| Grid.DropLast | src/lib/Snake.js:96 | `slice(0, -1)`: one element shorter and a prefix of the input when it is non-empty, empty otherwise |
| Snakes.Snake.constructor | src/lib/Snake.js:15-27 | head at (x, y); direction taken only when it is a direction letter, else N; length taken only above 3, else 3; a tail of length - 1 cells straight behind the head exactly when both coordinates are non-zero, otherwise the failure value |
| Snakes.Snake.PlaceTail | src/lib/Snake.js:33-71 | fails exactly when a head coordinate is 0; otherwise length - 1 cells, cell i being i + 1 steps behind the head against the facing direction |
| Snakes.Snake.Turn | src/lib/Snake.js:78-85 | the direction changes exactly when the argument is a direction letter, to that direction; otherwise nothing changes and the result is false |
| Snakes.Snake.Tongue | src/lib/Snake.js:106-141 | the cell one step ahead in the facing direction: one step back from it is the head, at distance 1 |
| Snakes.Snake.Move | src/lib/Snake.js:92-100 | the head steps onto the old tongue; the old head is prepended to the tail, whose last cell is dropped unless growing, so the tail grows by one or keeps its length |
| Snakes.TailIsStraight | src/lib/Snake.js:33-71 | a laid-out tail is contiguous behind the head, and neither the head nor the tongue is on it |
| Board.HeadBox | src/lib/Game.js:65-120 | no range exactly when the space check of the orientation fails (height below length + 6 or width below 5 when vertical, and the reverse when horizontal); otherwise a non-empty range |
| Board.SpawnIsClear | src/lib/Game.js:70-125 | a head in the range has non-zero coordinates; head, tail and tongue are at least one cell from every wall; the tongue is neither a wall nor a tail cell |
| Board.BricksFacts | src/lib/Game.js:38-53 | one column's bricks: the full height at the two sides and two cells elsewhere, exactly the border cells of that column, top to bottom |
| Board.WallsUpToCount | src/lib/Game.js:37-55 | after n columns the walls hold the full height for the first column plus two per inner column, and the full height again once the last column is reached |
| Board.WallsUpToCells | src/lib/Game.js:37-55 | after n columns the walls are exactly the border cells left of column n |
| Board.WallsUpToAscending | src/lib/Game.js:37-55 | after n columns the walls are in strictly increasing column-major order |
| Board.WallsAreBorder | src/lib/Game.js:34-58 | the walls are exactly the border ring, 2W + 2H - 4 cells, in strictly increasing column-major order, without duplicates |
| Games.NextKeepsOneOf | src/lib/Game.js:202-271 | each key press or timer event keeps exactly one of over, paused and ticking |
| Games.RunKeepsOneOf | src/lib/Game.js:202-271 | any sequence of events keeps exactly one of over, paused and ticking |
| Games.NeverOverAndPaused | src/lib/Game.js:19-21 | from a new game, never over and paused at once, and a tick is pending exactly while neither |
| Games.TriangleClosedForm | src/lib/Game.js:211-213 | adding the level and then raising it from 1 gives level * (level - 1) / 2 |
| Games.Game.ScoreIsTriangular | src/lib/Game.js:211-213 | in every reachable state the score is level * (level - 1) / 2 |
| Games.Game.constructor | src/lib/Game.js:11-28 | size is width + 2 by height + 2 when both are given, 52 by 52 otherwise; walls laid; score 0, level 1, over, not paused, no snake, apple or timer |
| Games.Game.PlaceWalls | src/lib/Game.js:34-58 | the column-by-column wall list, which is the border ring in column-major order with 2W + 2H - 4 cells |
| Games.Game.PlaceSnake | src/lib/Game.js:65-126 | null (the source's false) exactly when the space check fails; otherwise a new valid snake with its head at the drawn offsets in the range, the drawn direction, and a straight tail |
| Games.Game.RandomPoint | src/lib/Game.js:132-141 | a cell strictly inside the border |
| Games.Game.RandomPointCoversInterior | src/lib/Game.js:132-141 | every interior cell is produced by some draw |
| Games.Game.RandomPointIsNoWall | src/lib/Game.js:132-141 | a random point is never a wall |
| Games.Game.FirstFree | src/lib/Game.js:151-161 | the first draw whose point misses the snake: it misses it, and every earlier draw hits it |
| Games.Game.NewApple | src/lib/Game.js:147-164 | the chosen apple misses the snake's head and tail and lies inside the border |
| Games.Game.PlaceApple | src/lib/Game.js:147-164 | loops over the draws until one misses the head and the tail; returns that draw's point, which misses the snake, with all earlier draws rejected |
| Games.Game.WillCrash | src/lib/Game.js:170-179 | true exactly when the tongue is a wall or a cell of the pre-move tail |
| Games.Game.CrashIsBorderOrBody | src/lib/Game.js:170-179 | with the walls laid, a crash is exactly the tongue on the border or on the tail |
| Games.Game.TipIsCrash | src/lib/Game.js:175-177 | moving onto the current tail tip is a crash |
| Games.Game.WillScore | src/lib/Game.js:185-187 | true exactly when the tongue is the apple |
| Games.Game.Timeout | src/lib/Game.js:193-196 | 340 - 8 * level: positive exactly up to level 42, and at most 332 from level 1 |
| Games.Game.Tick | src/lib/Game.js:202-222 | a crash ends the game (score 0, level 1, no tick pending, snake untouched); otherwise the snake steps onto its tongue, scoring adds the level, raises the level, lowers the timeout by 8, grows the tail and places a new apple; the next tick is scheduled; the invariant and the flag rule hold |
| Games.Game.Advance | src/lib/Game.js:210-221 | the move half of a tick: the snake steps, growing and scoring exactly when the tongue is on the apple, and the renderer is told whether it grew |
| Games.Game.Score | src/lib/Game.js:210-215 | the score rises by the level, the level by one, keeping the triangular score, and the apple moves to the first free draw around the snake before it moves |
| Games.Game.Start | src/lib/Game.js:228-236 | no longer over; a new three-cell snake at the drawn place and direction, an apple off it, and a tick scheduled at the current timeout |
| Games.Game.Pause | src/lib/Game.js:242-247 | paused, no tick pending, the renderer told |
| Games.Game.Resume | src/lib/Game.js:253-258 | not paused, a tick scheduled at the current timeout, the renderer told |
| Games.Game.Over | src/lib/Game.js:264-271 | over, score 0, level 1, no tick pending, the renderer told |
| Input.KeyDirection | src/lib/DOMRenderer.js:238-265 | a key steers towards d exactly when it is d's arrow key or d's vi letter (h, j, k, l); Enter steers nowhere |
| Input.ReceiveKey | src/lib/DOMRenderer.js:235-268 | Enter on a finished game starts it with the drawn three-cell snake and an apple off it, and a tick scheduled at the current timeout; Enter on a paused game resumes it with a tick at the current timeout; Enter on a running game pauses it with no tick pending; a direction key turns the snake unless paused and leaves the apple, the pending tick and the renderer log as they were; Enter on a live game keeps the apple; the old snake keeps its head, tail, length and laid-out flag; the flags follow the state machine |
| Scenarios.StartedGame | src/lib/Game.js:228-236 | on a 10 by 10 board, start with the first east range cell gives head (5, 2), tail (4, 2), (3, 2) and the drawn apple |
| Scenarios.EastwardTick | src/lib/Game.js:202-222 | one tick east from there moves the head to (6, 2) and the tail to (5, 2), (4, 2) |
| Scenarios.AppleAhead | src/lib/Game.js:170-187 | with the apple at (6, 2) the next tick scores and does not crash |
| Scenarios.OriginIsFree | src/lib/Game.js:132-161 | the first interior cell lies off a snake along row 2 |
| Scenarios.FirstScore | src/lib/Game.js:210-215 | eating at level 1 gives score 1, level 2, timeout 324 and a three-cell tail |
| Scenarios.TurnWhilePaused | src/lib/DOMRenderer.js:255-267 | the up key is ignored while paused and obeyed after resuming |

## Left out

- Drawing: src/lib/Renderer.js, the DOM drawing of src/lib/DOMRenderer.js and src/main.js are not part of this model. Renderer calls appear only as the ghost `view` log.
- Timers: `setTimeout` and `clearTimeout` are the ghost field `timer`. Time itself is not modelled.
- Randomness: `Math.random` is not modelled. Its floored results are parameters.
- Logging: `console.error` output is not modelled. Only the returned failure values are.
- Games.Game.PlaceApple: the source loop retries without bound. The model tries a finite list of draws and requires one of them to miss the snake, so a draw sequence that never misses is outside the model.
- Games.Game.PlaceSnake: lengths below 3 other than the absent 0 (that is 1, 2 and every negative length) are excluded. For them `length || 3` keeps the value, so the source computes the range from it (for a negative length the range reaches past the walls), while it passes the raw argument to `Snake`, which builds a three-cell snake. The game itself only calls it without a length.
- Games.Game.Start: requires a finished game and a board on which the snake and an apple fit. `start` is only reached from Enter on a finished game. On a board too small for the snake the source goes on to dereference the failure value and throws. That path is not modelled.
- Input.ReceiveKey: requires a snake for a direction key. Before the first start the source's `this.game.snake.turn` throws on the undefined snake. That path is not modelled.
- Games.Game.Tick: requires a pending tick, which implies not paused. The source's `tick` has no paused check of its own. A tick arriving while paused cannot happen because `pause` cancels the timer.
- Snakes.Snake.Move: requires a laid-out tail. On a snake whose `placeTail` returned `false` (a head coordinate of 0) the source's spread of `false` throws a TypeError; that path is not modelled. The game only moves snakes placed in the head range, whose coordinates are non-zero.
- Snakes.Snake.Tongue: the `default` branch returning `false` is unreachable because the direction is always one of the four letters. The model has no such branch.
- Snakes.Snake.Turn: the source returns `undefined` on success. The model returns true.
- Games.Game.Tick: the source returns `undefined` after a move and `false` after a crash. The model returns true and false.
- Non-string directions, non-integer or negative sizes, and `NaN` are not modelled. The direction is a string and sizes are integers.
- Games.Game.Timeout: the source keeps lowering the delay past zero after level 42, and no cap is modelled. The contract states when it stops being positive.
