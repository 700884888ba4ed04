/**
 * Concrete scenarios on a 10 by 10 board (12 by 12 with its walls),
 * driven through the key handler and the tick.
 */
module Scenarios {
  import opened Wrappers
  import opened Grid
  import opened Snakes
  import opened Board
  import opened Games
  import opened Input

  /**
   * A new game started with the snake facing east at the first cell of its
   * range, with the apple drawn at the given offsets.
   */
  method StartedGame(appleAt: Draw) returns (game: Game)
    requires 0 <= appleAt.x < 10 && 0 <= appleAt.y < 10
    requires Point(appleAt.x + 1, appleAt.y + 1) !in [Point(5, 2), Point(4, 2), Point(3, 2)]
    ensures fresh(game) && game.Valid() && game.timer.Some?
    ensures game.snake != null && fresh(game.snake)
    ensures game.snake.head == Point(5, 2) && game.snake.direction == E
    ensures game.snake.tail == [Point(4, 2), Point(3, 2)]
    ensures game.apple == Some(Point(appleAt.x + 1, appleAt.y + 1))
    ensures game.score == 0 && game.level == 1 && game.size.width == 12 && game.size.height == 12
  {
    game := new Game(10, 10);
    var c := StartChoice(3, 0, 0, [appleAt]);
    var tail := TailCells(Point(5, 2), E, 2);
    assert tail == [Point(4, 2), Point(3, 2)];
    assert Free(game.RandomPoint(c.apple[0]), Point(5, 2), tail);
    game.Start(c);
    assert game.FirstFree(c.apple, game.snake.head, game.snake.tail) == 0;
  }

  /** One tick without scoring: the head moves east and the tail follows, dropping its tip. */
  method EastwardTick() returns (head: Point, tail: seq<Point>)
    ensures head == Point(6, 2) && tail == [Point(5, 2), Point(4, 2)]
  {
    var game := StartedGame(Draw(0, 0));
    game.CrashIsBorderOrBody();
    assert !game.WillCrash() && !game.WillScore();
    var ok := game.Tick([]);
    head, tail := game.snake.head, game.snake.tail;
  }

  /** A new game whose apple lies on the cell just ahead of the snake. */
  method AppleAhead() returns (game: Game)
    ensures fresh(game) && game.Inv() && !game.isOver && !game.isPaused && game.timer.Some?
    ensures game.snake != null && fresh(game.snake) && |game.snake.tail| == 2
    ensures game.score == 0 && game.level == 1
    ensures !game.WillCrash() && game.WillScore()
    ensures game.AllFit([Draw(0, 0)]) && game.SomeFree([Draw(0, 0)], game.snake.head, game.snake.tail)
  {
    game := StartedGame(Draw(5, 1));
    assert game.snake.tail == [Point(4, 2), Point(3, 2)];
    assert game.snake.Tongue() == Point(6, 2) && game.apple == Some(Point(6, 2));
    assert !OnBorder(game.size, Point(6, 2)) && Point(6, 2) !in game.snake.tail;
    game.CrashIsBorderOrBody();
    OriginIsFree(game);
  }

  /** The first interior cell is free of a snake lying along row 2. */
  lemma OriginIsFree(game: Game)
    requires game.snake != null && game.size.width == 12 && game.size.height == 12
    requires game.snake.head == Point(5, 2) && game.snake.tail == [Point(4, 2), Point(3, 2)]
    ensures game.AllFit([Draw(0, 0)]) && game.SomeFree([Draw(0, 0)], game.snake.head, game.snake.tail)
  {
    var draws := [Draw(0, 0)];
    assert game.Fits(draws[0]) && game.RandomPoint(draws[0]) == Point(1, 1);
    assert Free(Point(1, 1), game.snake.head, game.snake.tail);
  }

  /** Eating the apple at level 1 gives one point, level 2 and a timeout of 324. */
  method FirstScore() returns (score: int, level: int, timeout: int, length: int)
    ensures score == 1 && level == 2 && timeout == 324 && length == 3
  {
    var game := AppleAhead();
    var ok := game.Tick([Draw(0, 0)]);
    score, level, timeout, length := game.score, game.level, game.Timeout(), |game.snake.tail|;
  }

  /** The up key is ignored while paused and obeyed after resuming. */
  method TurnWhilePaused() returns (whilePaused: Direction, afterResume: Direction)
    ensures whilePaused == E && afterResume == N
  {
    var game := StartedGame(Draw(0, 0));
    var c := StartChoice(0, 0, 0, []);
    ReceiveKey(game, Enter, c);
    ReceiveKey(game, 38, c);
    whilePaused := game.snake.direction;
    ReceiveKey(game, Enter, c);
    ReceiveKey(game, 38, c);
    afterResume := game.snake.direction;
  }
}
