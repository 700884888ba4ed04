/**
 * `receiveKey` of src/lib/DOMRenderer.js: arrow keys and the vi letters
 * h, j, k, l turn the snake unless the game is paused; Enter starts,
 * resumes or pauses the game.
 */
module Input {
  import opened Wrappers
  import opened Grid
  import opened Snakes
  import opened Board
  import opened Games

  const Enter := 13

  /** The arrow keys: left, up, right, down are codes 37 to 40. */
  function ArrowCode(d: Direction): int
  {
    match d
    case W => 37
    case N => 38
    case E => 39
    case S => 40
  }

  /** The vi movement letters; a letter key's code is its capital's character code. */
  function ViLetter(d: Direction): char
  {
    match d
    case W => 'H'
    case S => 'J'
    case N => 'K'
    case E => 'L'
  }

  /**
   * The key-code switch: the direction a key steers towards, None for Enter
   * and every other key.
   */
  function KeyDirection(keyCode: int): (r: Option<Direction>)
    ensures forall d :: r == Some(d) <==> keyCode == ArrowCode(d) || keyCode == ViLetter(d) as int
    ensures keyCode == Enter ==> r == None
  {
    if keyCode == 37 || keyCode == 72 then Some(W)
    else if keyCode == 38 || keyCode == 75 then Some(N)
    else if keyCode == 39 || keyCode == 76 then Some(E)
    else if keyCode == 40 || keyCode == 74 then Some(S)
    else None
  }

  /** The event a key is for the game's flags. */
  function KeyEvent(keyCode: int): Event
  {
    if keyCode == Enter then Confirm else Steer
  }

  /**
   * `receiveKey(event)` for a key code, with the random choices a start
   * would use. A direction key before the first start would dereference an
   * undefined snake, hence the second requirement.
   */
  method ReceiveKey(game: Game, keyCode: int, c: StartChoice)
    requires game.Valid()
    requires keyCode == Enter && game.isOver ==> game.StartFeasible(c)
    requires KeyDirection(keyCode).Some? && !game.isPaused ==> game.snake != null
    modifies game`isOver, game`isPaused, game`snake, game`apple, game`timer, game`view, game.snake
    ensures game.Valid()
    ensures game.State() == Next(old(game.State()), KeyEvent(keyCode))
    ensures game.score == old(game.score) && game.level == old(game.level)
    ensures keyCode == Enter ==>
      game.view == old(game.view) + [if old(game.isOver) then ViewStart else if old(game.isPaused) then ViewResume else ViewPause]
    ensures keyCode != Enter ==>
      game.view == old(game.view) && game.apple == old(game.apple) && game.timer == old(game.timer)
    ensures !(keyCode == Enter && old(game.isOver)) ==> game.apple == old(game.apple)
    ensures keyCode == Enter && old(game.isOver) ==>
      var d := DirectionAt(c.direction);
      && game.snake != null && fresh(game.snake)
      && game.snake.head == HeadAt(HeadBox(game.size, d, 3).value, c.x, c.y)
      && game.snake.direction == d && game.snake.length == 3
      && game.snake.tail == TailCells(game.snake.head, d, 2)
      && game.apple == Some(game.NewApple(c.apple, game.snake.head, game.snake.tail))
    ensures keyCode == Enter ==>
      game.timer == if old(game.isOver) || old(game.isPaused) then Some(game.Timeout()) else None
    ensures !(keyCode == Enter && old(game.isOver)) ==> game.snake == old(game.snake)
    ensures old(game.snake) != null ==>
      && old(game.snake).head == old(game.snake.head)
      && old(game.snake).tail == old(game.snake.tail)
      && old(game.snake).length == old(game.snake.length)
      && old(game.snake).tailPlaced == old(game.snake.tailPlaced)
    ensures old(game.snake) != null ==>
      old(game.snake).direction ==
        if KeyDirection(keyCode).Some? && !old(game.isPaused) then KeyDirection(keyCode).value
        else old(game.snake.direction)
  {
    var direction := KeyDirection(keyCode);
    if keyCode == Enter {
      if game.isOver {
        game.Start(c);
      } else if game.isPaused {
        game.Resume();
      } else {
        game.Pause();
      }
    }
    if direction.Some? && !game.isPaused {
      ParseLetter(direction.value);
      var _ := game.snake.Turn(Letter(direction.value));
    }
  }
}
