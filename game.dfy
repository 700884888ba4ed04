/**
 * The game of src/lib/Game.js: score, level, walls, snake, apple, the two
 * flags and the pending timer, with `tick`, `start`, `pause`, `resume` and
 * `over`. The host timer is a ghost field holding the delay of the pending
 * tick; the renderer callbacks are a ghost log; `Math.random` results are
 * passed in by the caller.
 */
module Games {
  import opened Wrappers
  import opened Grid
  import opened Snakes
  import opened Board

  // ---------------------------------------------------------------------
  // The flag state machine

  /** `isOver`, `isPaused`, and whether a tick is pending on the timer. */
  datatype Flags = Flags(isOver: bool, isPaused: bool, ticking: bool)

  /** Exactly one of: over, paused, running. */
  predicate OneOf(f: Flags)
  {
    || (f.isOver && !f.isPaused && !f.ticking)
    || (!f.isOver && f.isPaused && !f.ticking)
    || (!f.isOver && !f.isPaused && f.ticking)
  }

  /** A new game: over, not paused, nothing scheduled. */
  function Initial(): Flags
  {
    Flags(true, false, false)
  }

  /** What reaches the game: the confirm key, a direction key, or the timer firing. */
  datatype Event = Confirm | Steer | Fire(crash: bool)

  /** The effect of one event on the flags. */
  function Next(f: Flags, e: Event): Flags
  {
    match e
    case Confirm =>
      if f.isOver then Flags(false, f.isPaused, true)
      else if f.isPaused then Flags(f.isOver, false, true)
      else Flags(f.isOver, true, false)
    case Steer => f
    case Fire(crash) =>
      if !f.ticking then f
      else if crash then Flags(true, f.isPaused, false)
      else f
  }

  function Run(f: Flags, es: seq<Event>): Flags
    decreases |es|
  {
    if es == [] then f else Run(Next(f, es[0]), es[1..])
  }

  lemma NextKeepsOneOf(f: Flags, e: Event)
    requires OneOf(f)
    ensures OneOf(Next(f, e))
  {
  }

  lemma {:induction false} RunKeepsOneOf(f: Flags, es: seq<Event>)
    requires OneOf(f)
    ensures OneOf(Run(f, es))
    decreases |es|
  {
    if es != [] {
      NextKeepsOneOf(f, es[0]);
      RunKeepsOneOf(Next(f, es[0]), es[1..]);
    }
  }

  /** From a new game, no sequence of keys and ticks makes the game both over and paused. */
  lemma NeverOverAndPaused(es: seq<Event>)
    ensures !(Run(Initial(), es).isOver && Run(Initial(), es).isPaused)
    ensures Run(Initial(), es).ticking <==> !Run(Initial(), es).isOver && !Run(Initial(), es).isPaused
  {
    RunKeepsOneOf(Initial(), es);
  }

  // ---------------------------------------------------------------------
  // Inputs standing for the host

  /** The renderer callbacks the game makes. */
  datatype ViewCall = ViewStart | ViewUpdate(grow: bool) | ViewPause | ViewResume | ViewOver

  /** The two `Math.floor(Math.random() * n)` offsets of one random point. */
  datatype Draw = Draw(x: int, y: int)

  /**
   * The random choices of `start`: the direction index, the head offsets
   * within the placement range, and the apple draws tried in order.
   */
  datatype StartChoice = StartChoice(direction: int, x: int, y: int, apple: seq<Draw>)

  /** `length || 3` in `placeSnake`. */
  function DefaultLength(length: int): int
  {
    if length == 0 then 3 else length
  }

  predicate PickFits(b: Box, x: int, y: int)
  {
    0 <= x <= b.maxX - b.minX && 0 <= y <= b.maxY - b.minY
  }

  function HeadAt(b: Box, x: int, y: int): Point
  {
    Point(x + b.minX, y + b.minY)
  }

  /** An apple position touching neither the head nor a tail cell. */
  predicate Free(p: Point, head: Point, tail: seq<Point>)
  {
    p != head && p !in tail
  }

  /** 0 + 1 + ... + (level - 1): the score a game has reached at a level. */
  function Triangle(level: int): int
    decreases level
  {
    if level <= 1 then 0 else Triangle(level - 1) + (level - 1)
  }

  /** The closed form of the score: level * (level - 1) / 2. */
  lemma {:induction false} TriangleClosedForm(level: int)
    requires level >= 1
    ensures 2 * Triangle(level) == level * (level - 1)
    ensures Triangle(level) == level * (level - 1) / 2
    decreases level
  {
    if level > 1 {
      TriangleClosedForm(level - 1);
      assert level * (level - 1) == (level - 1) * (level - 2) + 2 * (level - 1);
    }
  }

  const BaseTimeout := 340
  const LevelStep := 8

  class Game {
    var size: Size
    var score: int
    var level: int
    var walls: seq<Point>
    var snake: Snake?
    var apple: Option<Point>
    /** The pending `setTimeout`: the delay it was set with, None when no tick is pending. */
    ghost var timer: Option<int>
    var isPaused: bool
    var isOver: bool
    /** The renderer callbacks made so far. */
    ghost var view: seq<ViewCall>

    ghost function State(): Flags
      reads this
    {
      Flags(isOver, isPaused, timer.Some?)
    }

    /**
     * What every operation keeps: the walls are those of the size, the
     * score is the triangular number of the level below, a finished game
     * has score 0 and level 1, and a live game has a snake whose tail has
     * grown by one cell per level gained.
     */
    ghost predicate Inv()
      reads this, snake
    {
      && walls == Walls(size)
      && level >= 1 && score == Triangle(level)
      && (isOver ==> score == 0 && level == 1)
      && (!isOver ==> snake != null && snake.Valid() && apple.Some? && |snake.tail| == snake.length - 1 + (level - 1))
    }

    ghost predicate Valid()
      reads this, snake
    {
      Inv() && OneOf(State())
    }

    /** The score is always the sum of the levels passed, level * (level - 1) / 2. */
    lemma ScoreIsTriangular()
      requires Inv()
      ensures score == level * (level - 1) / 2
    {
      TriangleClosedForm(level);
    }

    constructor (width: int, height: int)
      ensures size == BoardSize(width, height)
      ensures walls == Walls(size)
      ensures score == 0 && level == 1 && snake == null && apple == None
      ensures State() == Initial() && view == []
      ensures Valid()
    {
      size := BoardSize(width, height);
      score, level := 0, 1;
      snake, apple := null, None;
      timer := None;
      isPaused, isOver := false, true;
      view := [];
      walls := [];
      new;
      walls := PlaceWalls();
    }

    /**
     * `placeWalls()`: for each column, the full column at the two sides
     * and the top and bottom cells in between.
     */
    method PlaceWalls() returns (walls: seq<Point>)
      ensures walls == Walls(size)
      ensures size.width >= 2 && size.height >= 2 ==>
        && |walls| == 2 * size.width + 2 * size.height - 4
        && (forall p :: p in walls <==> OnBorder(size, p))
        && Ascending(walls)
    {
      walls := [];
      var x := 0;
      while x < size.width
        invariant 0 <= x && (x <= size.width || x == 0)
        invariant walls == WallsUpTo(size, x)
        decreases size.width - x
      {
        var bricks: seq<Point>;
        if x == 0 || x == size.width - 1 {
          bricks := [];
          var y := 0;
          while y < size.height
            invariant 0 <= y && (y <= size.height || y == 0)
            invariant bricks == seq(y, j => Point(x, j))
            decreases size.height - y
          {
            bricks := bricks + [Point(x, y)];
            y := y + 1;
          }
        } else {
          bricks := [Point(x, 0), Point(x, size.height - 1)];
        }
        walls := walls + bricks;
        x := x + 1;
      }
      if size.width >= 2 && size.height >= 2 {
        WallsAreBorder(size);
      }
    }

    /**
     * `placeSnake(length)` with the random direction index and head offsets
     * given: null (the source's `false`) exactly when the space check of the
     * chosen orientation fails. Lengths below 3 other than the absent 0 are
     * excluded: the range would be computed from them while the snake itself
     * gets length 3.
     */
    method PlaceSnake(length: int, pick: int, x: int, y: int) returns (s: Snake?)
      requires length == 0 || length >= 3
      requires 0 <= pick < 4
      requires var b := HeadBox(size, DirectionAt(pick), DefaultLength(length));
        b.Some? ==> PickFits(b.value, x, y)
      ensures var b := HeadBox(size, DirectionAt(pick), DefaultLength(length));
        && (s == null <==> b.None?)
        && (s != null ==>
          && fresh(s) && s.Valid()
          && s.head == HeadAt(b.value, x, y)
          && s.direction == DirectionAt(pick)
          && s.length == DefaultLength(length)
          && s.tail == TailCells(s.head, s.direction, s.length - 1))
    {
      var snakeLength := DefaultLength(length);
      var direction := DirectionAt(pick);
      var box := HeadBox(size, direction, snakeLength);
      if box.None? {
        return null;
      }
      var head := HeadAt(box.value, x, y);
      SpawnIsClear(size, direction, snakeLength, head);
      ParseLetter(direction);
      s := new Snake(head.x, head.y, Letter(direction), length);
    }

    /** A random-point draw within the ranges `randomPoint` multiplies by. */
    predicate Fits(d: Draw)
      reads this`size
    {
      0 <= d.x < size.width - 2 && 0 <= d.y < size.height - 2
    }

    predicate AllFit(draws: seq<Draw>)
      reads this`size
    {
      forall i :: 0 <= i < |draws| ==> Fits(draws[i])
    }

    /** `randomPoint()`: a cell strictly inside the border (x and y from 1 to size - 2). */
    function RandomPoint(d: Draw): (p: Point)
      reads this`size
      requires Fits(d)
      ensures Interior(size, p) && !OnBorder(size, p)
    {
      Point(d.x + 1, d.y + 1)
    }

    /** Every interior cell is some draw's point, so sampling covers the whole interior. */
    lemma RandomPointCoversInterior(p: Point)
      requires Interior(size, p)
      ensures exists d :: Fits(d) && RandomPoint(d) == p
    {
      assert Fits(Draw(p.x - 1, p.y - 1)) && RandomPoint(Draw(p.x - 1, p.y - 1)) == p;
    }

    /** Given the invariant, no random point is a wall. */
    lemma RandomPointIsNoWall(d: Draw)
      requires Inv() && Fits(d)
      ensures RandomPoint(d) !in walls
    {
      WallsAreBorder(size);
    }

    /** Some draw in the list lands on a cell that is free of the given snake. */
    predicate SomeFree(draws: seq<Draw>, head: Point, tail: seq<Point>)
      reads this`size
      requires AllFit(draws)
    {
      exists i :: 0 <= i < |draws| && Free(RandomPoint(draws[i]), head, tail)
    }

    /** The index of the first draw whose point is free of the given snake. */
    ghost function FirstFree(draws: seq<Draw>, head: Point, tail: seq<Point>): (k: nat)
      reads this`size
      requires AllFit(draws) && SomeFree(draws, head, tail)
      ensures k < |draws| && Free(RandomPoint(draws[k]), head, tail)
      ensures forall j :: 0 <= j < k ==> !Free(RandomPoint(draws[j]), head, tail)
      decreases |draws|
    {
      if Free(RandomPoint(draws[0]), head, tail) then 0
      else
        var i :| 0 <= i < |draws| && Free(RandomPoint(draws[i]), head, tail);
        assert draws[1..][i - 1] == draws[i];
        1 + FirstFree(draws[1..], head, tail)
    }

    /** The apple `placeApple` settles on: the point of the first free draw. */
    ghost function NewApple(draws: seq<Draw>, head: Point, tail: seq<Point>): (p: Point)
      reads this`size
      requires AllFit(draws) && SomeFree(draws, head, tail)
      ensures Free(p, head, tail) && Interior(size, p)
    {
      RandomPoint(draws[FirstFree(draws, head, tail)])
    }

    /**
     * `placeApple()`: draws points in order until one misses the snake's head
     * and tail, and returns it with the number of rejected draws.
     */
    method PlaceApple(draws: seq<Draw>) returns (apple: Point, tries: nat)
      requires snake != null
      requires AllFit(draws) && SomeFree(draws, snake.head, snake.tail)
      ensures tries < |draws| && apple == RandomPoint(draws[tries])
      ensures Free(apple, snake.head, snake.tail) && Interior(size, apple)
      ensures forall j :: 0 <= j < tries ==> !Free(RandomPoint(draws[j]), snake.head, snake.tail)
      ensures tries == FirstFree(draws, snake.head, snake.tail)
      ensures apple == NewApple(draws, snake.head, snake.tail)
    {
      ghost var k :| 0 <= k < |draws| && Free(RandomPoint(draws[k]), snake.head, snake.tail);
      apple, tries := Point(0, 0), 0;
      var conflict := true;
      var i := 0;
      while conflict
        invariant 0 <= i
        invariant conflict ==> i <= k
        invariant !conflict ==> i == tries + 1 && tries < |draws| && apple == RandomPoint(draws[tries])
        invariant !conflict ==> Free(apple, snake.head, snake.tail)
        invariant forall j :: 0 <= j < (if conflict then i else tries) ==> !Free(RandomPoint(draws[j]), snake.head, snake.tail)
        decreases if conflict then k + 1 - i else 0
      {
        apple := RandomPoint(draws[i]);
        conflict := SameCell(apple, snake.head) || |Filter(snake.tail, apple)| > 0;
        tries := i;
        i := i + 1;
      }
      ghost var first := FirstFree(draws, snake.head, snake.tail);
      assert !(first < tries) && !(tries < first);
    }

    /**
     * The `willCrash` getter: the tongue is on a wall or on a tail cell of
     * the snake before it moves, the last one included.
     */
    function WillCrash(): (b: bool)
      reads this`walls, this`snake, snake
      requires snake != null
      ensures b <==> snake.Tongue() in walls || snake.Tongue() in snake.tail
    {
      |Filter(walls, snake.Tongue())| > 0 || |Filter(snake.tail, snake.Tongue())| > 0
    }

    /** With the walls in place, a crash is the tongue reaching the border or the body. */
    lemma CrashIsBorderOrBody()
      requires Inv() && snake != null && size.width >= 2 && size.height >= 2
      ensures WillCrash() <==> OnBorder(size, snake.Tongue()) || snake.Tongue() in snake.tail
    {
      WallsAreBorder(size);
    }

    /** Moving onto the current tail tip is a crash, even though a plain move would vacate it. */
    lemma TipIsCrash()
      requires snake != null && |snake.tail| > 0
      requires snake.Tongue() == snake.tail[|snake.tail| - 1]
      ensures WillCrash()
    {
    }

    /** The `willScore` getter: the tongue is on the apple. */
    function WillScore(): (b: bool)
      reads this`snake, this`apple, snake
      requires snake != null && apple.Some?
      ensures b <==> snake.Tongue() == apple.value
    {
      SameCell(snake.Tongue(), apple.value)
    }

    /** The `timeout` getter: 340 less 8 per level; it stays positive up to level 42 only. */
    function Timeout(): (t: int)
      reads this
      ensures t > 0 <==> level <= 42
      ensures level >= 1 ==> t <= BaseTimeout - LevelStep
    {
      BaseTimeout - level * LevelStep
    }

    /**
     * `tick()` for a pending tick, with the apple draws used when it
     * scores: a crash ends the game without moving; otherwise the snake steps
     * onto its tongue, growing, scoring and getting a new apple when the
     * tongue is on the apple, and the next tick is scheduled.
     */
    method Tick(draws: seq<Draw>) returns (ok: bool)
      requires Inv() && !isOver && !isPaused && timer.Some?
      requires !WillCrash() && WillScore() ==> AllFit(draws) && SomeFree(draws, snake.head, snake.tail)
      modifies this`score, this`level, this`apple, this`isOver, this`timer, this`view, snake`head, snake`tail
      ensures Valid() && snake == old(snake)
      ensures State() == Next(old(State()), Fire(old(WillCrash())))
      ensures ok <==> !old(WillCrash())
      ensures snake.direction == old(snake.direction) && snake.length == old(snake.length)
      ensures old(WillCrash()) ==>
        && isOver && score == 0 && level == 1 && timer == None
        && snake.head == old(snake.head) && snake.tail == old(snake.tail) && apple == old(apple)
        && view == old(view) + [ViewOver]
      ensures !old(WillCrash()) ==>
        && !isOver && snake.head == old(snake.Tongue()) && timer == Some(Timeout())
        && view == old(view) + [ViewUpdate(old(WillScore()))]
      ensures !old(WillCrash()) && old(WillScore()) ==>
        && score == old(score) + old(level) && level == old(level) + 1
        && Timeout() == old(Timeout()) - LevelStep
        && snake.tail == [old(snake.head)] + old(snake.tail)
        && apple == Some(NewApple(draws, old(snake.head), old(snake.tail)))
      ensures !old(WillCrash()) && !old(WillScore()) ==>
        && score == old(score) && level == old(level) && apple == old(apple)
        && snake.tail == [old(snake.head)] + DropLast(old(snake.tail))
        && |snake.tail| == |old(snake.tail)|
    {
      timer := None;
      if WillCrash() {
        Over();
        return false;
      }
      Advance(draws);
      ok := true;
    }

    /**
     * The rest of `tick` once no crash is ahead: on the apple the score and
     * level go up and a new apple is placed, then the snake moves (growing
     * when it ate), the renderer is told and the next tick is scheduled.
     */
    method Advance(draws: seq<Draw>)
      requires Inv() && !isOver && !WillCrash()
      requires WillScore() ==> AllFit(draws) && SomeFree(draws, snake.head, snake.tail)
      modifies this`score, this`level, this`apple, this`timer, this`view, snake`head, snake`tail
      ensures Inv() && snake == old(snake) && timer == Some(Timeout())
      ensures snake.head == old(snake.Tongue()) && view == old(view) + [ViewUpdate(old(WillScore()))]
      ensures snake.direction == old(snake.direction) && snake.length == old(snake.length)
      ensures old(WillScore()) ==>
        && score == old(score) + old(level) && level == old(level) + 1
        && snake.tail == [old(snake.head)] + old(snake.tail)
        && apple == Some(NewApple(draws, old(snake.head), old(snake.tail)))
      ensures !old(WillScore()) ==>
        && score == old(score) && level == old(level) && apple == old(apple)
        && snake.tail == [old(snake.head)] + DropLast(old(snake.tail))
        && |snake.tail| == |old(snake.tail)|
    {
      var grow := false;
      ghost var lengthBefore := |snake.tail|;
      if WillScore() {
        grow := true;
        Score(draws);
      }
      snake.Move(grow);
      assert |snake.tail| == lengthBefore + (if grow then 1 else 0);
      assert snake.Valid() && |snake.tail| == snake.length - 1 + (level - 1);
      view := view + [ViewUpdate(grow)];
      timer := Some(Timeout());
    }

    /**
     * The scoring branch of `tick`: the level is added to the score, the
     * level goes up and a new apple is placed around the snake before it moves.
     */
    method Score(draws: seq<Draw>)
      requires level >= 1 && snake != null
      requires AllFit(draws) && SomeFree(draws, snake.head, snake.tail)
      modifies this`score, this`level, this`apple
      ensures score == old(score) + old(level) && level == old(level) + 1
      ensures old(score) == Triangle(old(level)) ==> score == Triangle(level)
      ensures apple == Some(NewApple(draws, snake.head, snake.tail))
    {
      score := score + level;
      level := level + 1;
      var a, _ := PlaceApple(draws);
      apple := Some(a);
    }

    /** The placement `start` makes for the given choices succeeds and some apple draw misses it. */
    predicate StartFeasible(c: StartChoice)
      reads this`size
    {
      && 0 <= c.direction < 4
      && var d := DirectionAt(c.direction);
         var b := HeadBox(size, d, 3);
         && b.Some? && PickFits(b.value, c.x, c.y)
         && AllFit(c.apple)
         && var head := HeadAt(b.value, c.x, c.y);
            SomeFree(c.apple, head, TailCells(head, d, 2))
    }

    /**
     * `start()` on a finished game: a new three-cell snake and a new apple,
     * and the first tick scheduled.
     */
    method Start(c: StartChoice)
      requires Inv() && isOver && StartFeasible(c)
      modifies this`isOver, this`snake, this`apple, this`timer, this`view
      ensures Inv()
      ensures !isOver && timer == Some(Timeout()) && view == old(view) + [ViewStart]
      ensures var d := DirectionAt(c.direction);
        && snake != null && fresh(snake)
        && snake.head == HeadAt(HeadBox(size, d, 3).value, c.x, c.y)
        && snake.direction == d && snake.length == 3
        && snake.tail == TailCells(snake.head, d, 2)
      ensures apple == Some(NewApple(c.apple, snake.head, snake.tail))
    {
      assert score == 0 && level == 1;
      isOver := false;
      ghost var d := DirectionAt(c.direction);
      ghost var head := HeadAt(HeadBox(size, d, 3).value, c.x, c.y);
      var s := PlaceSnake(0, c.direction, c.x, c.y);
      assert s != null && s.head == head && s.tail == TailCells(head, d, 2);
      snake := s;
      assert snake.Valid() && |snake.tail| == snake.length - 1 + (level - 1);
      assert SomeFree(c.apple, snake.head, snake.tail);
      var a, _ := PlaceApple(c.apple);
      apple := Some(a);
      view := view + [ViewStart];
      timer := Some(Timeout());
    }

    /** `pause()`: paused, and the pending tick cancelled. */
    method Pause()
      requires Inv()
      modifies this`isPaused, this`timer, this`view
      ensures Inv()
      ensures isPaused && timer == None && view == old(view) + [ViewPause]
    {
      isPaused := true;
      view := view + [ViewPause];
      timer := None;
    }

    /** `resume()`: not paused, and a tick scheduled at the current timeout. */
    method Resume()
      requires Inv()
      modifies this`isPaused, this`timer, this`view
      ensures Inv()
      ensures !isPaused && timer == Some(Timeout()) && view == old(view) + [ViewResume]
    {
      isPaused := false;
      view := view + [ViewResume];
      timer := Some(Timeout());
    }

    /** `over()`: finished, score and level reset, the pending tick cancelled. */
    method Over()
      requires Inv()
      modifies this`isOver, this`score, this`level, this`timer, this`view
      ensures Inv()
      ensures isOver && score == 0 && level == 1 && timer == None && view == old(view) + [ViewOver]
    {
      isOver := true;
      score := 0;
      level := 1;
      view := view + [ViewOver];
      timer := None;
    }
  }
}
