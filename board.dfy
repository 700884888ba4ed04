/**
 * The board of src/lib/Game.js as values: its size, the border walls
 * `placeWalls` builds, and the range arithmetic `placeSnake` uses to keep a
 * new snake away from the walls.
 */
module Board {
  import opened Wrappers
  import opened Grid
  import opened Snakes

  /** Board size in cells, the one-cell wall border included. */
  datatype Size = Size(width: int, height: int)

  /**
   * The constructor's size: both arguments truthy (non-zero) give the
   * playable area plus the border, otherwise the default 52 by 52.
   */
  function BoardSize(width: int, height: int): Size
  {
    if width != 0 && height != 0 then Size(width + 2, height + 2) else Size(52, 52)
  }

  /** A cell of the outermost ring of the board. */
  predicate OnBorder(size: Size, p: Point)
  {
    && 0 <= p.x < size.width && 0 <= p.y < size.height
    && (p.x == 0 || p.x == size.width - 1 || p.y == 0 || p.y == size.height - 1)
  }

  /** A cell strictly inside the border. */
  predicate Interior(size: Size, p: Point)
  {
    1 <= p.x <= size.width - 2 && 1 <= p.y <= size.height - 2
  }

  // ---------------------------------------------------------------------
  // Walls

  /** The full-height column at x, from y = 0 down. */
  function Column(x: int, height: int): seq<Point>
  {
    seq(if height > 0 then height else 0, y => Point(x, y))
  }

  /** The `bricks` of column x: the whole column at the sides, top and bottom cells elsewhere. */
  function Bricks(size: Size, x: int): seq<Point>
  {
    if x == 0 || x == size.width - 1 then Column(x, size.height)
    else [Point(x, 0), Point(x, size.height - 1)]
  }

  /** The walls after the first n columns have been appended. */
  function WallsUpTo(size: Size, n: int): seq<Point>
    decreases n
  {
    if n <= 0 then [] else WallsUpTo(size, n - 1) + Bricks(size, n - 1)
  }

  /** What `placeWalls` returns. */
  function Walls(size: Size): seq<Point>
  {
    WallsUpTo(size, size.width)
  }

  /** Column-major order: by x, then by y. */
  predicate Before(p: Point, q: Point)
  {
    p.x < q.x || (p.x == q.x && p.y < q.y)
  }

  predicate Ascending(s: seq<Point>)
  {
    forall i, j :: 0 <= i < j < |s| ==> Before(s[i], s[j])
  }

  lemma BricksFacts(size: Size, x: int)
    requires size.width >= 2 && size.height >= 2 && 0 <= x < size.width
    ensures |Bricks(size, x)| == if x == 0 || x == size.width - 1 then size.height else 2
    ensures forall p :: p in Bricks(size, x) <==> OnBorder(size, p) && p.x == x
    ensures Ascending(Bricks(size, x))
  {
    var b := Bricks(size, x);
    forall p | OnBorder(size, p) && p.x == x
      ensures p in b
    {
      if x == 0 || x == size.width - 1 {
        assert b[p.y] == p;
      } else if p.y == 0 {
        assert b[0] == p;
      } else {
        assert b[1] == p;
      }
    }
  }

  lemma {:induction false} WallsUpToCount(size: Size, n: int)
    requires size.width >= 2 && size.height >= 2 && 0 <= n <= size.width
    ensures |WallsUpTo(size, n)| ==
      if n == 0 then 0
      else if n < size.width then size.height + 2 * (n - 1)
      else 2 * size.height + 2 * (size.width - 2)
  {
    if n > 0 {
      WallsUpToCount(size, n - 1);
      BricksFacts(size, n - 1);
    }
  }

  lemma {:induction false} WallsUpToCells(size: Size, n: int)
    requires size.width >= 2 && size.height >= 2 && 0 <= n <= size.width
    ensures forall p :: p in WallsUpTo(size, n) <==> OnBorder(size, p) && p.x < n
  {
    if n > 0 {
      WallsUpToCells(size, n - 1);
      BricksFacts(size, n - 1);
    }
  }

  lemma {:induction false} WallsUpToAscending(size: Size, n: int)
    requires size.width >= 2 && size.height >= 2 && 0 <= n <= size.width
    ensures Ascending(WallsUpTo(size, n))
  {
    if n > 0 {
      WallsUpToAscending(size, n - 1);
      WallsUpToCells(size, n - 1);
      BricksFacts(size, n - 1);
      var a, b := WallsUpTo(size, n - 1), Bricks(size, n - 1);
      assert WallsUpTo(size, n) == a + b;
      forall i, j | 0 <= i < j < |a + b|
        ensures Before((a + b)[i], (a + b)[j])
      {
        if j < |a| {
        } else if i >= |a| {
          assert (a + b)[i] == b[i - |a|] && (a + b)[j] == b[j - |a|];
        } else {
          assert a[i] in a && b[j - |a|] in b;
        }
      }
    }
  }

  /**
   * The walls are exactly the border ring, listed once each in column-major
   * order, 2W + 2H - 4 of them.
   */
  lemma WallsAreBorder(size: Size)
    requires size.width >= 2 && size.height >= 2
    ensures |Walls(size)| == 2 * size.width + 2 * size.height - 4
    ensures forall p :: p in Walls(size) <==> OnBorder(size, p)
    ensures Ascending(Walls(size))
    ensures forall i, j :: 0 <= i < j < |Walls(size)| ==> Walls(size)[i] != Walls(size)[j]
  {
    WallsUpToCount(size, size.width);
    WallsUpToCells(size, size.width);
    WallsUpToAscending(size, size.width);
  }

  // ---------------------------------------------------------------------
  // Snake placement

  const SnakeWidth := 1
  const WallThickness := 1
  /** Free cells kept along and across the snake. */
  const BufferAlong := 2
  const BufferAcross := 1

  /** `['N', 'S', 'W', 'E'][i]`, the random pick of a direction. */
  function DirectionAt(i: int): Direction
    requires 0 <= i < 4
  {
    [N, S, W, E][i]
  }

  predicate Vertical(d: Direction)
  {
    d == N || d == S
  }

  /** Inclusive bounds for the head of a new snake. */
  datatype Box = Box(minX: int, maxX: int, minY: int, maxY: int)

  predicate InBox(b: Box, p: Point)
  {
    b.minX <= p.x <= b.maxX && b.minY <= p.y <= b.maxY
  }

  /**
   * The head range `placeSnake` computes for a snake of `snakeLength` cells
   * facing d, or None when the space check for that orientation fails.
   */
  function HeadBox(size: Size, d: Direction, snakeLength: int): (r: Option<Box>)
    ensures r.None? <==>
      if Vertical(d) then size.height < snakeLength + 6 || size.width < 5
      else size.height < 5 || size.width < snakeLength + 6
    ensures r.Some? ==> r.value.minX <= r.value.maxX && r.value.minY <= r.value.maxY
  {
    if Vertical(d) then
      if size.height - WallThickness * 2 - snakeLength < BufferAlong * 2
         || size.width - WallThickness * 2 - SnakeWidth < BufferAcross * 2
      then None
      else
        var minX := WallThickness + BufferAcross;
        var maxX := size.width - WallThickness * 2 - BufferAcross;
        if d == N then
          Some(Box(minX, maxX, WallThickness + BufferAlong, size.height - WallThickness - snakeLength - BufferAlong))
        else
          Some(Box(minX, maxX, snakeLength + BufferAlong, size.height - WallThickness * 2 - BufferAlong))
    else
      if size.height - WallThickness * 2 - SnakeWidth < BufferAcross * 2
         || size.width - WallThickness * 2 - snakeLength < BufferAlong * 2
      then None
      else
        var minY := WallThickness + BufferAcross;
        var maxY := size.height - WallThickness * 2 - BufferAcross;
        if d == W then
          Some(Box(WallThickness + BufferAlong, size.width - WallThickness - snakeLength - BufferAlong, minY, maxY))
        else
          Some(Box(snakeLength + BufferAlong, size.width - WallThickness * 2 - BufferAlong, minY, maxY))
  }

  /** The cells at least one free cell away from every wall. */
  predicate Clear(size: Size, p: Point)
  {
    2 <= p.x <= size.width - 3 && 2 <= p.y <= size.height - 3
  }

  /**
   * A snake of `snakeLength >= 1` cells whose head lies in the range lies,
   * with its tongue, in the clear zone; its tongue is neither a wall nor a
   * tail cell, so its first step cannot crash.
   */
  lemma SpawnIsClear(size: Size, d: Direction, snakeLength: int, head: Point)
    requires snakeLength >= 1
    requires HeadBox(size, d, snakeLength).Some? && InBox(HeadBox(size, d, snakeLength).value, head)
    ensures head.x != 0 && head.y != 0
    ensures Clear(size, head)
    ensures forall p :: p in TailCells(head, d, snakeLength - 1) ==> Clear(size, p)
    ensures Clear(size, Shift(head, d, 1))
    ensures !OnBorder(size, Shift(head, d, 1))
    ensures Shift(head, d, 1) !in TailCells(head, d, snakeLength - 1)
  {
    TailIsStraight(head, d, snakeLength - 1);
  }
}
