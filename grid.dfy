/**
 * Grid geometry shared by the snake and the board: points, the four
 * facing directions and the small sequence helpers the source uses
 * (`Array.prototype.filter` on points, `slice(0, -1)`).
 */
module Grid {
  import opened Wrappers

  /** An `{x, y}` coordinate object. */
  datatype Point = Point(x: int, y: int)

  /** The facing directions, written 'N', 'S', 'W' and 'E' in the source. */
  datatype Direction = N | S | W | E

  /** The one-letter string the source stores for a direction. */
  function Letter(d: Direction): string
  {
    match d
    case N => "N"
    case S => "S"
    case W => "W"
    case E => "E"
  }

  /**
   * The test `/^[NESW]$/.test(s)`: a direction exactly when the string is one
   * of the four capital letters and nothing else.
   */
  function ParseDirection(s: string): (r: Option<Direction>)
    ensures r.Some? <==> |s| == 1 && s[0] in "NESW"
    ensures r.Some? ==> Letter(r.value) == s
  {
    if s == "N" then Some(N)
    else if s == "S" then Some(S)
    else if s == "W" then Some(W)
    else if s == "E" then Some(E)
    else None
  }

  /** Parsing the letter of a direction gives that direction back. */
  lemma ParseLetter(d: Direction)
    ensures ParseDirection(Letter(d)) == Some(d)
  {
  }

  function Opposite(d: Direction): Direction
  {
    match d
    case N => S
    case S => N
    case W => E
    case E => W
  }

  /**
   * The point `k` cells away from `p` towards `d`, with y growing
   * downwards (north is y - 1, as on the screen).
   */
  function Shift(p: Point, d: Direction, k: int): Point
  {
    match d
    case N => Point(p.x, p.y - k)
    case S => Point(p.x, p.y + k)
    case W => Point(p.x - k, p.y)
    case E => Point(p.x + k, p.y)
  }

  /** Manhattan distance, used to state that cells are neighbours. */
  function Distance(p: Point, q: Point): nat
  {
    (if p.x < q.x then q.x - p.x else p.x - q.x) + (if p.y < q.y then q.y - p.y else p.y - q.y)
  }

  /** The comparison `a.x === b.x && a.y === b.y` the source writes out. */
  predicate SameCell(a: Point, b: Point)
  {
    a.x == b.x && a.y == b.y
  }

  /**
   * `cells.filter(c => c.x === p.x && c.y === p.y)`; the source tests its
   * `length > 0`, which is membership.
   */
  function Filter(cells: seq<Point>, p: Point): (m: seq<Point>)
    ensures |m| > 0 <==> p in cells
    ensures forall q :: q in m ==> q == p
  {
    if cells == [] then []
    else if SameCell(cells[0], p) then [cells[0]] + Filter(cells[1..], p)
    else Filter(cells[1..], p)
  }

  /** `s.slice(0, -1)`: everything but the last element, empty for an empty sequence. */
  function DropLast<T>(s: seq<T>): (r: seq<T>)
    ensures |s| > 0 ==> |r| == |s| - 1 && s == r + [s[|s| - 1]]
    ensures |s| == 0 ==> r == []
  {
    if |s| == 0 then [] else s[..|s| - 1]
  }
}
