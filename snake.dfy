/**
 * The snake of src/lib/Snake.js: a head point, the tail cells in order from
 * the head, a facing direction and the length it was built with.
 */
module Snakes {
  import opened Wrappers
  import opened Grid

  /**
   * The cells `placeTail` lays out: cell i is the head moved i + 1 cells
   * against the facing direction.
   */
  function TailCells(head: Point, d: Direction, n: int): (t: seq<Point>)
  {
    seq(if n < 0 then 0 else n, i => Shift(head, Opposite(d), i + 1))
  }

  /** The length the constructor keeps: the argument when it exceeds 3, otherwise 3. */
  function InitialLength(length: int): int
  {
    if length > 3 then length else 3
  }

  /** The direction the constructor keeps: the argument when it is a direction letter, otherwise N. */
  function InitialDirection(direction: string): Direction
  {
    match ParseDirection(direction)
    case Some(d) => d
    case None => N
  }

  class Snake {
    var head: Point
    /** The body behind the head, head-adjacent cell first. */
    var tail: seq<Point>
    /** False when `placeTail` returned its failure sentinel `false`; `tail` is then empty. */
    var tailPlaced: bool
    var direction: Direction
    var length: int

    /** A snake whose tail was laid out; the constructor never keeps a length below 3. */
    predicate Valid()
      reads this
    {
      tailPlaced && length >= 3
    }

    /**
     * `new Snake(x, y, direction, length)`; an absent direction is the empty
     * string and an absent length is 0, both falsy as in the source.
     */
    constructor (x: int, y: int, direction: string, length: int)
      ensures head == Point(x, y)
      ensures this.direction == InitialDirection(direction)
      ensures this.length == InitialLength(length) && this.length >= 3
      ensures tailPlaced <==> x != 0 && y != 0
      ensures tailPlaced ==> |tail| == this.length - 1
      ensures tailPlaced ==> forall i :: 0 <= i < |tail| ==> tail[i] == Shift(head, Opposite(this.direction), i + 1)
      ensures !tailPlaced ==> tail == []
      ensures Valid() <==> x != 0 && y != 0
    {
      head := Point(x, y);
      this.direction := InitialDirection(direction);
      this.length := InitialLength(length);
      tail := [];
      tailPlaced := false;
      new;
      var placed := PlaceTail();
      if placed.Some? {
        tail := placed.value;
        tailPlaced := true;
      }
    }

    /**
     * `placeTail()`: fails with `None` (the source's `false`) unless both head
     * coordinates are non-zero; otherwise pushes length - 1 cells behind the head.
     */
    method PlaceTail() returns (t: Option<seq<Point>>)
      ensures t.Some? <==> head.x != 0 && head.y != 0
      ensures t.Some? ==> |t.value| == (if length > 1 then length - 1 else 0)
      ensures t.Some? ==> forall i :: 0 <= i < |t.value| ==> t.value[i] == Shift(head, Opposite(direction), i + 1)
    {
      if head.x != 0 && head.y != 0 {
        var cells: seq<Point> := [];
        var l := 1;
        while l < length
          invariant 1 <= l && (l <= length || l == 1)
          invariant |cells| == l - 1
          invariant forall i :: 0 <= i < |cells| ==> cells[i] == Shift(head, Opposite(direction), i + 1)
        {
          match direction {
            case N => cells := cells + [Point(head.x, head.y + l)];
            case S => cells := cells + [Point(head.x, head.y - l)];
            case W => cells := cells + [Point(head.x + l, head.y)];
            case E => cells := cells + [Point(head.x - l, head.y)];
          }
          l := l + 1;
        }
        t := Some(cells);
      } else {
        t := None;
      }
    }

    /**
     * `turn(direction)`: takes the new direction when it is a direction
     * letter; otherwise keeps the old one and returns false. True stands for
     * the source's undefined return.
     */
    method Turn(direction: string) returns (ok: bool)
      modifies this`direction
      ensures ok <==> ParseDirection(direction).Some?
      ensures ok ==> this.direction == ParseDirection(direction).value
      ensures !ok ==> this.direction == old(this.direction)
    {
      match ParseDirection(direction)
      case Some(d) =>
        this.direction := d;
        ok := true;
      case None =>
        ok := false;
    }

    /** The `tongue` getter: the cell right in front of the head. */
    function Tongue(): (t: Point)
      reads this`head, this`direction
      ensures t == Shift(head, direction, 1)
      ensures Shift(t, Opposite(direction), 1) == head
      ensures Distance(head, t) == 1
    {
      match direction
      case N => Point(head.x, head.y - 1)
      case S => Point(head.x, head.y + 1)
      case W => Point(head.x - 1, head.y)
      case E => Point(head.x + 1, head.y)
    }

    /**
     * `move(grow)`: the old head becomes the first tail cell, the last tail
     * cell is dropped unless growing, and the head steps onto the tongue.
     * A failed tail (`false` in the source) makes the spread throw, hence the
     * requirement.
     */
    method Move(grow: bool)
      requires tailPlaced
      modifies this`head, this`tail
      ensures head == old(Tongue())
      ensures tail == [old(head)] + (if grow then old(tail) else DropLast(old(tail)))
      ensures grow ==> |tail| == |old(tail)| + 1
      ensures !grow && |old(tail)| > 0 ==> |tail| == |old(tail)|
      ensures !grow && |old(tail)| > 0 ==> tail[1..] == old(tail)[..|old(tail)| - 1]
    {
      if grow {
        tail := [head] + tail;
      } else {
        tail := [head] + DropLast(tail);
      }
      head := Tongue();
    }
  }

  /**
   * A freshly laid tail is a straight line behind the head: each cell
   * neighbours the one before it, and the tongue is not on it.
   */
  lemma TailIsStraight(head: Point, d: Direction, n: int)
    ensures |TailCells(head, d, n)| > 0 ==> Distance(head, TailCells(head, d, n)[0]) == 1
    ensures forall i :: 0 <= i < |TailCells(head, d, n)| - 1 ==>
      Distance(TailCells(head, d, n)[i], TailCells(head, d, n)[i + 1]) == 1
    ensures Shift(head, d, 1) !in TailCells(head, d, n)
    ensures head !in TailCells(head, d, n)
  {
  }
}
