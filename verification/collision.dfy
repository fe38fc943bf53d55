/**
 * Wall collision (server/collision.py): an entity that moved into a box is
 * pushed back out, first along x, then along y.
 */
module Collision {
  import opened ServerGeometry
  import opened Entities

  /** Where the x phase leaves an entity of width `w` that moved `dx` from `start`. */
  function BlockedX(bbox: BoundingBox, start: Vec, dx: real, w: real): real
  {
    var afterX := Vec(start.x + dx, start.y);
    if !IsTouching(BoxAt(afterX, w), bbox) then afterX.x
    else if dx > 0.0 then Left(bbox) - w - 1.0
    else if dx < 0.0 then Right(bbox) + 1.0
    else afterX.x
  }

  /** Where the y phase leaves an entity of width `w` at column `x` that moved `dy` from row `startY`. */
  function BlockedY(bbox: BoundingBox, x: real, startY: real, dy: real, w: real): real
  {
    var afterY := Vec(x, startY + dy);
    if !IsTouching(BoxAt(afterY, w), bbox) then afterY.y
    else if dy > 0.0 then Top(bbox) - w - 1.0
    else if dy < 0.0 then Bottom(bbox) + 1.0
    else afterY.y
  }

  /**
   * Where `block_movement` leaves an entity of box width `w` that moved from
   * `start` to `end` against `bbox`: at `end` if it already touched the box
   * at `start`, otherwise resolved along x and then along y.
   */
  function BlockedPos(bbox: BoundingBox, start: Vec, end: Vec, w: real): Vec
  {
    if IsTouching(BoxAt(start, w), bbox) then end
    else
      var x := BlockedX(bbox, start, end.x - start.x, w);
      Vec(x, BlockedY(bbox, x, start.y, end.y - start.y, w))
  }

  /** `block_movement(bbox, start, entity)`, with the entity at its end position. */
  method BlockMovement(bbox: BoundingBox, start: Vec, e: Entity)
    modifies e`pos
    ensures e.pos == BlockedPos(bbox, start, old(e.pos), BoxWidth(e.cls))
  {
    var endPos := e.pos;
    e.pos := start;
    if IsTouching(e.BBox(), bbox) {
      e.pos := endPos;
    } else {
      var dp := Sub(endPos, start);
      var width := Width(e.BBox());
      var height := Height(e.BBox());
      e.Move(Vec(dp.x, 0.0));
      if IsTouching(e.BBox(), bbox) {
        if dp.x > 0.0 {
          e.SetX(Left(bbox) - width - 1.0);
        } else if dp.x < 0.0 {
          e.SetX(Right(bbox) + 1.0);
        }
      }
      e.Move(Vec(0.0, dp.y));
      if IsTouching(e.BBox(), bbox) {
        if dp.y > 0.0 {
          e.SetY(Top(bbox) - height - 1.0);
        } else if dp.y < 0.0 {
          e.SetY(Bottom(bbox) + 1.0);
        }
      }
    }
  }

  /** An entity that already touched the box where it started keeps its end position. */
  lemma StartTouchingKeepsEnd(bbox: BoundingBox, start: Vec, end: Vec, w: real)
    requires IsTouching(BoxAt(start, w), bbox)
    ensures BlockedPos(bbox, start, end, w) == end
  {
  }

  /** After the x phase the entity, still on its start row, no longer touches the box. */
  lemma {:induction false} XPhaseSeparates(bbox: BoundingBox, start: Vec, dx: real, w: real)
    requires !IsTouching(BoxAt(start, w), bbox)
    ensures !IsTouching(BoxAt(Vec(BlockedX(bbox, start, dx, w), start.y), w), bbox)
  {
    var x := BlockedX(bbox, start, dx, w);
    if IsTouching(BoxAt(Vec(start.x + dx, start.y), w), bbox) {
      if dx > 0.0 {
        assert Right(BoxAt(Vec(x, start.y), w)) < Left(bbox);
      } else if dx < 0.0 {
        assert Left(BoxAt(Vec(x, start.y), w)) > Right(bbox);
      }
    }
  }

  /**
   * An entity that did not touch the box at its start does not touch it
   * after `block_movement`: the move is never left inside the wall.
   */
  lemma {:induction false} BlockedPosSeparates(bbox: BoundingBox, start: Vec, end: Vec, w: real)
    requires !IsTouching(BoxAt(start, w), bbox)
    ensures !IsTouching(BoxAt(BlockedPos(bbox, start, end, w), w), bbox)
  {
    var x := BlockedX(bbox, start, end.x - start.x, w);
    XPhaseSeparates(bbox, start, end.x - start.x, w);
    var dy := end.y - start.y;
    var y := BlockedY(bbox, x, start.y, dy, w);
    if IsTouching(BoxAt(Vec(x, start.y + dy), w), bbox) {
      if dy > 0.0 {
        assert Bottom(BoxAt(Vec(x, y), w)) < Top(bbox);
      } else if dy < 0.0 {
        assert Top(BoxAt(Vec(x, y), w)) > Bottom(bbox);
      }
    }
  }

  /** Standing still leaves the entity where it was. */
  lemma {:induction false} NoMoveStays(bbox: BoundingBox, start: Vec, w: real)
    ensures BlockedPos(bbox, start, start, w) == start
  {
    if !IsTouching(BoxAt(start, w), bbox) {
      assert Vec(start.x + (start.x - start.x), start.y) == start;
      assert BlockedX(bbox, start, 0.0, w) == start.x;
      assert Vec(start.x, start.y + (start.y - start.y)) == start;
    }
  }

  /** A move whose two phases both miss the box is not changed. */
  lemma FreeMoveUnchanged(bbox: BoundingBox, start: Vec, end: Vec, w: real)
    requires !IsTouching(BoxAt(Vec(end.x, start.y), w), bbox)
    requires !IsTouching(BoxAt(end, w), bbox)
    ensures BlockedPos(bbox, start, end, w) == end
  {
    assert Vec(start.x + (end.x - start.x), start.y) == Vec(end.x, start.y);
    assert Vec(end.x, start.y + (end.y - start.y)) == end;
  }

  /**
   * Blocking never carries the entity past its end position, and never more
   * than one unit behind where it started: pushed back out of the wall, it
   * lands one unit clear of the wall's side, which can be just behind its
   * start when it started closer than that. A coordinate that did not move
   * stays put.
   */
  lemma {:induction false} BlockingNeverOvershoots(bbox: BoundingBox, start: Vec, end: Vec, w: real)
    ensures var r := BlockedPos(bbox, start, end, w);
      (end.x > start.x ==> start.x - 1.0 < r.x <= end.x) &&
      (end.x < start.x ==> end.x <= r.x < start.x + 1.0) &&
      (end.x == start.x ==> r.x == start.x) &&
      (end.y > start.y ==> start.y - 1.0 < r.y <= end.y) &&
      (end.y < start.y ==> end.y <= r.y < start.y + 1.0) &&
      (end.y == start.y ==> r.y == start.y)
  {
    if !IsTouching(BoxAt(start, w), bbox) {
      var dx := end.x - start.x;
      var x := BlockedX(bbox, start, dx, w);
      assert start.x + dx == end.x;
      var dy := end.y - start.y;
      assert start.y + dy == end.y;
      XPhaseSeparates(bbox, start, dx, w);
    }
  }

  /**
   * The step back is real: an entity 10 wide at x = 0, clear of a wall whose
   * left side is at 10.5, that moves 5 to the right ends at x = -0.5, behind
   * where it started.
   */
  lemma BlockingCanStepBack()
    ensures var wall := BoundingBox(Vec(10.5, 0.0), Vec(20.0, 10.0));
      var r := BlockedPos(wall, Vec(0.0, 0.0), Vec(5.0, 0.0), 10.0);
      !IsTouching(BoxAt(Vec(0.0, 0.0), 10.0), wall) && r == Vec(-0.5, 0.0)
  {
  }

  /**
   * The x phase is resolved before, and without looking at, the y movement:
   * two moves that differ only in their end row end in the same column.
   */
  lemma XResolvedFirst(bbox: BoundingBox, start: Vec, x: real, y1: real, y2: real, w: real)
    requires !IsTouching(BoxAt(start, w), bbox)
    ensures BlockedPos(bbox, start, Vec(x, y1), w).x == BlockedPos(bbox, start, Vec(x, y2), w).x
  {
  }
}
