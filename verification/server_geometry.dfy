/**
 * Server geometry (server/geometry.py): immutable 2D vectors, the four
 * cardinal directions with their one-letter codes, and axis-aligned bounding
 * boxes with a closed-interval touch test.
 */
module ServerGeometry {
  import opened Wrappers

  datatype Vec = Vec(x: real, y: real)

  /** `relative_to`: the displacement from `other` to `v`. */
  function RelativeTo(v: Vec, other: Vec): Vec
  {
    Vec(v.x - other.x, v.y - other.y)
  }

  function Add(v: Vec, w: Vec): Vec
  {
    Vec(v.x + w.x, v.y + w.y)
  }

  function Sub(v: Vec, w: Vec): Vec
  {
    Vec(v.x - w.x, v.y - w.y)
  }

  function Scale(v: Vec, k: real): Vec
  {
    Vec(v.x * k, v.y * k)
  }

  /** Subtraction and addition undo each other, and `relative_to` is `-`. */
  lemma VecAlgebra(v: Vec, w: Vec)
    ensures RelativeTo(v, w) == Sub(v, w)
    ensures Add(Sub(v, w), w) == v
    ensures Sub(Add(v, w), w) == v
    ensures Add(v, w) == Add(w, v)
    ensures Scale(v, 1.0) == v && Scale(v, 0.0) == Vec(0.0, 0.0)
  {
  }

  /** `vec_from_direction_str`: the unit vector for a one-letter direction. */
  function VecFromDirectionStr(s: string): Option<Vec>
  {
    if s == "l" then Some(Vec(-1.0, 0.0))
    else if s == "r" then Some(Vec(1.0, 0.0))
    else if s == "u" then Some(Vec(0.0, -1.0))
    else if s == "d" then Some(Vec(0.0, 1.0))
    else None
  }

  /** The four letters give unit vectors along one axis; every other string gives None. */
  lemma VecFromDirectionStrUnit(s: string)
    ensures VecFromDirectionStr(s).Some? <==> s in {"l", "r", "u", "d"}
    ensures VecFromDirectionStr(s).Some? ==>
      var v := VecFromDirectionStr(s).value;
      (v.x == 0.0 || v.y == 0.0) && (v.x * v.x + v.y * v.y == 1.0)
  {
  }

  datatype Direction = LEFT | UP | RIGHT | DOWN

  /** The enum values LEFT = 0, UP = 1, RIGHT = 2, DOWN = 3. */
  function DirectionValue(d: Direction): (v: nat)
    ensures v < 4
  {
    match d
    case LEFT => 0
    case UP => 1
    case RIGHT => 2
    case DOWN => 3
  }

  /** Distinct directions have distinct enum values. */
  lemma DirectionValueInjective(d: Direction, e: Direction)
    ensures DirectionValue(d) == DirectionValue(e) ==> d == e
  {
  }

  /** `direction_to_str`; its ValueError branch cannot be reached by an enum member. */
  function DirectionToStr(d: Direction): string
  {
    match d
    case LEFT => "l"
    case UP => "u"
    case RIGHT => "r"
    case DOWN => "d"
  }

  /** `str_to_direction`: ValueError for any string but the four letters. */
  function StrToDirection(s: string): Result<Direction>
  {
    if s == "l" then Ok(LEFT)
    else if s == "u" then Ok(UP)
    else if s == "r" then Ok(RIGHT)
    else if s == "d" then Ok(DOWN)
    else Err(ValueError)
  }

  /** The two conversions are mutually inverse on the four directions. */
  lemma DirectionStrRoundTrip(d: Direction, s: string)
    ensures StrToDirection(DirectionToStr(d)) == Ok(d)
    ensures StrToDirection(s).Ok? ==> DirectionToStr(StrToDirection(s).value) == s
    ensures StrToDirection(s) == Err(ValueError) <==> s !in {"l", "u", "r", "d"}
    ensures |DirectionToStr(d)| == 1
  {
  }

  datatype BoundingBox = BoundingBox(vec1: Vec, vec2: Vec)

  /** `get_bound`: the coordinate of the side facing direction `d`. */
  function GetBound(b: BoundingBox, d: Direction): real
  {
    match d
    case LEFT => b.vec1.x
    case UP => b.vec1.y
    case RIGHT => b.vec2.x
    case DOWN => b.vec2.y
  }

  function Left(b: BoundingBox): real { GetBound(b, LEFT) }
  function Top(b: BoundingBox): real { GetBound(b, UP) }
  function Right(b: BoundingBox): real { GetBound(b, RIGHT) }
  function Bottom(b: BoundingBox): real { GetBound(b, DOWN) }

  function Width(b: BoundingBox): real { b.vec2.x - b.vec1.x }
  function Height(b: BoundingBox): real { b.vec2.y - b.vec1.y }

  /** The sides are the corners' coordinates and the extent is their difference. */
  lemma BoundsOfBox(b: BoundingBox)
    ensures Left(b) == b.vec1.x && Top(b) == b.vec1.y
    ensures Right(b) == b.vec2.x && Bottom(b) == b.vec2.y
    ensures Right(b) == Left(b) + Width(b) && Bottom(b) == Top(b) + Height(b)
  {
  }

  /** `is_touching`: not separated along either axis. */
  predicate IsTouching(a: BoundingBox, b: BoundingBox)
  {
    !(Left(b) > Right(a) || Right(b) < Left(a) || Top(b) > Bottom(a) || Bottom(b) < Top(a))
  }

  /** Closed intervals overlap on both axes. */
  predicate Overlap(lo1: real, hi1: real, lo2: real, hi2: real)
  {
    lo2 <= hi1 && lo1 <= hi2
  }

  /**
   * Touching is symmetric and means the closed x- and y-extents overlap, so
   * boxes that only share an edge or a corner touch.
   */
  lemma IsTouchingMeansOverlap(a: BoundingBox, b: BoundingBox)
    ensures IsTouching(a, b) <==>
      Overlap(Left(a), Right(a), Left(b), Right(b)) && Overlap(Top(a), Bottom(a), Top(b), Bottom(b))
    ensures IsTouching(a, b) <==> IsTouching(b, a)
  {
  }

  /** Two boxes that share an edge touch. */
  lemma SharedEdgeTouches(a: BoundingBox, b: BoundingBox)
    requires Left(a) <= Right(a) && Top(a) <= Bottom(a)
    requires Left(b) <= Right(b) && Top(b) <= Bottom(b)
    requires Right(a) == Left(b)
    requires Overlap(Top(a), Bottom(a), Top(b), Bottom(b))
    ensures IsTouching(a, b) && IsTouching(b, a)
  {
  }

  /** A box whose first corner is above and left of its second touches itself. */
  lemma SelfTouching(b: BoundingBox)
    ensures IsTouching(b, b) <==> (b.vec1.x <= b.vec2.x && b.vec1.y <= b.vec2.y)
  {
  }
}
