/**
 * The browser client's positions and directions (js/index/geometry.mjs).
 * JavaScript numbers are modelled as reals.
 */
module ClientGeometry {
  import opened Wrappers

  datatype Vec = Vec(x: real, y: real)

  /** `add`: componentwise addition. */
  function Add(v: Vec, p: Vec): Vec
  {
    Vec(v.x + p.x, v.y + p.y)
  }

  /** `relativeTo`: where `v` lies as seen from `p`; adding `p` back gives `v`. */
  function RelativeTo(v: Vec, p: Vec): (r: Vec)
    ensures Add(r, p) == v
    ensures r == Vec(0.0, 0.0) <==> v == p
  {
    Vec(v.x - p.x, v.y - p.y)
  }

  /**
   * `relToPlayer`: the screen position of the world position `v`, given the
   * player's world position (None before the player exists, which throws)
   * and the screen position the player is drawn at.
   */
  function RelToPlayer(v: Vec, playerPos: Option<Vec>, playerDrawPos: Vec): (r: Result<Vec>)
    ensures r.Err? <==> playerPos.None?
    ensures r.Err? ==> r.error == Thrown("Player doesn't exist yet")
    ensures r.Ok? ==> RelativeTo(r.value, playerDrawPos) == RelativeTo(v, playerPos.value)
    ensures playerPos == Some(v) ==> r == Ok(playerDrawPos)
  {
    match playerPos
    case None => Err(Thrown("Player doesn't exist yet"))
    case Some(p) => Ok(Add(RelativeTo(v, p), playerDrawPos))
  }

  /** `Dir`: the four facings. */
  datatype Dir = Left | Up | Right | Down

  /** The number `Dir` gives each facing: LEFT 1, UP 2, RIGHT 3, DOWN 4. */
  function DirCode(d: Dir): (c: int)
    ensures 1 <= c <= 4
  {
    match d
    case Left => 1
    case Up => 2
    case Right => 3
    case Down => 4
  }

  /** The letter the protocol uses for each facing. */
  function DirLetter(d: Dir): string
  {
    match d
    case Left => "l"
    case Up => "u"
    case Right => "r"
    case Down => "d"
  }

  /** `strToDir`: one of the four letters, or `undefined` (None) for any other string. */
  function StrToDir(s: string): (r: Option<Dir>)
    ensures r.Some? <==> s in ["l", "u", "r", "d"]
    ensures r.Some? ==> DirLetter(r.value) == s
  {
    if s == "l" then Some(Left)
    else if s == "u" then Some(Up)
    else if s == "r" then Some(Right)
    else if s == "d" then Some(Down)
    else None
  }

  /** Distinct facings have distinct numbers, and each facing's letter reads back as that facing. */
  lemma DirRoundTrip(d: Dir, e: Dir)
    ensures DirCode(d) == DirCode(e) ==> d == e
    ensures StrToDir(DirLetter(d)) == Some(d)
  {
  }
}
