/**
 * Server entities (server/entitybasic.py) and the Walker NPC
 * (server/entity.py). The source's class hierarchy Entity > Walker and
 * Entity > Player is flattened into one class whose `cls` names the
 * subclass; the Walker's extra state lives in fields that the other
 * classes leave untouched.
 */
module Entities {
  import opened Wrappers
  import opened Json
  import opened ServerGeometry
  import opened TileCoords
  import opened Uuids
  import opened AssocLists
  import opened Registries
  import ServerConfig

  /** The Entity subclasses of the server. */
  datatype EntityClass = BaseEntity | WalkerClass | PlayerClass

  /** The registrations made at import time: only Walker, as "walker". */
  const STANDARD_ENTITIES: seq<(string, EntityClass)> := [("walker", WalkerClass)]

  const BW: real := ServerConfig.BLOCK_WIDTH as real
  const PW: real := ServerConfig.PLAYER_WIDTH as real

  /** The width of an entity's square box: a block, or a player's width for Walker and Player. */
  function BoxWidth(cls: EntityClass): (w: real)
    ensures w > 0.0
    ensures w == BW <==> cls == BaseEntity
  {
    if cls == BaseEntity then BW else PW
  }

  /** `get_bounding_box_of_width`: the square of side `width` with corner `pos`. */
  function BoxAt(pos: Vec, width: real): BoundingBox
  {
    BoundingBox(pos, Add(pos, Vec(width, width)))
  }

  /** The box starts at the position and is `width` wide and high. */
  lemma BoxAtExtent(pos: Vec, width: real)
    ensures Left(BoxAt(pos, width)) == pos.x && Top(BoxAt(pos, width)) == pos.y
    ensures Width(BoxAt(pos, width)) == width && Height(BoxAt(pos, width)) == width
  {
  }

  /** Tile `a` comes before tile `b` in row-major order. */
  predicate RowMajorBefore(a: TileCoord, b: TileCoord)
  {
    a.blockY < b.blockY || (a.blockY == b.blockY && a.blockX < b.blockX)
  }

  /** The tiles of row `y` from column `x0` to column `x1`, left to right. */
  function TileRow(y: int, x0: int, x1: int): (r: seq<TileCoord>)
    ensures |r| == if x0 <= x1 then x1 - x0 + 1 else 0
    ensures forall k :: 0 <= k < |r| ==> r[k] == TileCoord(x0 + k, y)
    decreases x1 - x0
  {
    if x0 > x1 then [] else [TileCoord(x0, y)] + TileRow(y, x0 + 1, x1)
  }

  /**
   * The tiles of the inclusive rectangle between two corner tiles, row by
   * row: exactly the tiles inside, each once, in row-major order.
   */
  function TileRect(x0: int, y0: int, x1: int, y1: int): (r: seq<TileCoord>)
    ensures forall t :: t in r <==> x0 <= t.blockX <= x1 && y0 <= t.blockY <= y1
    ensures forall i, j :: 0 <= i < j < |r| ==> RowMajorBefore(r[i], r[j])
    ensures |r| == if x0 <= x1 && y0 <= y1 then (x1 - x0 + 1) * (y1 - y0 + 1) else 0
    decreases y1 - y0
  {
    if y0 > y1 then []
    else
      var row := TileRow(y0, x0, x1);
      var rest := TileRect(x0, y0 + 1, x1, y1);
      assert forall i, j :: 0 <= i < |row| && 0 <= j < |rest| ==> RowMajorBefore(row[i], rest[j]) by {
        forall i, j | 0 <= i < |row| && 0 <= j < |rest|
          ensures RowMajorBefore(row[i], rest[j])
        {
          assert rest[j] in rest;
        }
      }
      assert forall t: TileCoord :: t in row <==> x0 <= t.blockX <= x1 && t.blockY == y0 by {
        forall t: TileCoord | x0 <= t.blockX <= x1 && t.blockY == y0
          ensures t in row
        {
          assert row[t.blockX - x0] == t;
        }
      }
      if x0 <= x1 then
        assert |row + rest| == (x1 - x0 + 1) + (x1 - x0 + 1) * (y1 - y0);
        row + rest
      else row + rest
  }

  /** `get_tiles_touched` of a box with corner `pos` and side `width`. */
  function TouchedTiles(pos: Vec, width: real): seq<TileCoord>
  {
    var b := BoxAt(pos, width);
    var s := PosToTileCoord(b.vec1);
    var e := PosToTileCoord(b.vec2);
    TileRect(s.blockX, s.blockY, e.blockX, e.blockY)
  }

  /** For a box in the non-negative quadrant, every tile listed touches the box. */
  lemma TouchedTileTouches(pos: Vec, width: real, t: TileCoord)
    requires pos.x >= 0.0 && pos.y >= 0.0 && width >= 0.0
    requires t in TouchedTiles(pos, width)
    ensures IsTouching(BoxAt(ToPos(t), BW), BoxAt(pos, width))
  {
    var b := BoxAt(pos, width);
    PosInItsTile(b.vec1);
    PosInItsTile(b.vec2);
    var s := PosToTileCoord(b.vec1);
    var e := PosToTileCoord(b.vec2);
    assert (s.blockX * 32) as real <= (t.blockX * 32) as real <= (e.blockX * 32) as real;
    assert (s.blockY * 32) as real <= (t.blockY * 32) as real <= (e.blockY * 32) as real;
  }

  /** `"really " * n`. */
  function Repeat(s: string, n: nat): (r: string)
    ensures |r| == |s| * n
  {
    if n == 0 then "" else s + Repeat(s, n - 1)
  }

  /** The Walker's three lines of dialogue. */
  const WALKER_DIALOGUE: seq<string> :=
    ["Hi!", "This is dialogue.", "And this is " + Repeat("really ", 42) + "long dialogue."]

  /** How far the Walker patrols either side of its starting x: three blocks. */
  const PATROL_RADIUS: real := BW * 3.0

  /**
   * The Walker's turn at the patrol edges: an x past an edge is reflected
   * about that edge. A step that overshoots by at most the patrol width lands
   * back inside the range.
   */
  function Patrol(x: real, lo: real, hi: real): (r: real)
    ensures lo <= x <= hi ==> r == x
    ensures lo <= hi && lo - (hi - lo) <= x <= hi + (hi - lo) ==> lo <= r <= hi
    ensures x > hi ==> r - hi == hi - x
    ensures lo <= hi && x < lo ==> r - lo == lo - x
  {
    if x > hi then hi - (x - hi)
    else if x < lo then lo + (lo - x)
    else x
  }

  /** What the Walker sends to a player who talks to it. */
  datatype DialogueEvent = SendDialogue(text: string) | SendDialogueEnd

  /** The fields a saved entity keeps. */
  datatype EntityRecord = EntityRecord(uuid: Uuid, cls: EntityClass, pos: Vec, velocity: Vec, facing: Direction)

  function VecToJson(v: Vec): Json
  {
    JObj([("x", JNum(v.x)), ("y", JNum(v.y))])
  }

  /** `Vec(d["x"], d["y"])`; a non-number coordinate is refused here with TypeError. */
  function VecFromJson(j: Json): (r: Result<Vec>)
    ensures r.Ok? ==> j.JObj? && Find(j.fields, "x") == Some(JNum(r.value.x))
    ensures r.Ok? ==> Find(j.fields, "y") == Some(JNum(r.value.y))
  {
    var x :- PyGet(j, "x");
    var y :- PyGet(j, "y");
    if x.JNum? && y.JNum? then Ok(Vec(x.n, y.n)) else Err(TypeError)
  }

  /** `Direction.str_to_direction` on a JSON value: anything but the four letters is a ValueError. */
  function FacingFromJson(j: Json): (r: Result<Direction>)
    ensures r.Ok? ==> j == JStr(DirectionToStr(r.value))
  {
    if j.JStr? then StrToDirection(j.s) else Err(ValueError)
  }

  /**
   * `Entity.from_json` up to the constructor call: the class, position,
   * velocity and facing, then the UUID, each failure in that order.
   */
  function ParseEntity(reg: seq<(string, EntityClass)>, j: Json): (r: Result<EntityRecord>)
    ensures r.Ok? ==> HasKey(j, "entity_id") && HasKey(j, "pos") && HasKey(j, "velocity")
    ensures r.Ok? ==> HasKey(j, "facing") && HasKey(j, "uuid")
  {
    var idJson :- PyGet(j, "entity_id");
    var cls :- GetById(reg, idJson);
    var posJson :- PyGet(j, "pos");
    var pos :- VecFromJson(posJson);
    var velJson :- PyGet(j, "velocity");
    var velocity :- VecFromJson(velJson);
    var facingJson :- PyGet(j, "facing");
    var facing :- FacingFromJson(facingJson);
    var uuidJson :- PyGet(j, "uuid");
    var uuid :- ParseUuid(uuidJson);
    Ok(EntityRecord(uuid, cls, pos, velocity, facing))
  }

  /** `Entity.to_json` of an entity that has a UUID. */
  function RecordToJson(reg: seq<(string, EntityClass)>, e: EntityRecord): (r: Result<Json>)
    ensures r.Ok? <==> KeyOf(reg, e.cls).Some?
    ensures r.Ok? ==> r.value.JObj? && Keys(r.value.fields) == ["uuid", "entity_id", "pos", "velocity", "facing"]
  {
    var id :- IdOf(reg, e.cls);
    Ok(EntityJson(id, e))
  }

  /** A position or velocity reads back as written. */
  lemma VecJsonRoundTrip(v: Vec)
    ensures VecFromJson(VecToJson(v)) == Ok(v)
  {
    var fields := VecToJson(v).fields;
    assert "x" != "y" by { assert "x"[0] != "y"[0]; }
    assert fields[1..] == [("y", JNum(v.y))];
    assert Find(fields, "y") == Find(fields[1..], "y");
  }

  /** The saved form of an entity whose class is registered as `id`. */
  function EntityJson(id: string, e: EntityRecord): Json
  {
    JObj([("uuid", JStr(Hex(e.uuid))), ("entity_id", JStr(id)), ("pos", VecToJson(e.pos)),
          ("velocity", VecToJson(e.velocity)), ("facing", JStr(DirectionToStr(e.facing)))])
  }

  lemma EntityJsonFields(id: string, e: EntityRecord)
    ensures PyGet(EntityJson(id, e), "uuid") == Ok(JStr(Hex(e.uuid)))
    ensures PyGet(EntityJson(id, e), "entity_id") == Ok(JStr(id))
    ensures PyGet(EntityJson(id, e), "pos") == Ok(VecToJson(e.pos))
    ensures PyGet(EntityJson(id, e), "velocity") == Ok(VecToJson(e.velocity))
    ensures PyGet(EntityJson(id, e), "facing") == Ok(JStr(DirectionToStr(e.facing)))
  {
    var fields := EntityJson(id, e).fields;
    assert UniqueKeys(fields) by {
      assert |"uuid"| == 4 && |"entity_id"| == 9 && |"pos"| == 3 && |"velocity"| == 8 && |"facing"| == 6;
    }
    FindEntry(fields, 0);
    FindEntry(fields, 1);
    FindEntry(fields, 2);
    FindEntry(fields, 3);
    FindEntry(fields, 4);
  }

  /**
   * Saving an entity of a registered class and parsing it back gives the
   * same UUID, class, position, velocity and facing.
   */
  lemma EntityJsonRoundTrip(reg: seq<(string, EntityClass)>, e: EntityRecord)
    requires UniqueKeys(reg)
    requires KeyOf(reg, e.cls).Some?
    ensures RecordToJson(reg, e).Ok?
    ensures ParseEntity(reg, RecordToJson(reg, e).value) == Ok(e)
  {
    var id := KeyOf(reg, e.cls).value;
    KeyOfInvertsFind(reg, id, e.cls);
    assert RecordToJson(reg, e) == Ok(EntityJson(id, e));
    EntityJsonFields(id, e);
    assert GetById(reg, JStr(id)) == Ok(e.cls);
    VecJsonRoundTrip(e.pos);
    VecJsonRoundTrip(e.velocity);
    DirectionStrRoundTrip(e.facing, "");
    assert FacingFromJson(JStr(DirectionToStr(e.facing))) == Ok(e.facing);
    HexRoundTrip(e.uuid);
  }

  /** A moving server object: a base Entity, a Walker or a Player's body. */
  class Entity {
    const cls: EntityClass
    var pos: Vec
    var velocity: Vec
    var facing: Direction
    /** None for a Player, whose UUID the player constructor deletes. */
    var uuid: Option<Uuid>
    /** Walker: speed, patrol range and each player's place in the dialogue. */
    var speed: real
    var minX: real
    var maxX: real
    var convProgress: map<object, int>

    ghost predicate Valid()
      reads this
    {
      minX <= maxX &&
      forall p :: p in convProgress ==> 0 <= convProgress[p] < |WALKER_DIALOGUE|
    }

    /**
     * `entity_class(pos, velocity, facing)` with the UUID that `uuid4()`
     * drew. A Walker moves right at `speed` (the source's `velocity.norm()`)
     * and patrols three blocks either side of its start.
     */
    constructor (cls: EntityClass, pos: Vec, velocity: Vec, facing: Direction, uuid: Uuid, speed: real)
      ensures Valid()
      ensures this.cls == cls && this.pos == pos && this.facing == facing && this.uuid == Some(uuid)
      ensures convProgress == map[]
      ensures cls == WalkerClass ==> this.velocity == Vec(speed, 0.0) && this.speed == speed
      ensures cls == WalkerClass ==> minX == pos.x - PATROL_RADIUS && maxX == pos.x + PATROL_RADIUS
      ensures cls != WalkerClass ==> this.velocity == velocity
    {
      this.cls := cls;
      this.pos := pos;
      this.facing := facing;
      this.uuid := Some(uuid);
      convProgress := map[];
      if cls == WalkerClass {
        this.speed := speed;
        this.velocity := Vec(speed, 0.0);
        minX := pos.x - PATROL_RADIUS;
        maxX := pos.x + PATROL_RADIUS;
      } else {
        this.speed := 0.0;
        this.velocity := velocity;
        minX := pos.x;
        maxX := pos.x;
      }
    }

    /** `get_bounding_box`. */
    function BBox(): BoundingBox
      reads this
    {
      BoxAt(pos, BoxWidth(cls))
    }

    /** `get_tiles_touched`. */
    function TilesTouched(): seq<TileCoord>
      reads this
    {
      TouchedTiles(pos, BoxWidth(cls))
    }

    /** `is_touching` between two entities' boxes. */
    predicate IsTouchingEntity(other: Entity)
      reads this, other
    {
      IsTouching(BBox(), other.BBox())
    }

    /** `move`. */
    method Move(offset: Vec)
      modifies this`pos
      ensures pos == Add(old(pos), offset)
    {
      pos := Add(pos, offset);
    }

    /** `set_x`: only the x coordinate changes. */
    method SetX(x: real)
      modifies this`pos
      ensures pos == Vec(x, old(pos).y)
    {
      pos := Vec(x, pos.y);
    }

    /** `set_y`: only the y coordinate changes. */
    method SetY(y: real)
      modifies this`pos
      ensures pos == Vec(old(pos).x, y)
    {
      pos := Vec(pos.x, y);
    }

    /**
     * `update(dt)`: move by `velocity * dt`; a Walker that crossed an edge
     * of its patrol range is reflected back into it and turns around.
     */
    method Update(dt: real)
      requires Valid()
      modifies this`pos, this`facing, this`velocity
      ensures Valid()
      ensures var moved := Add(old(pos), Scale(old(velocity), dt));
        pos == (if cls == WalkerClass then Vec(Patrol(moved.x, minX, maxX), moved.y) else moved)
      ensures cls == WalkerClass && Add(old(pos), Scale(old(velocity), dt)).x > maxX ==>
        facing == LEFT && velocity == Vec(-speed, 0.0)
      ensures cls == WalkerClass && Add(old(pos), Scale(old(velocity), dt)).x < minX ==>
        facing == RIGHT && velocity == Vec(speed, 0.0)
      ensures cls != WalkerClass || minX <= Add(old(pos), Scale(old(velocity), dt)).x <= maxX ==>
        facing == old(facing) && velocity == old(velocity)
    {
      Move(Scale(velocity, dt));
      if cls == WalkerClass {
        if pos.x > maxX {
          facing := LEFT;
          SetX(maxX - (pos.x - maxX));
          velocity := Vec(-speed, 0.0);
        } else if pos.x < minX {
          facing := RIGHT;
          SetX(minX + (minX - pos.x));
          velocity := Vec(speed, 0.0);
        }
      }
    }

    /**
     * `on_interact`: a Walker stops, then sends the player the first line,
     * or the next one, or, past the last line, forgets the player, ends the
     * dialogue and walks on in the direction it faces. Other entities do
     * nothing.
     */
    method OnInteract(player: object) returns (events: seq<DialogueEvent>)
      requires Valid()
      modifies this`velocity, this`convProgress
      ensures Valid()
      ensures cls != WalkerClass ==> events == [] && velocity == old(velocity) && convProgress == old(convProgress)
      ensures cls == WalkerClass && player !in old(convProgress) ==>
        convProgress == old(convProgress)[player := 0] && events == [SendDialogue(WALKER_DIALOGUE[0])]
        && velocity == Vec(0.0, 0.0)
      ensures cls == WalkerClass && player in old(convProgress) && old(convProgress)[player] + 1 < |WALKER_DIALOGUE| ==>
        convProgress == old(convProgress)[player := old(convProgress)[player] + 1]
        && events == [SendDialogue(WALKER_DIALOGUE[old(convProgress)[player] + 1])]
        && velocity == Vec(0.0, 0.0)
      ensures cls == WalkerClass && player in old(convProgress) && old(convProgress)[player] + 1 >= |WALKER_DIALOGUE| ==>
        convProgress == old(convProgress) - {player} && events == [SendDialogueEnd]
        && velocity == (if facing == LEFT then Vec(-speed, 0.0)
                        else if facing == RIGHT then Vec(speed, 0.0)
                        else Vec(0.0, 0.0))
    {
      events := [];
      if cls != WalkerClass {
        return;
      }
      velocity := Vec(0.0, 0.0);
      if player in convProgress {
        var next := convProgress[player] + 1;
        if next < |WALKER_DIALOGUE| {
          convProgress := convProgress[player := next];
          events := [SendDialogue(WALKER_DIALOGUE[next])];
        } else {
          convProgress := convProgress - {player};
          events := [SendDialogueEnd];
          if facing == LEFT {
            velocity := Vec(-speed, 0.0);
          } else if facing == RIGHT {
            velocity := Vec(speed, 0.0);
          }
        }
      } else {
        convProgress := convProgress[player := 0];
        events := [SendDialogue(WALKER_DIALOGUE[0])];
      }
    }

    /** `to_json`: AttributeError for an entity without a UUID (a Player), ValueError for an unregistered class. */
    function ToJson(reg: seq<(string, EntityClass)>): (r: Result<Json>)
      reads this
      ensures uuid.None? ==> r == Err(AttributeError)
      ensures uuid.Some? ==> (r.Ok? <==> KeyOf(reg, cls).Some?)
      ensures uuid.Some? && r.Err? ==> r.error == ValueError
    {
      match uuid
      case None => Err(AttributeError)
      case Some(u) => RecordToJson(reg, EntityRecord(u, cls, pos, velocity, facing))
    }

    /** What `to_json` writes, `from_json` parses back into the same UUID, class, position, velocity and facing. */
    lemma ToJsonRoundTrip(reg: seq<(string, EntityClass)>)
      requires UniqueKeys(reg) && uuid.Some? && KeyOf(reg, cls).Some?
      ensures ToJson(reg).Ok?
      ensures ParseEntity(reg, ToJson(reg).value) == Ok(EntityRecord(uuid.value, cls, pos, velocity, facing))
    {
      EntityJsonRoundTrip(reg, EntityRecord(uuid.value, cls, pos, velocity, facing));
    }
  }

  /** What `Entity.from_json` accepts of one entity object: a parsable entity that is not a Player. */
  function LoadRecord(reg: seq<(string, EntityClass)>, j: Json): (r: Result<EntityRecord>)
    ensures r.Ok? <==> ParseEntity(reg, j).Ok? && ParseEntity(reg, j).value.cls != PlayerClass
    ensures r.Ok? ==> r.value == ParseEntity(reg, j).value
    ensures r.Err? && ParseEntity(reg, j).Err? ==> r.error == ParseEntity(reg, j).error
    ensures r.Err? && ParseEntity(reg, j).Ok? ==> r.error == TypeError
  {
    var rec :- ParseEntity(reg, j);
    if rec.cls == PlayerClass then Err(TypeError) else Ok(rec)
  }

  /**
   * An entity as `Entity.from_json` builds it from its record: the record's
   * UUID, class, position and facing, no conversation under way, and the
   * record's velocity, except that a Walker starts walking right at the
   * speed its saved velocity had.
   */
  ghost predicate LoadedFrom(e: Entity, rec: EntityRecord, norm: Vec -> real)
    reads e
  {
    e.Valid() && e.uuid == Some(rec.uuid) && e.cls == rec.cls && e.pos == rec.pos && e.facing == rec.facing &&
    e.convProgress == map[] &&
    e.velocity == (if rec.cls == WalkerClass then Vec(norm(rec.velocity), 0.0) else rec.velocity)
  }

  /**
   * `Entity.from_json`: parse, then construct the registered class (which
   * for a Walker keeps only the speed `norm(velocity)` and patrols around
   * the loaded position), then set the loaded UUID. A Player cannot be
   * built from these arguments (TypeError).
   */
  method FromJson(reg: seq<(string, EntityClass)>, j: Json, norm: Vec -> real, fresh_uuid: Uuid)
    returns (r: Result<Entity>)
    ensures r.Err? <==> LoadRecord(reg, j).Err?
    ensures r.Err? ==> r.error == LoadRecord(reg, j).error
    ensures r.Ok? ==> fresh(r.value) && LoadedFrom(r.value, LoadRecord(reg, j).value, norm)
  {
    var loaded := LoadRecord(reg, j);
    if loaded.Err? {
      return Err(loaded.error);
    }
    var e := Build(loaded.value, norm, fresh_uuid);
    return Ok(e);
  }

  /**
   * The constructor call and UUID assignment of `Entity.from_json`, for a
   * record already parsed.
   */
  method Build(rec: EntityRecord, norm: Vec -> real, fresh_uuid: Uuid) returns (e: Entity)
    requires rec.cls != PlayerClass
    ensures fresh(e) && LoadedFrom(e, rec, norm)
  {
    e := new Entity(rec.cls, rec.pos, rec.velocity, rec.facing, fresh_uuid, norm(rec.velocity));
    e.uuid := Some(rec.uuid);
  }
}
