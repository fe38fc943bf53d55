/**
 * The entities of the older client (js/index/entity.js, and the same code
 * inlined in js/index.js): classes registered by ID with an optional sprite
 * and a fill style, entities identified by their UUID, built from the JSON
 * the server sends, drawn with one entry, and moved.
 */
module LegacyEntities {
  import opened Wrappers
  import opened Json
  import opened JsText
  import opened AssocLists
  import opened Registries
  import opened ClientGeometry
  import opened Rendering
  import opened ClientJson
  import ClientConfig

  datatype EntityKind = Walker | Stander

  /** What `register` records for an ID: the class, its `_sprite` and its `_fillStyle`. */
  datatype EntityClassEntry = EntityClassEntry(kind: EntityKind, sprite: Option<string>, fillStyle: string)

  /** The fill style `register` gives a class registered without one. */
  const DEFAULT_FILL: string := "rgb(50, 50, 50)"

  /** The registrations js/index/entity.js makes when it loads. */
  const STANDARD_ENTITIES: seq<(string, EntityClassEntry)> := [
    ("walker", EntityClassEntry(Walker, None, DEFAULT_FILL)),
    ("stander", EntityClassEntry(Stander, None, DEFAULT_FILL))
  ]

  /** The one registration js/index.js makes. */
  const INLINE_ENTITIES: seq<(string, EntityClassEntry)> := [
    ("walker", EntityClassEntry(Walker, None, DEFAULT_FILL))
  ]

  /**
   * How far below its position an entity's draw entry sorts: one block in
   * js/index/entity.js (its `height`); js/index.js sorts at the position itself.
   */
  const HEIGHT: real := ClientConfig.BLOCK_WIDTH as real
  const INLINE_HEIGHT: real := 0.0

  /**
   * `Entity.register` / `registerEntity`: a second registration of an ID
   * throws and changes nothing; otherwise the class is stored with its
   * sprite and fill style.
   */
  method Register(reg: Registry<EntityClassEntry>, entityId: string, kind: EntityKind, sprite: Option<string>, fillStyle: string)
    returns (r: Result<()>)
    requires reg.Valid()
    modifies reg
    ensures reg.Valid()
    ensures r.Err? <==> Find(old(reg.entries), entityId).Some?
    ensures r.Err? ==> r.error == Thrown("Entity ID " + entityId + " is already in use.") && reg.entries == old(reg.entries)
    ensures r.Ok? ==> reg.entries == old(reg.entries) + [(entityId, EntityClassEntry(kind, sprite, fillStyle))]
    ensures r.Ok? ==> Find(reg.entries, entityId) == Some(EntityClassEntry(kind, sprite, fillStyle))
  {
    var ok := reg.Register(entityId, EntityClassEntry(kind, sprite, fillStyle));
    r := if ok then Ok(()) else Err(Thrown("Entity ID " + entityId + " is already in use."));
  }

  /** `Entity.getById` / `getEntityById`: the class registered under a string ID; anything else throws. */
  function GetById(reg: seq<(string, EntityClassEntry)>, entityId: Option<Json>): (r: Result<EntityClassEntry>)
    ensures r.Ok? <==> entityId.Some? && entityId.value.JStr? && Find(reg, entityId.value.s).Some?
    ensures r.Ok? ==> Find(reg, entityId.value.s) == Some(r.value)
    ensures r.Err? ==> r.error == Thrown(Interpolated("Entity ID ", entityId, " not found."))
  {
    if entityId.Some? && entityId.value.JStr? && Find(reg, entityId.value.s).Some? then
      Ok(Find(reg, entityId.value.s).value)
    else
      Err(Thrown(Interpolated("Entity ID ", entityId, " not found.")))
  }

  /** What `fromJSON` hands to the class's constructor; the UUID is whatever `obj.uuid` held. */
  datatype EntityRecord = EntityRecord(entry: EntityClassEntry, uuid: Option<Json>, pos: Vec, velocity: Vec, facing: Option<Dir>)

  /**
   * `Entity.fromJSON` / `entityFromJSON`: the class named by `entity_id`,
   * then the UUID, `new Vec(pos.x, pos.y)`, the same for the velocity, and
   * the facing letter.
   */
  function ParseEntity(reg: seq<(string, EntityClassEntry)>, obj: Json): (r: Result<EntityRecord>)
    ensures obj.JNull? ==> r == Err(TypeError)
    ensures r.Ok? ==> GetById(reg, JsGet(obj, "entity_id").value) == Ok(r.value.entry)
    ensures r.Ok? ==> JsGet(obj, "uuid") == Ok(r.value.uuid)
    ensures r.Ok? ==> VecField(obj, "pos") == Ok(r.value.pos) && VecField(obj, "velocity") == Ok(r.value.velocity)
  {
    var entityId :- JsGet(obj, "entity_id");
    var entry :- GetById(reg, entityId);
    var pos :- VecField(obj, "pos");
    var velocity :- VecField(obj, "velocity");
    Ok(EntityRecord(entry, JsGet(obj, "uuid").value, pos, velocity, FacingField(obj)))
  }

  /** The JSON an entity with UUID `uuid`, of a class registered as `id`, arrives as. */
  function EntityJson(id: string, uuid: string, rec: EntityRecord): Json
  {
    JObj([("uuid", JStr(uuid)), ("entity_id", JStr(id)), ("pos", VecJson(rec.pos)),
          ("velocity", VecJson(rec.velocity)),
          ("facing", if rec.facing.Some? then JStr(DirLetter(rec.facing.value)) else JNull)])
  }

  lemma EntityJsonFields(id: string, uuid: string, rec: EntityRecord)
    ensures JsGet(EntityJson(id, uuid, rec), "uuid") == Ok(Some(JStr(uuid)))
    ensures JsGet(EntityJson(id, uuid, rec), "entity_id") == Ok(Some(JStr(id)))
    ensures JsGet(EntityJson(id, uuid, rec), "pos") == Ok(Some(VecJson(rec.pos)))
    ensures JsGet(EntityJson(id, uuid, rec), "velocity") == Ok(Some(VecJson(rec.velocity)))
    ensures JsGet(EntityJson(id, uuid, rec), "facing") ==
      Ok(Some(if rec.facing.Some? then JStr(DirLetter(rec.facing.value)) else JNull))
  {
    var fields := EntityJson(id, uuid, rec).fields;
    EntityKeysUnique(id, uuid, rec);
    FindEntry(fields, 0);
    FindEntry(fields, 1);
    FindEntry(fields, 2);
    FindEntry(fields, 3);
    FindEntry(fields, 4);
  }

  /** The five keys of an entity's object are distinct. */
  lemma EntityKeysUnique(id: string, uuid: string, rec: EntityRecord)
    ensures UniqueKeys(EntityJson(id, uuid, rec).fields)
  {
    assert |"uuid"| == 4 && |"entity_id"| == 9 && |"pos"| == 3 && |"velocity"| == 8 && |"facing"| == 6;
  }

  lemma ParseEntityFrom(reg: seq<(string, EntityClassEntry)>, j: Json, id: string, rec: EntityRecord)
    requires Find(reg, id) == Some(rec.entry)
    requires JsGet(j, "entity_id") == Ok(Some(JStr(id))) && JsGet(j, "uuid") == Ok(rec.uuid)
    requires VecField(j, "pos") == Ok(rec.pos) && VecField(j, "velocity") == Ok(rec.velocity)
    requires FacingField(j) == rec.facing
    ensures ParseEntity(reg, j) == Ok(rec)
  {
    assert !j.JNull?;
    assert GetById(reg, Some(JStr(id))) == Ok(rec.entry);
  }

  /**
   * `fromJSON` keeps the UUID, position, velocity and facing the server
   * sent, for an entity of a registered class.
   */
  lemma ParseEntityRoundTrip(reg: seq<(string, EntityClassEntry)>, id: string, uuid: string, rec: EntityRecord)
    requires Find(reg, id) == Some(rec.entry) && rec.uuid == Some(JStr(uuid))
    ensures ParseEntity(reg, EntityJson(id, uuid, rec)) == Ok(rec)
  {
    var j := EntityJson(id, uuid, rec);
    EntityJsonFields(id, uuid, rec);
    VecFieldOf(j, "pos", rec.pos);
    VecFieldOf(j, "velocity", rec.velocity);
    if rec.facing.Some? {
      DirRoundTrip(rec.facing.value, rec.facing.value);
    }
    ParseEntityFrom(reg, j, id, rec);
  }

  /** An entity of the older client. */
  class Entity {
    const entry: EntityClassEntry
    const uuid: Option<Json>
    /** Where the draw entry sorts below the position. */
    const height: real
    var pos: Vec
    var velocity: Vec
    var facing: Option<Dir>

    /** `new entityClass(uuid, pos, velocity, facing)`. */
    constructor (rec: EntityRecord, height: real)
      ensures entry == rec.entry && uuid == rec.uuid && this.height == height
      ensures pos == rec.pos && velocity == rec.velocity && facing == rec.facing
    {
      entry := rec.entry;
      uuid := rec.uuid;
      this.height := height;
      pos := rec.pos;
      velocity := rec.velocity;
      facing := rec.facing;
    }

    /** `render`: one entry for the entity, `height` below its position. */
    function Renders(): (r: seq<Render>)
      reads this
      ensures |r| == 1 && r[0].draw == this
      ensures r[0].groundY - pos.y == height
    {
      [Render(this, pos.y + height)]
    }

    /** The images the entity asks for: its class's sprite if it has one, else none. */
    function SpriteRequest(): (names: seq<string>)
      ensures |names| <= 1
      ensures names == [] <==> entry.sprite.None?
    {
      if entry.sprite.Some? then [entry.sprite.value] else []
    }

    /** `move(offset)`: the position is shifted, and the draw entry with it. */
    method Move(offset: Vec)
      modifies this`pos
      ensures RelativeTo(pos, old(pos)) == offset
      ensures Renders()[0].groundY == old(Renders()[0].groundY) + offset.y
    {
      pos := Add(pos, offset);
    }

    /** `moveTo(p)`: the position is replaced. */
    method MoveTo(p: Vec)
      modifies this`pos
      ensures pos == p
    {
      pos := p;
    }
  }

  /** `fromJSON`: parse, then construct the class with the module's `height`. */
  method FromJson(reg: seq<(string, EntityClassEntry)>, obj: Json, height: real) returns (r: Result<Entity>)
    ensures r.Ok? <==> ParseEntity(reg, obj).Ok?
    ensures r.Err? ==> r.error == ParseEntity(reg, obj).error
    ensures r.Ok? ==> fresh(r.value) && r.value.height == height
    ensures r.Ok? ==> var rec := ParseEntity(reg, obj).value;
      r.value.entry == rec.entry && r.value.uuid == rec.uuid && r.value.pos == rec.pos &&
      r.value.velocity == rec.velocity && r.value.facing == rec.facing
  {
    var rec := ParseEntity(reg, obj);
    if rec.Err? {
      return Err(rec.error);
    }
    var e := new Entity(rec.value, height);
    return Ok(e);
  }
}
