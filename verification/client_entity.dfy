/**
 * The browser client's entities (js/index/entity.mjs): the entity classes
 * and their ID registry, building an entity from the JSON the server sends,
 * the sprite an entity draws, its draw-list entry, and moving it.
 */
module ClientEntities {
  import opened Wrappers
  import opened Json
  import opened AssocLists
  import opened Registries
  import opened ClientGeometry
  import opened Rendering
  import opened ClientJson
  import ClientConfig
  import opened Decimal
  import opened JsText

  datatype EntityKind = Walker | Stander

  /**
   * What `register` records for an ID: the class, and the fill style and
   * sprite path it puts on the class's prototype (None while undefined).
   */
  datatype EntityClassEntry = EntityClassEntry(kind: EntityKind, fillStyle: string, spritePath: Option<string>)

  /** The registrations made when the module loads, in order. */
  const STANDARD_ENTITIES: seq<(string, EntityClassEntry)> := [
    ("walker", EntityClassEntry(Walker, "#323232", None)),
    ("stander", EntityClassEntry(Stander, "#323232", None))
  ]

  /** An entity's `height`: its draw entry sorts one block below its position. */
  const HEIGHT: real := ClientConfig.BLOCK_WIDTH as real

  /**
   * `Entity.register`: a second registration of an ID throws and changes
   * nothing; otherwise the class is stored with its fill style and sprite path.
   */
  method Register(reg: Registry<EntityClassEntry>, entityId: string, kind: EntityKind, fillStyle: string, spritePath: Option<string>)
    returns (r: Result<()>)
    requires reg.Valid()
    modifies reg
    ensures reg.Valid()
    ensures r.Err? <==> Find(old(reg.entries), entityId).Some?
    ensures r.Err? ==> r.error == Thrown("Entity ID " + entityId + " is already in use.") && reg.entries == old(reg.entries)
    ensures r.Ok? ==> reg.entries == old(reg.entries) + [(entityId, EntityClassEntry(kind, fillStyle, spritePath))]
    ensures r.Ok? ==> Find(reg.entries, entityId) == Some(EntityClassEntry(kind, fillStyle, spritePath))
  {
    var ok := reg.Register(entityId, EntityClassEntry(kind, fillStyle, spritePath));
    r := if ok then Ok(()) else Err(Thrown("Entity ID " + entityId + " is already in use."));
  }

  /** `Entity.getById`: the class registered under a string ID; anything else throws. */
  function GetById(reg: seq<(string, EntityClassEntry)>, entityId: Option<Json>): (r: Result<EntityClassEntry>)
    ensures r.Ok? <==> entityId.Some? && entityId.value.JStr? && Find(reg, entityId.value.s).Some?
    ensures r.Ok? ==> Find(reg, entityId.value.s) == Some(r.value)
    ensures r.Err? ==> r.error == Thrown(Interpolated("Entity ID ", entityId, " not found."))
  {
    if entityId.Some? && entityId.value.JStr? && Find(reg, entityId.value.s).Some? then
      Ok(Find(reg, entityId.value.s).value)
    else
      Err(Thrown(Interpolated("Entity ID ", entityId, " not found.")))
  }

  /**
   * What `fromJSON` hands to the class's constructor. The name is whatever
   * `obj["name"]` holds, unchecked: None stands for `undefined`.
   */
  datatype EntityRecord = EntityRecord(entry: EntityClassEntry, name: Option<Json>, pos: Vec, velocity: Vec, facing: Option<Dir>)

  /**
   * `Entity.fromJSON` as written: after the class lookup it calls
   * `Vec.fromJSON`, which the client's Vec class (js/index/geometry.mjs)
   * does not define, so the call throws a TypeError.
   */
  function ParseEntityAsWritten(reg: seq<(string, EntityClassEntry)>, obj: Json): (r: Result<EntityRecord>)
    ensures r.Err?
    ensures obj.JNull? ==> r.error == TypeError
    ensures !obj.JNull? ==> (r.error.Thrown? <==> GetById(reg, JsGet(obj, "entity_id").value).Err?)
    ensures !obj.JNull? && GetById(reg, JsGet(obj, "entity_id").value).Err? ==> r.error == GetById(reg, JsGet(obj, "entity_id").value).error
  {
    var entityId :- JsGet(obj, "entity_id");
    var entry :- GetById(reg, entityId);
    Err(TypeError)
  }

  /** No entity message the server sends is ever turned into an entity. */
  lemma AsWrittenNeverLoads(reg: seq<(string, EntityClassEntry)>, uuid: string, id: string, pos: Vec, velocity: Vec, facing: Dir)
    requires Find(reg, id).Some?
    ensures ParseEntity(reg, EntityJson(uuid, id, pos, velocity, facing)) ==
      Ok(EntityRecord(Find(reg, id).value, None, pos, velocity, Some(facing)))
    ensures ParseEntityAsWritten(reg, EntityJson(uuid, id, pos, velocity, facing)) == Err(TypeError)
  {
    ParseEntityRoundTrip(reg, uuid, id, pos, velocity, facing);
  }

  /**
   * `Entity.fromJSON` with the position and velocity read as `new Vec(o.x,
   * o.y)`, as the older client does (js/index/entity.js:60-68): the class
   * named by `entity_id`, then the name as it stands, the position, the
   * velocity and the facing.
   */
  function ParseEntity(reg: seq<(string, EntityClassEntry)>, obj: Json): (r: Result<EntityRecord>)
    ensures obj.JNull? ==> r == Err(TypeError)
    ensures r.Ok? <==> (!obj.JNull? && GetById(reg, JsGet(obj, "entity_id").value).Ok? &&
                        VecField(obj, "pos").Ok? && VecField(obj, "velocity").Ok?)
    ensures r.Ok? ==> GetById(reg, JsGet(obj, "entity_id").value) == Ok(r.value.entry)
    ensures r.Ok? ==> JsGet(obj, "name") == Ok(r.value.name)
    ensures r.Ok? ==> VecField(obj, "pos") == Ok(r.value.pos) && VecField(obj, "velocity") == Ok(r.value.velocity)
    ensures r.Ok? ==> r.value.facing == FacingField(obj)
  {
    var entityId :- JsGet(obj, "entity_id");
    var entry :- GetById(reg, entityId);
    var name := JsGet(obj, "name").value;
    var pos :- VecField(obj, "pos");
    var velocity :- VecField(obj, "velocity");
    Ok(EntityRecord(entry, name, pos, velocity, FacingField(obj)))
  }

  /**
   * An entity as the server sends it (`Entity.to_json` in
   * server/entitybasic.py): its uuid, class ID, position, velocity and
   * facing letter, and no name.
   */
  function EntityJson(uuid: string, id: string, pos: Vec, velocity: Vec, facing: Dir): Json
  {
    JObj([("uuid", JStr(uuid)), ("entity_id", JStr(id)), ("pos", VecJson(pos)),
          ("velocity", VecJson(velocity)), ("facing", JStr(DirLetter(facing)))])
  }

  lemma EntityJsonFields(uuid: string, id: string, pos: Vec, velocity: Vec, facing: Dir)
    ensures JsGet(EntityJson(uuid, id, pos, velocity, facing), "entity_id") == Ok(Some(JStr(id)))
    ensures JsGet(EntityJson(uuid, id, pos, velocity, facing), "name") == Ok(None)
    ensures JsGet(EntityJson(uuid, id, pos, velocity, facing), "pos") == Ok(Some(VecJson(pos)))
    ensures JsGet(EntityJson(uuid, id, pos, velocity, facing), "velocity") == Ok(Some(VecJson(velocity)))
    ensures JsGet(EntityJson(uuid, id, pos, velocity, facing), "facing") == Ok(Some(JStr(DirLetter(facing))))
  {
    var fields := EntityJson(uuid, id, pos, velocity, facing).fields;
    EntityKeysUnique(uuid, id, pos, velocity, facing);
    FindEntry(fields, 1);
    FindEntry(fields, 2);
    FindEntry(fields, 3);
    FindEntry(fields, 4);
    NoName(uuid, id, pos, velocity, facing);
  }

  /** The server sends no `name`. */
  lemma NoName(uuid: string, id: string, pos: Vec, velocity: Vec, facing: Dir)
    ensures JsGet(EntityJson(uuid, id, pos, velocity, facing), "name") == Ok(None)
  {
    var fields := EntityJson(uuid, id, pos, velocity, facing).fields;
    assert "name"[0] != "uuid"[0];
    assert |"name"| == 4 && |"entity_id"| == 9 && |"pos"| == 3 && |"velocity"| == 8 && |"facing"| == 6;
    assert forall i :: 0 <= i < |fields| ==> fields[i].0 != "name";
  }

  /** The five keys of an entity's object are distinct. */
  lemma EntityKeysUnique(uuid: string, id: string, pos: Vec, velocity: Vec, facing: Dir)
    ensures UniqueKeys(EntityJson(uuid, id, pos, velocity, facing).fields)
  {
    assert |"uuid"| == 4 && |"entity_id"| == 9 && |"pos"| == 3 && |"velocity"| == 8 && |"facing"| == 6;
    assert "uuid" != "pos";
  }

  /**
   * An entity the server sends is rebuilt with its class, position,
   * velocity and facing; its name is undefined.
   */
  lemma ParseEntityRoundTrip(reg: seq<(string, EntityClassEntry)>, uuid: string, id: string, pos: Vec, velocity: Vec, facing: Dir)
    requires Find(reg, id).Some?
    ensures ParseEntity(reg, EntityJson(uuid, id, pos, velocity, facing)) ==
      Ok(EntityRecord(Find(reg, id).value, None, pos, velocity, Some(facing)))
  {
    var j := EntityJson(uuid, id, pos, velocity, facing);
    EntityJsonFields(uuid, id, pos, velocity, facing);
    VecFieldOf(j, "pos", pos);
    VecFieldOf(j, "velocity", velocity);
    DirRoundTrip(facing, facing);
    assert GetById(reg, Some(JStr(id))) == Ok(Find(reg, id).value);
  }

  /** An entity in the client's world. */
  class Entity {
    const entry: EntityClassEntry
    const name: Option<Json>
    var pos: Vec
    var velocity: Vec
    var facing: Option<Dir>

    /** `new entityClass(name, pos, velocity, facing)`. */
    constructor (rec: EntityRecord)
      ensures entry == rec.entry && name == rec.name
      ensures pos == rec.pos && velocity == rec.velocity && facing == rec.facing
    {
      entry := rec.entry;
      name := rec.name;
      pos := rec.pos;
      velocity := rec.velocity;
      facing := rec.facing;
    }

    /** `render`: one entry for the entity, sorted at its feet, one block below its position. */
    function Renders(): (r: seq<Render>)
      reads this
      ensures |r| == 1 && r[0].draw == this
      ensures r[0].groundY - pos.y == HEIGHT
    {
      [Render(this, pos.y + HEIGHT)]
    }

    /**
     * `getSpritePath`: a walker asks for "", a stander for its own image
     * under `npcs/` (None where `TemplateText` does not model the name).
     */
    function SpritePath(): (p: Option<string>)
      ensures entry.kind == Walker ==> p == Some("")
      ensures entry.kind == Stander && name.None? ==> p == Some("npcs/undefined.png")
    {
      match entry.kind
      case Walker => Some("")
      case Stander =>
        var t := TemplateText(name);
        assert "npcs/" + "undefined" + ".png" == "npcs/undefined.png";
        if t.Some? then Some("npcs/" + t.value + ".png") else None
    }

    /** `getSprite`: the sprite path, through the image cache. */
    method GetSprite(cache: ImageCache) returns (img: Option<Image>)
      requires SpritePath().Some?
      modifies cache
      ensures (img, cache.images) == GetImageSpec(old(cache.images), [SpritePath().value])
    {
      img := cache.GetImage([SpritePath().value]);
    }

    /** `move(offset)`: the position is shifted, and the draw entry with it. */
    method Move(offset: Vec)
      modifies this`pos
      ensures RelativeTo(pos, old(pos)) == offset
      ensures Renders()[0].groundY == old(Renders()[0].groundY) + offset.y
    {
      pos := Add(pos, offset);
    }

    /** `moveTo(p)`: the position is replaced. */
    method MoveTo(p: Vec)
      modifies this`pos
      ensures pos == p
    {
      pos := p;
    }
  }

  /** Standers whose names read as different texts ask for different images. */
  lemma StanderPathsDistinct(a: Entity, b: Entity)
    requires a.entry.kind == Stander && b.entry.kind == Stander
    requires TemplateText(a.name).Some? && TemplateText(b.name).Some?
    ensures a.SpritePath() == b.SpritePath() <==> TemplateText(a.name) == TemplateText(b.name)
  {
    var p := "npcs/";
    var ta := TemplateText(a.name).value;
    var tb := TemplateText(b.name).value;
    if a.SpritePath() == b.SpritePath() {
      assert a.SpritePath().value[|p|..|a.SpritePath().value| - 4] == ta;
      assert b.SpritePath().value[|p|..|b.SpritePath().value| - 4] == tb;
    }
  }

  /** `Entity.fromJSON` with the corrected vector reads: parse, then construct. */
  method FromJson(reg: seq<(string, EntityClassEntry)>, obj: Json) returns (r: Result<Entity>)
    ensures r.Ok? <==> ParseEntity(reg, obj).Ok?
    ensures r.Err? ==> r.error == ParseEntity(reg, obj).error
    ensures r.Ok? ==> fresh(r.value)
    ensures r.Ok? ==> var rec := ParseEntity(reg, obj).value;
      r.value.entry == rec.entry && r.value.name == rec.name && r.value.pos == rec.pos &&
      r.value.velocity == rec.velocity && r.value.facing == rec.facing
  {
    var rec := ParseEntity(reg, obj);
    if rec.Err? {
      return Err(rec.error);
    }
    var e := new Entity(rec.value);
    return Ok(e);
  }
}
