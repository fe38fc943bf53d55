/**
 * The tiles of the older single-file client (js/index.js): classes
 * registered by ID with an optional sprite and a fill style, a tile built
 * from the JSON the server sends, and its draw-list entries. Only the sign
 * carries data (the tile under it); the portal is a plain tile here.
 */
module LegacyTiles {
  import opened Wrappers
  import opened Json
  import opened JsText
  import opened AssocLists
  import opened Registries
  import opened ClientGeometry
  import opened Rendering

  datatype TileKind = Empty | Grass | WildGrass | Wall | Portal | Sign

  /** `hasMetadata`: only the sign is a `TilePlus`, whose JSON carries `tile_data`. */
  predicate HasMetadata(k: TileKind)
  {
    k == Sign
  }

  /** What `registerTile` records for an ID: the class, its `_sprite` and its `_fillStyle`. */
  datatype TileClassEntry = TileClassEntry(kind: TileKind, sprite: Option<string>, fillStyle: string)

  /** The registrations the client makes when it loads, in order. */
  const INLINE_TILES: seq<(string, TileClassEntry)> := [
    ("empty", TileClassEntry(Empty, None, "rgb(0, 0, 0)")),
    ("grass", TileClassEntry(Grass, Some("grass.png"), "rgb(0, 255, 0)")),
    ("wild_grass", TileClassEntry(WildGrass, Some("wild-grass.png"), "rgb(0, 180, 0)")),
    ("wall", TileClassEntry(Wall, Some("wall.png"), "rgb(210, 105, 30)")),
    ("portal", TileClassEntry(Portal, Some("portal.png"), "rgb(0, 0, 0)")),
    ("sign", TileClassEntry(Sign, Some("sign.png"), "rgb(255, 255, 0)"))
  ]

  /** How far below a sign's position its overlay is sorted. */
  const SIGN_HEIGHT: real := 27.0

  /**
   * `registerTile`: a second registration of an ID throws and changes
   * nothing; otherwise the class is stored with its sprite and fill style.
   */
  method Register(reg: Registry<TileClassEntry>, tileId: string, kind: TileKind, sprite: Option<string>, fillStyle: string)
    returns (r: Result<()>)
    requires reg.Valid()
    modifies reg
    ensures reg.Valid()
    ensures r.Err? <==> Find(old(reg.entries), tileId).Some?
    ensures r.Err? ==> r.error == Thrown("Tile ID " + tileId + " is already in use.") && reg.entries == old(reg.entries)
    ensures r.Ok? ==> reg.entries == old(reg.entries) + [(tileId, TileClassEntry(kind, sprite, fillStyle))]
    ensures r.Ok? ==> Find(reg.entries, tileId) == Some(TileClassEntry(kind, sprite, fillStyle))
  {
    var ok := reg.Register(tileId, TileClassEntry(kind, sprite, fillStyle));
    r := if ok then Ok(()) else Err(Thrown("Tile ID " + tileId + " is already in use."));
  }

  /** `getTileById`: the class registered under a string ID; anything else throws. */
  function GetById(reg: seq<(string, TileClassEntry)>, tileId: Option<Json>): (r: Result<TileClassEntry>)
    ensures r.Ok? <==> tileId.Some? && tileId.value.JStr? && Find(reg, tileId.value.s).Some?
    ensures r.Ok? ==> Find(reg, tileId.value.s) == Some(r.value)
    ensures r.Err? ==> r.error == Thrown(Interpolated("Tile ID ", tileId, " not found."))
  {
    if tileId.Some? && tileId.value.JStr? && Find(reg, tileId.value.s).Some? then
      Ok(Find(reg, tileId.value.s).value)
    else
      Err(Thrown(Interpolated("Tile ID ", tileId, " not found.")))
  }

  /** A tile as `tileFromJSON` builds it: its class, its position, and a sign's ground tile. */
  datatype TileShape = TileShape(entry: TileClassEntry, pos: Vec, ground: Option<TileShape>)

  /** Every tile of the shape is at `pos`, and exactly the signs have a ground tile. */
  predicate ShapeAt(t: TileShape, pos: Vec)
  {
    t.pos == pos && (t.ground.Some? <==> HasMetadata(t.entry.kind)) &&
    (t.ground.Some? ==> ShapeAt(t.ground.value, pos))
  }

  /**
   * `tileFromJSON(obj, pos)`: the class named by `tile_id`, and for a sign
   * the ground tile parsed from `tile_data.ground_tile` at the same
   * position. A null object, or a missing `tile_data` or `ground_tile`, is
   * a property access on null or undefined (TypeError).
   */
  function ParseTile(reg: seq<(string, TileClassEntry)>, obj: Json, pos: Vec): (r: Result<TileShape>)
    ensures obj.JNull? ==> r == Err(TypeError)
    ensures r.Ok? ==> ShapeAt(r.value, pos)
    ensures r.Ok? ==> GetById(reg, JsGet(obj, "tile_id").value) == Ok(r.value.entry)
    decreases obj
  {
    var tileId :- JsGet(obj, "tile_id");
    var entry :- GetById(reg, tileId);
    if !HasMetadata(entry.kind) then Ok(TileShape(entry, pos, None))
    else
      var data := JsGet(obj, "tile_data").value;
      if data.None? then Err(TypeError)
      else
        var groundJson :- JsGet(data.value, "ground_tile");
        if groundJson.None? then Err(TypeError)
        else
          JsGetSmaller(obj, "tile_data");
          JsGetSmaller(data.value, "ground_tile");
          var ground :- ParseTile(reg, groundJson.value, pos);
          Ok(TileShape(entry, pos, Some(ground)))
  }

  /** Every class in the shape is registered, so the shape can be sent as JSON. */
  predicate Registered(reg: seq<(string, TileClassEntry)>, t: TileShape)
  {
    KeyOf(reg, t.entry).Some? && (t.ground.Some? ==> Registered(reg, t.ground.value))
  }

  /** The JSON a tile of this shape arrives as: its ID, and for a sign its ground tile. */
  function ShapeJson(reg: seq<(string, TileClassEntry)>, t: TileShape): (j: Json)
    requires Registered(reg, t)
    ensures j.JObj?
  {
    var id := JStr(KeyOf(reg, t.entry).value);
    match t.ground
    case None => JObj([("tile_id", id)])
    case Some(g) => JObj([("tile_id", id), ("tile_data", JObj([("ground_tile", ShapeJson(reg, g))]))])
  }

  lemma TileObjectFields(id: Json, data: Json)
    ensures JsGet(JObj([("tile_id", id)]), "tile_id") == Ok(Some(id))
    ensures JsGet(JObj([("tile_id", id), ("tile_data", data)]), "tile_id") == Ok(Some(id))
    ensures JsGet(JObj([("tile_id", id), ("tile_data", data)]), "tile_data") == Ok(Some(data))
    ensures JsGet(JObj([("ground_tile", id)]), "ground_tile") == Ok(Some(id))
  {
    var f := [("tile_id", id), ("tile_data", data)];
    assert f[0].0 != "tile_data" by { assert "tile_id"[5] != "tile_data"[5]; }
    assert f[1..] == [("tile_data", data)];
    assert Find(f, "tile_data") == Find(f[1..], "tile_data") == Some(data);
  }

  /** A tile sent in the form `tileFromJSON` reads is rebuilt as the same tile. */
  lemma {:induction false} ParseShapeRoundTrip(reg: seq<(string, TileClassEntry)>, t: TileShape, pos: Vec)
    requires UniqueKeys(reg) && Registered(reg, t) && ShapeAt(t, pos)
    ensures ParseTile(reg, ShapeJson(reg, t), pos) == Ok(t)
  {
    var id := KeyOf(reg, t.entry).value;
    KeyOfInvertsFind(reg, id, t.entry);
    if t.ground.Some? {
      var g := ShapeJson(reg, t.ground.value);
      ParseShapeRoundTrip(reg, t.ground.value, pos);
      TileObjectFields(JStr(id), JObj([("ground_tile", g)]));
      TileObjectFields(g, JNull);
    } else {
      TileObjectFields(JStr(id), JNull);
    }
  }

  /** A tile in the older client's world. */
  class Tile {
    const entry: TileClassEntry
    const pos: Vec
    /** A sign's ground tile (its `data.groundTile`). */
    const ground: Option<Tile>
    ghost const depth: nat

    ghost predicate WellNested()
      decreases depth
    {
      (ground.Some? <==> HasMetadata(entry.kind)) &&
      (ground.Some? ==> ground.value.depth < depth && ground.value.WellNested())
    }

    ghost function Shape(): TileShape
      requires WellNested()
      decreases depth
    {
      TileShape(entry, pos, if ground.Some? then Some(ground.value.Shape()) else None)
    }

    /** `new tileClass(pos)`, or `new Sign(pos, data)` for a sign. */
    constructor (entry: TileClassEntry, pos: Vec, ground: Option<Tile>)
      requires ground.Some? <==> HasMetadata(entry.kind)
      requires ground.Some? ==> ground.value.WellNested()
      ensures WellNested()
      ensures this.entry == entry && this.pos == pos && this.ground == ground
    {
      this.entry := entry;
      this.pos := pos;
      this.ground := ground;
      depth := if ground.Some? then ground.value.depth + 1 else 0;
    }

    /**
     * `render`: a plain tile gives one entry at depth `pos.y`; a sign gives
     * its ground tile's entries, then its own entry moved to `pos.y + 27`.
     */
    function Renders(): (r: seq<Render>)
      requires WellNested()
      ensures |r| >= 1 && r[|r| - 1].draw == this
      ensures r[|r| - 1].groundY == pos.y + (if entry.kind == Sign then SIGN_HEIGHT else 0.0)
      ensures ground.None? <==> |r| == 1
      decreases depth
    {
      var own := Render(this, pos.y);
      if entry.kind == Sign then
        (if ground.Some? then ground.value.Renders() else []) + [WithY(own, pos.y + SIGN_HEIGHT)]
      else
        [own]
    }

    /** The image the tile asks for: its class's sprite, or none (it is then filled with its colour). */
    function SpriteRequest(): (names: seq<string>)
      ensures |names| <= 1
      ensures names == [] <==> entry.sprite.None?
    {
      if entry.sprite.Some? then [entry.sprite.value] else []
    }

    /**
     * A sign over a plain tile at the same position draws that tile first
     * at the position and its own image 27 below it, so the depth sort
     * puts the sign after whatever stands on the tile above it.
     */
    lemma SignOverPlain()
      requires WellNested() && entry.kind == Sign && ground.value.entry.kind != Sign && ground.value.pos == pos
      ensures Renders() == [Render(ground.value, pos.y), Render(this, pos.y + SIGN_HEIGHT)]
    {
      assert ground.value.ground.None?;
    }
  }

  /**
   * `tileFromJSON(obj, pos)`: a sign's ground tile is built first, then the
   * tile itself.
   */
  method FromJson(reg: seq<(string, TileClassEntry)>, obj: Json, pos: Vec) returns (r: Result<Tile>)
    ensures r.Ok? <==> ParseTile(reg, obj, pos).Ok?
    ensures r.Err? ==> r.error == ParseTile(reg, obj, pos).error
    ensures r.Ok? ==> fresh(r.value) && r.value.WellNested()
    ensures r.Ok? ==> r.value.Shape() == ParseTile(reg, obj, pos).value
    decreases obj
  {
    var tileId := JsGet(obj, "tile_id");
    if tileId.Err? {
      return Err(tileId.error);
    }
    var entry := GetById(reg, tileId.value);
    if entry.Err? {
      return Err(entry.error);
    }
    if !HasMetadata(entry.value.kind) {
      var t := new Tile(entry.value, pos, None);
      return Ok(t);
    }
    var data := JsGet(obj, "tile_data").value;
    if data.None? {
      return Err(TypeError);
    }
    var groundJson := JsGet(data.value, "ground_tile");
    if groundJson.Err? {
      return Err(groundJson.error);
    }
    if groundJson.value.None? {
      return Err(TypeError);
    }
    JsGetSmaller(obj, "tile_data");
    JsGetSmaller(data.value, "ground_tile");
    var ground := FromJson(reg, groundJson.value.value, pos);
    if ground.Err? {
      return Err(ground.error);
    }
    var t := new Tile(entry.value, pos, Some(ground.value));
    return Ok(t);
  }
}
