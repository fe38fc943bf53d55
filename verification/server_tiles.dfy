/**
 * Server tiles (server/tilebasic.py and server/tile.py): the tile classes
 * and their registry, tiles with metadata (portals and signs), the JSON
 * forms sent to the client and saved to file, and the wall-collision copy
 * in server/tile.py.
 */
module ServerTiles {
  import opened Wrappers
  import opened Json
  import opened AssocLists
  import opened Registries
  import opened ServerGeometry
  import opened Entities
  import Collision

  /** The registered tile classes; Portal and Sign are the tiles with metadata (`TilePlus`). */
  datatype TileClass = Empty | Grass | WildGrass | Wall | Portal | Sign

  /** A tile: its class, whether it blocks movement, and its metadata. */
  datatype Tile = Tile(cls: TileClass, blocksMovement: bool, data: Option<TileMetadata>)

  /** `PortalData` (destination world and spawn point) and `SignData` (text and the tile under the sign). */
  datatype TileMetadata =
    | PortalData(worldId: Json, spawnId: Json)
    | SignData(text: Json, groundTile: Tile)

  /** The classes registered with `register_tile_plus`. */
  predicate IsTilePlus(cls: TileClass)
  {
    cls == Portal || cls == Sign
  }

  /** The registrations made at import time, in import order. */
  const STANDARD_TILES: seq<(string, TileClass)> :=
    [("empty", Empty), ("grass", Grass), ("wild_grass", WildGrass), ("wall", Wall),
     ("portal", Portal), ("sign", Sign)]

  /** `tile_class()` or `tile_class(data)`: only a Wall blocks movement. */
  function NewTile(cls: TileClass, data: Option<TileMetadata>): (t: Tile)
    ensures t.cls == cls && t.data == data
    ensures t.blocksMovement <==> cls == Wall
  {
    Tile(cls, cls == Wall, data)
  }

  /** `send_to_client`: the metadata keys the client receives. */
  function SendToClient(m: TileMetadata): (keys: seq<string>)
    ensures m.PortalData? ==> keys == []
    ensures m.SignData? ==> keys == ["ground_tile"]
  {
    match m
    case PortalData(_, _) => []
    case SignData(_, _) => ["ground_tile"]
  }

  /** `get_bounding_box(tile_pos)`: the block-sized square at the tile's position. */
  function TileBox(tilePos: Vec): BoundingBox
  {
    BoxAt(tilePos, BW)
  }

  /** A tile's box spans its position to its position plus a block on each axis. */
  lemma TileBoxSpan(tilePos: Vec)
    ensures TileBox(tilePos).vec1 == tilePos
    ensures TileBox(tilePos).vec2 == Add(tilePos, Vec(32.0, 32.0))
    ensures Width(TileBox(tilePos)) == 32.0 && Height(TileBox(tilePos)) == 32.0
  {
  }

  /** `{k: v for k, v in fields if k in keep}`: the fields whose key is kept, in order. */
  function FilterKeys(fields: seq<(string, Json)>, keep: seq<string>): (r: seq<(string, Json)>)
    ensures forall p :: p in r <==> p in fields && p.0 in keep
    ensures |r| <= |fields|
  {
    if |fields| == 0 then []
    else if fields[0].0 in keep then [fields[0]] + FilterKeys(fields[1..], keep)
    else FilterKeys(fields[1..], keep)
  }

  /**
   * `Tile.from_json`: look the class up by `tile_id`, and for a tile with
   * metadata parse `tile_data` with the class's metadata parser.
   */
  function TileFromJson(reg: seq<(string, TileClass)>, j: Json): (r: Result<Tile>)
    ensures r.Ok? ==> WellFormed(r.value)
    decreases j, 1
  {
    var idJson :- PyGet(j, "tile_id");
    var cls :- GetById(reg, idJson);
    if IsTilePlus(cls) then
      var dataJson :- PyGet(j, "tile_data");
      PyGetSmaller(j, "tile_data");
      var data :- MetadataFromJson(reg, cls, dataJson);
      Ok(NewTile(cls, Some(data)))
    else
      Ok(NewTile(cls, None))
  }

  /** `PortalData.from_json` and `SignData.from_json` (which parses the ground tile). */
  function MetadataFromJson(reg: seq<(string, TileClass)>, cls: TileClass, d: Json): (r: Result<TileMetadata>)
    requires IsTilePlus(cls)
    ensures r.Ok? ==> MetadataFits(cls, r.value)
    ensures r.Ok? && r.value.SignData? ==> WellFormed(r.value.groundTile)
    decreases d, 0
  {
    if cls == Portal then
      var worldId :- PyGet(d, "world_id");
      var spawnId :- PyGet(d, "spawn_id");
      Ok(PortalData(worldId, spawnId))
    else
      var text :- PyGet(d, "text");
      var groundJson :- PyGet(d, "ground_tile");
      PyGetSmaller(d, "ground_tile");
      var ground :- TileFromJson(reg, groundJson);
      Ok(SignData(text, ground))
  }

  /** A class with metadata carries the metadata of its own kind. */
  predicate MetadataFits(cls: TileClass, m: TileMetadata)
  {
    (cls == Portal && m.PortalData?) || (cls == Sign && m.SignData?)
  }

  /** A tile as its class's constructor builds it, all the way down its ground tiles. */
  predicate WellFormed(t: Tile)
  {
    t == NewTile(t.cls, t.data) &&
    (IsTilePlus(t.cls) <==> t.data.Some?) &&
    (t.data.Some? ==> MetadataFits(t.cls, t.data.value)) &&
    (t.data.Some? && t.data.value.SignData? ==> WellFormed(t.data.value.groundTile))
  }

  /** The tile's class and every ground tile's class under it are registered. */
  predicate Registered(reg: seq<(string, TileClass)>, t: Tile)
  {
    KeyOf(reg, t.cls).Some? &&
    (t.data.Some? && t.data.value.SignData? ==> Registered(reg, t.data.value.groundTile))
  }

  /**
   * `Tile.to_json` / `TilePlus.to_json`: the tile ID, and for a tile with
   * metadata its `tile_data`, cut down to the `send_to_client` keys in the
   * client form. The metadata is converted before the ID is looked up.
   */
  function TileToJson(reg: seq<(string, TileClass)>, t: Tile, toClient: bool): (r: Result<Json>)
    ensures r.Ok? ==> r.value.JObj? && KeyOf(reg, t.cls).Some?
    ensures r.Ok? ==> Find(r.value.fields, "tile_id") == Some(JStr(KeyOf(reg, t.cls).value))
    decreases t, 1
  {
    if IsTilePlus(t.cls) then
      match t.data
      case None => Err(AttributeError)
      case Some(m) =>
        var full :- MetadataToJson(reg, m, toClient);
        var tileData := if toClient then JObj(FilterKeys(full.fields, SendToClient(m))) else full;
        var id :- IdOf(reg, t.cls);
        Ok(JObj([("tile_id", JStr(id)), ("tile_data", tileData)]))
    else
      var id :- IdOf(reg, t.cls);
      Ok(JObj([("tile_id", JStr(id))]))
  }

  /** `PortalData.to_json` and `SignData.to_json`. */
  function MetadataToJson(reg: seq<(string, TileClass)>, m: TileMetadata, toClient: bool): (r: Result<Json>)
    ensures r.Ok? ==> r.value.JObj?
    ensures m.PortalData? ==> r == Ok(JObj([("world_id", m.worldId), ("spawn_id", m.spawnId)]))
    decreases m, 0
  {
    match m
    case PortalData(worldId, spawnId) => Ok(JObj([("world_id", worldId), ("spawn_id", spawnId)]))
    case SignData(text, ground) =>
      var groundJson :- TileToJson(reg, ground, toClient);
      Ok(JObj([("text", text), ("ground_tile", groundJson)]))
  }

  /** A portal's destination survives saving and loading, in either form. */
  lemma PortalDataRoundTrip(reg: seq<(string, TileClass)>, worldId: Json, spawnId: Json, toClient: bool)
    ensures MetadataFromJson(reg, Portal, MetadataToJson(reg, PortalData(worldId, spawnId), toClient).value)
      == Ok(PortalData(worldId, spawnId))
  {
    assert "world_id"[0] != "spawn_id"[0];
    FindPair("world_id", worldId, "spawn_id", spawnId);
  }

  /** A sign's text and ground tile survive saving and loading when the ground tile does. */
  lemma SignDataRoundTrip(reg: seq<(string, TileClass)>, text: Json, ground: Tile)
    requires TileToJson(reg, ground, false).Ok?
    requires TileFromJson(reg, TileToJson(reg, ground, false).value) == Ok(ground)
    ensures MetadataToJson(reg, SignData(text, ground), false).Ok?
    ensures MetadataFromJson(reg, Sign, MetadataToJson(reg, SignData(text, ground), false).value)
      == Ok(SignData(text, ground))
  {
    assert |"text"| != |"ground_tile"|;
    FindPair("text", text, "ground_tile", TileToJson(reg, ground, false).value);
  }

  /**
   * Saving a well-formed tile whose classes are all registered and loading
   * it back gives the same tile, ground tiles included.
   */
  lemma {:induction false} TileSaveRoundTrip(reg: seq<(string, TileClass)>, t: Tile)
    requires UniqueKeys(reg)
    requires WellFormed(t) && Registered(reg, t)
    ensures TileToJson(reg, t, false).Ok?
    ensures TileFromJson(reg, TileToJson(reg, t, false).value) == Ok(t)
    decreases t
  {
    var id := KeyOf(reg, t.cls).value;
    KeyOfInvertsFind(reg, id, t.cls);
    assert GetById(reg, JStr(id)) == Ok(t.cls);
    if IsTilePlus(t.cls) {
      var m := t.data.value;
      if m.SignData? {
        TileSaveRoundTrip(reg, m.groundTile);
        SignDataRoundTrip(reg, m.text, m.groundTile);
      } else {
        PortalDataRoundTrip(reg, m.worldId, m.spawnId, false);
      }
      var full := MetadataToJson(reg, m, false).value;
      assert |"tile_id"| != |"tile_data"|;
      FindPair("tile_id", JStr(id), "tile_data", full);
    }
  }

  /**
   * The client form of a tile with metadata carries exactly the
   * `send_to_client` keys of its metadata: none for a portal, only the
   * ground tile (itself in client form) for a sign.
   */
  lemma ClientFormFilters(reg: seq<(string, TileClass)>, t: Tile)
    requires IsTilePlus(t.cls) && t.data.Some?
    requires TileToJson(reg, t, true).Ok?
    ensures var j := TileToJson(reg, t, true).value;
      Keys(j.fields) == ["tile_id", "tile_data"] && j.fields[1].1.JObj? &&
      Keys(j.fields[1].1.fields) == SendToClient(t.data.value)
    ensures t.data.value.SignData? ==>
      TileToJson(reg, t.data.value.groundTile, true).Ok? &&
      TileToJson(reg, t, true).value.fields[1].1.fields ==
        [("ground_tile", TileToJson(reg, t.data.value.groundTile, true).value)]
  {
    var m := t.data.value;
    var full := MetadataToJson(reg, m, true).value;
    if m.SignData? {
      var g := TileToJson(reg, m.groundTile, true).value;
      assert full.fields == [("text", m.text), ("ground_tile", g)];
      assert "text" !in ["ground_tile"];
      assert FilterKeys(full.fields, ["ground_tile"]) == [("ground_tile", g)];
    }
  }

  /** No ID and no class is registered twice at import time. */
  lemma StandardTilesUnique()
    ensures UniqueKeys(STANDARD_TILES) && UniqueValues(STANDARD_TILES)
  {
  }

  /** A `{"tile_id": id}` object naming a registered class without metadata loads as that class's plain tile. */
  lemma SimpleTileLoads(reg: seq<(string, TileClass)>, id: string, cls: TileClass)
    requires Find(reg, id) == Some(cls) && !IsTilePlus(cls)
    ensures TileFromJson(reg, JObj([("tile_id", JStr(id))])) == Ok(NewTile(cls, None))
  {
    assert PyGet(JObj([("tile_id", JStr(id))]), "tile_id") == Ok(JStr(id));
  }

  /** Loaded through the standard registry, a wall blocks movement and grass and wild grass do not. */
  lemma StandardTileBlocking()
    ensures var wall := TileFromJson(STANDARD_TILES, JObj([("tile_id", JStr("wall"))]));
      wall.Ok? && wall.value.blocksMovement
    ensures var grass := TileFromJson(STANDARD_TILES, JObj([("tile_id", JStr("grass"))]));
      grass.Ok? && !grass.value.blocksMovement
    ensures var wild := TileFromJson(STANDARD_TILES, JObj([("tile_id", JStr("wild_grass"))]));
      wild.Ok? && !wild.value.blocksMovement
  {
    StandardTileLoads(1, "grass", Grass);
    StandardTileLoads(2, "wild_grass", WildGrass);
    StandardTileLoads(3, "wall", Wall);
  }

  /** Entry `k` of the standard registry, a class without metadata, loads from its ID alone. */
  lemma StandardTileLoads(k: int, id: string, cls: TileClass)
    requires 0 <= k < |STANDARD_TILES| && STANDARD_TILES[k] == (id, cls) && !IsTilePlus(cls)
    ensures TileFromJson(STANDARD_TILES, JObj([("tile_id", JStr(id))])) == Ok(NewTile(cls, None))
  {
    StandardTilesUnique();
    FindEntry(STANDARD_TILES, k);
    SimpleTileLoads(STANDARD_TILES, id, cls);
  }

  /**
   * The copy of `block_movement` in server/tile.py: the same resolution as
   * server/collision.py against the box of the tile at `tilePos`.
   */
  method BlockMovementAtTile(tilePos: Vec, start: Vec, player: Entity)
    modifies player`pos
    ensures player.pos == Collision.BlockedPos(TileBox(tilePos), start, old(player.pos), BoxWidth(player.cls))
  {
    var bbox := TileBox(tilePos);
    var endPos := player.pos;
    player.pos := start;
    if IsTouching(player.BBox(), bbox) {
      player.pos := endPos;
    } else {
      var dp := Sub(endPos, start);
      var width := Width(player.BBox());
      var height := Height(player.BBox());
      player.Move(Vec(dp.x, 0.0));
      if IsTouching(player.BBox(), bbox) {
        if dp.x > 0.0 {
          player.SetX(Left(bbox) - width - 1.0);
        } else if dp.x < 0.0 {
          player.SetX(Right(bbox) + 1.0);
        }
      }
      player.Move(Vec(0.0, dp.y));
      if IsTouching(player.BBox(), bbox) {
        if dp.y > 0.0 {
          player.SetY(Top(bbox) - height - 1.0);
        } else if dp.y < 0.0 {
          player.SetY(Bottom(bbox) + 1.0);
        }
      }
    }
  }
}
