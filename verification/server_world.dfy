/**
 * A world: its tile grid, its entities, its named spawn points and the
 * battles fought in it (server/world.py), with its save and client JSON
 * forms and the registry of worlds by ID.
 */
module ServerWorld {
  import opened Wrappers
  import opened Json
  import opened AssocLists
  import opened Registries
  import opened ServerGeometry
  import opened TileCoords
  import opened Uuids
  import opened Entities
  import opened ServerTiles
  import opened Battle
  import opened Grids
  import Messages

  const VERSION: string := "0.1.0"

  /** Python's `s[i]`: a negative index counts from the end; out of range is IndexError (None). */
  function PyIndex<T>(s: seq<T>, i: int): (r: Option<T>)
    ensures r.Some? <==> -|s| <= i < |s|
    ensures 0 <= i < |s| ==> r == Some(s[i])
    ensures -|s| <= i < 0 ==> r == Some(s[|s| + i])
  {
    if 0 <= i < |s| then Some(s[i])
    else if -|s| <= i < 0 then Some(s[|s| + i])
    else None
  }

  /** The tile `Empty()` builds. */
  const EMPTY_TILE: Tile := NewTile(TileClass.Empty, None)

  /** `LoadRecord` as a function of one entity object. */
  function RecordLoader(reg: seq<(string, EntityClass)>): Json -> Result<EntityRecord>
  {
    j => LoadRecord(reg, j)
  }

  /** The entity list of a world, in order, or the first entity's failure. */
  function LoadRecords(reg: seq<(string, EntityClass)>, items: seq<Json>): (r: Result<seq<EntityRecord>>)
    ensures r.Ok? <==> forall k :: 0 <= k < |items| ==> LoadRecord(reg, items[k]).Ok?
    ensures r.Ok? ==> |r.value| == |items| && forall k :: 0 <= k < |items| ==> r.value[k] == LoadRecord(reg, items[k]).value
  {
    RowMap(RecordLoader(reg), items)
  }

  /** A JSON list of lists as a grid of cells; anything else is refused with TypeError. */
  function AsGrid(j: Json): (r: Result<seq<seq<Json>>>)
    ensures r.Ok? ==> j.JArr? && |r.value| == |j.items| && forall i :: 0 <= i < |j.items| ==> j.items[i] == JArr(r.value[i])
  {
    if j.JArr? && forall i :: 0 <= i < |j.items| ==> j.items[i].JArr? then
      Ok(seq(|j.items|, i requires 0 <= i < |j.items| => j.items[i].items))
    else Err(TypeError)
  }

  /** A grid of cells as a JSON list of lists. */
  function GridJson(rows: seq<seq<Json>>): (j: Json)
    ensures AsGrid(j) == Ok(rows)
  {
    var j := JArr(seq(|rows|, i requires 0 <= i < |rows| => JArr(rows[i])));
    assert AsGrid(j).value == rows;
    j
  }

  /** A JSON list; anything else is refused with TypeError. */
  function AsList(j: Json): (r: Result<seq<Json>>)
    ensures r.Ok? <==> j.JArr?
    ensures r.Ok? ==> r.value == j.items
  {
    if j.JArr? then Ok(j.items) else Err(TypeError)
  }

  /** A JSON number with an integer value, as that integer. */
  function AsInt(j: Json): (r: Result<int>)
    ensures r.Ok? <==> j.JNum? && j.n == j.n.Floor as real
    ensures r.Ok? ==> j == JNum(r.value as real)
  {
    if j.JNum? && j.n == j.n.Floor as real then Ok(j.n.Floor) else Err(TypeError)
  }

  /** `TileCoord(d["block_x"], d["block_y"])` for one spawn point. */
  function SpawnPointFromJson(d: Json): Result<TileCoord>
  {
    var xj :- PyGet(d, "block_x");
    var yj :- PyGet(d, "block_y");
    var x :- AsInt(xj);
    var y :- AsInt(yj);
    Ok(TileCoord(x, y))
  }

  /** The spawn-point dict comprehension over the object's items, in order. */
  function SpawnFieldsFromJson(fields: seq<(string, Json)>): (r: Result<seq<(string, TileCoord)>>)
    ensures r.Ok? <==> forall i :: 0 <= i < |fields| ==> SpawnPointFromJson(fields[i].1).Ok?
    ensures r.Ok? ==> Keys(fields) == AssocKeys(r.value)
    ensures r.Ok? ==> |r.value| == |fields|
    ensures r.Ok? ==> forall i :: 0 <= i < |fields| ==> r.value[i] == (fields[i].0, SpawnPointFromJson(fields[i].1).value)
  {
    if |fields| == 0 then Ok([])
    else
      var head :- SpawnPointFromJson(fields[0].1);
      SpawnFieldsTail(fields);
      var rest :- SpawnFieldsFromJson(fields[1..]);
      Ok([(fields[0].0, head)] + rest)
  }

  /** The items after the first are those of the tail, one place on. */
  lemma SpawnFieldsTail(fields: seq<(string, Json)>)
    requires |fields| > 0
    ensures forall i :: 1 <= i < |fields| ==> fields[i] == fields[1..][i - 1]
  {
  }

  function AssocKeys<V>(entries: seq<(string, V)>): (ks: seq<string>)
    ensures |ks| == |entries| && forall i :: 0 <= i < |entries| ==> ks[i] == entries[i].0
  {
    seq(|entries|, i requires 0 <= i < |entries| => entries[i].0)
  }

  /** `world_dict["spawn_points"].items()`: anything but an object has no `items` (AttributeError). */
  function SpawnPointsFromJson(j: Json): Result<seq<(string, TileCoord)>>
  {
    if j.JObj? then SpawnFieldsFromJson(j.fields) else Err(AttributeError)
  }

  /** One spawn point in the save form. */
  function SpawnPointJson(tc: TileCoord): Json
  {
    JObj([("block_x", JNum(tc.blockX as real)), ("block_y", JNum(tc.blockY as real))])
  }

  /** The `spawn_points` object of the save form. */
  function SpawnPointsJson(points: seq<(string, TileCoord)>): (j: Json)
    ensures j.JObj? && |j.fields| == |points|
    ensures forall i :: 0 <= i < |points| ==> j.fields[i] == (points[i].0, SpawnPointJson(points[i].1))
  {
    JObj(seq(|points|, i requires 0 <= i < |points| => (points[i].0, SpawnPointJson(points[i].1))))
  }

  lemma SpawnPointRoundTrip(tc: TileCoord)
    ensures SpawnPointFromJson(SpawnPointJson(tc)) == Ok(tc)
  {
    var fields := SpawnPointJson(tc).fields;
    assert UniqueKeys(fields) by { assert "block_x"[6] != "block_y"[6]; }
    FindEntry(fields, 0);
    FindEntry(fields, 1);
  }

  /** Saved spawn points load back as the same names and tile coordinates, in the same order. */
  lemma {:induction false} SpawnPointsRoundTrip(points: seq<(string, TileCoord)>)
    ensures SpawnPointsFromJson(SpawnPointsJson(points)) == Ok(points)
    decreases |points|
  {
    if |points| > 0 {
      SpawnPointRoundTrip(points[0].1);
      SpawnPointsRoundTrip(points[1..]);
      var fields := SpawnPointsJson(points).fields;
      assert fields[1..] == SpawnPointsJson(points[1..]).fields;
      assert SpawnFieldsFromJson(fields[1..]) == Ok(points[1..]);
      assert fields[0] == (points[0].0, SpawnPointJson(points[0].1));
      assert [(points[0].0, points[0].1)] + points[1..] == points;
    }
  }

  /** Everything `World.from_json` reads from a world object. */
  datatype WorldRecord = WorldRecord(tiles: seq<seq<Tile>>, entities: seq<EntityRecord>, spawnPoints: seq<(string, TileCoord)>)

  /** `Tile.from_json` as a function of one cell. */
  function TileLoader(reg: seq<(string, TileClass)>): Json -> Result<Tile>
  {
    c => TileFromJson(reg, c)
  }

  /** `tile.to_json(is_to_client)` as a function of one tile. */
  function TileSaver(reg: seq<(string, TileClass)>, toClient: bool): Tile -> Result<Json>
  {
    t => TileToJson(reg, t, toClient)
  }

  /**
   * `World.from_json`: the version must be "0.1.0" (ValueError otherwise),
   * then the tile grid, the entities and the spawn points are read in that
   * order, and the first failure is the result.
   */
  function ParseWorld(tileReg: seq<(string, TileClass)>, entityReg: seq<(string, EntityClass)>, j: Json): (r: Result<WorldRecord>)
    ensures r.Ok? ==> PyGet(j, "version") == Ok(JStr(VERSION))
    ensures PyGet(j, "version").Ok? && PyGet(j, "version").value != JStr(VERSION) ==> r == Err(ValueError)
  {
    var version :- PyGet(j, "version");
    if version != JStr(VERSION) then Err(ValueError)
    else
      var tilesJson :- PyGet(j, "tiles");
      var cells :- AsGrid(tilesJson);
      var tiles :- GridMap(TileLoader(tileReg), cells);
      var entitiesJson :- PyGet(j, "entities");
      var items :- AsList(entitiesJson);
      var records :- LoadRecords(entityReg, items);
      var spawnJson :- PyGet(j, "spawn_points");
      var spawnPoints :- SpawnPointsFromJson(spawnJson);
      Ok(WorldRecord(tiles, records, spawnPoints))
  }

  /** The first entity with UUID `u`, or ValueError. */
  function FindEntity(es: seq<Entity>, u: Uuid): (r: Result<Entity>)
    reads set e | e in es
    ensures r.Ok? <==> exists i :: 0 <= i < |es| && es[i].uuid == Some(u)
    ensures r.Ok? ==> exists i :: 0 <= i < |es| && es[i] == r.value && r.value.uuid == Some(u) &&
                        forall k :: 0 <= k < i ==> es[k].uuid != Some(u)
    ensures r.Err? ==> r.error == ValueError
  {
    if |es| == 0 then Err(ValueError)
    else if es[0].uuid == Some(u) then Ok(es[0])
    else
      var r := FindEntity(es[1..], u);
      if r.Ok? then
        var i :| 0 <= i < |es[1..]| && es[1..][i] == r.value && r.value.uuid == Some(u) &&
                 forall k :: 0 <= k < i ==> es[1..][k].uuid != Some(u);
        assert es[i + 1] == r.value;
        r
      else
        assert forall i :: 1 <= i < |es| ==> es[i] == es[1..][i - 1];
        r
  }

  /** Whether some battle's player combatant is named `username`. */
  predicate InBattle(battles: seq<PlayerAIBattle>, username: string)
  {
    exists i :: 0 <= i < |battles| && battles[i].playerCombatant.username == Some(username)
  }

  /** The battles whose player combatant is not named `username`, in order. */
  function WithoutBattlesOf(battles: seq<PlayerAIBattle>, username: string): (r: seq<PlayerAIBattle>)
    ensures !InBattle(r, username)
    ensures forall i :: 0 <= i < |r| ==> r[i] in battles
    ensures forall i :: 0 <= i < |battles| && battles[i].playerCombatant.username != Some(username) ==> battles[i] in r
  {
    if |battles| == 0 then []
    else
      var rest := WithoutBattlesOf(battles[1..], username);
      assert forall i :: 1 <= i < |battles| ==> battles[i] == battles[1..][i - 1];
      if battles[0].playerCombatant.username != Some(username) then [battles[0]] + rest else rest
  }

  /** Removing battles keeps the order of the rest: it works piecewise on a concatenation. */
  lemma {:induction false} WithoutBattlesOfAppend(a: seq<PlayerAIBattle>, b: seq<PlayerAIBattle>, username: string)
    ensures WithoutBattlesOf(a + b, username) == WithoutBattlesOf(a, username) + WithoutBattlesOf(b, username)
    decreases |a|
  {
    if |a| == 0 {
      assert a + b == b;
    } else {
      assert (a + b)[1..] == a[1..] + b;
      WithoutBattlesOfAppend(a[1..], b, username);
    }
  }

  /** A world. Tiles, entities and spawn points are fixed when it is built; battles come and go. */
  class World {
    const tiles: seq<seq<Tile>>
    const entities: seq<Entity>
    const spawnPoints: seq<(string, TileCoord)>
    var battles: seq<PlayerAIBattle>

    /** Every battle is between two different combatants, and the player's side is a player. */
    ghost predicate Valid()
      reads this
    {
      forall i :: 0 <= i < |battles| ==> battles[i].Valid() && battles[i].playerCombatant.username.Some?
    }

    constructor (tiles: seq<seq<Tile>>, entities: seq<Entity>, spawnPoints: seq<(string, TileCoord)>)
      ensures Valid()
      ensures this.tiles == tiles && this.entities == entities && this.spawnPoints == spawnPoints
      ensures battles == []
    {
      this.tiles := tiles;
      this.entities := entities;
      this.spawnPoints := spawnPoints;
      battles := [];
    }

    /**
     * `get_tile`: the tile at row `block_y`, column `block_x`, with Python's
     * negative indices counting from the end, and the Empty tile wherever
     * the index is out of range.
     */
    function GetTile(tc: TileCoord): (t: Tile)
      ensures 0 <= tc.blockY < |tiles| && 0 <= tc.blockX < |tiles[tc.blockY]| ==> t == tiles[tc.blockY][tc.blockX]
      ensures -|tiles| <= tc.blockY < 0 && 0 <= tc.blockX < |tiles[|tiles| + tc.blockY]| ==>
        t == tiles[|tiles| + tc.blockY][tc.blockX]
      ensures !(-|tiles| <= tc.blockY < |tiles|) ==> t == EMPTY_TILE
      ensures -|tiles| <= tc.blockY < |tiles| && PyIndex(PyIndex(tiles, tc.blockY).value, tc.blockX).None? ==>
        t == EMPTY_TILE
    {
      match PyIndex(tiles, tc.blockY)
      case None => EMPTY_TILE
      case Some(row) =>
        match PyIndex(row, tc.blockX)
        case None => EMPTY_TILE
        case Some(t) => t
    }

    /** `get_entity`. */
    function GetEntity(u: Uuid): (r: Result<Entity>)
      reads set e | e in entities
      ensures r == FindEntity(entities, u)
    {
      FindEntity(entities, u)
    }

    /** The JSON form of every tile, row by row (client or save form). */
    function TilesJson(tileReg: seq<(string, TileClass)>, toClient: bool): Result<Json>
    {
      var rows :- GridMap(TileSaver(tileReg, toClient), tiles);
      Ok(GridJson(rows))
    }

    /** `to_json_save`. */
    function SaveForm(tileReg: seq<(string, TileClass)>, entityReg: seq<(string, EntityClass)>): (r: Result<Json>)
      reads set e | e in entities
      ensures r.Ok? ==> r.value.JObj? && Keys(r.value.fields) == ["version", "tiles", "entities", "spawn_points"]
    {
      var tilesJson :- TilesJson(tileReg, false);
      var entityList :- Messages.EntityJsons(entityReg, entities);
      Ok(JObj([("version", JStr(VERSION)), ("tiles", tilesJson), ("entities", JArr(entityList)),
               ("spawn_points", SpawnPointsJson(spawnPoints))]))
    }

    /** `to_json_client(spawn_pos)`: the client is told where it spawns instead of every spawn point. */
    function ClientForm(tileReg: seq<(string, TileClass)>, entityReg: seq<(string, EntityClass)>, spawnPos: Vec): (r: Result<Json>)
      reads set e | e in entities
      ensures r.Ok? <==> TilesJson(tileReg, true).Ok? && Messages.EntityJsons(entityReg, entities).Ok?
      ensures r.Ok? ==> r.value.JObj? && Keys(r.value.fields) == ["version", "tiles", "entities", "spawn_pos"]
    {
      var tilesJson :- TilesJson(tileReg, true);
      var entityList :- Messages.EntityJsons(entityReg, entities);
      Ok(JObj([("version", JStr(VERSION)), ("tiles", tilesJson), ("entities", JArr(entityList)),
               ("spawn_pos", VecToJson(spawnPos))]))
    }

    /** `to_json_save`, with its nested loop over the tile grid. */
    method ToJsonSave(tileReg: seq<(string, TileClass)>, entityReg: seq<(string, EntityClass)>) returns (r: Result<Json>)
      ensures r == SaveForm(tileReg, entityReg)
    {
      var rows := MapGrid(TileSaver(tileReg, false), tiles);
      if rows.Err? {
        return Err(rows.error);
      }
      var entityList := Messages.EntityJsons(entityReg, entities);
      if entityList.Err? {
        return Err(entityList.error);
      }
      r := Ok(JObj([("version", JStr(VERSION)), ("tiles", GridJson(rows.value)), ("entities", JArr(entityList.value)),
                    ("spawn_points", SpawnPointsJson(spawnPoints))]));
    }

    /** `to_json_client`, with its nested loop over the tile grid. */
    method ToJsonClient(tileReg: seq<(string, TileClass)>, entityReg: seq<(string, EntityClass)>, spawnPos: Vec)
      returns (r: Result<Json>)
      ensures r == ClientForm(tileReg, entityReg, spawnPos)
    {
      var rows := MapGrid(TileSaver(tileReg, true), tiles);
      if rows.Err? {
        return Err(rows.error);
      }
      var entityList := Messages.EntityJsons(entityReg, entities);
      if entityList.Err? {
        return Err(entityList.error);
      }
      r := Ok(JObj([("version", JStr(VERSION)), ("tiles", GridJson(rows.value)), ("entities", JArr(entityList.value)),
                    ("spawn_pos", VecToJson(spawnPos))]));
    }

    /** `player_in_battle`. */
    method PlayerInBattle(username: string) returns (b: bool)
      ensures b <==> InBattle(battles, username)
    {
      var i := 0;
      while i < |battles|
        invariant 0 <= i <= |battles|
        invariant forall k :: 0 <= k < i ==> battles[k].playerCombatant.username != Some(username)
      {
        if battles[i].playerCombatant.username == Some(username) {
          return true;
        }
        i := i + 1;
      }
      return false;
    }

    /** `get_battle_by_username`: the first such battle, or None when the loop falls through. */
    method GetBattleByUsername(username: string) returns (r: Option<PlayerAIBattle>)
      ensures r.None? <==> !InBattle(battles, username)
      ensures r.Some? ==> exists i :: 0 <= i < |battles| && battles[i] == r.value &&
                            r.value.playerCombatant.username == Some(username) &&
                            forall k :: 0 <= k < i ==> battles[k].playerCombatant.username != Some(username)
    {
      var i := 0;
      while i < |battles|
        invariant 0 <= i <= |battles|
        invariant forall k :: 0 <= k < i ==> battles[k].playerCombatant.username != Some(username)
      {
        if battles[i].playerCombatant.username == Some(username) {
          return Some(battles[i]);
        }
        i := i + 1;
      }
      return None;
    }

    /** `del_battle_by_username`: every battle of that player goes, the rest stay in order. */
    method DelBattleByUsername(username: string)
      requires Valid()
      modifies this
      ensures Valid()
      ensures battles == WithoutBattlesOf(old(battles), username)
      ensures !InBattle(battles, username)
    {
      battles := WithoutBattlesOf(battles, username);
    }

    /**
     * `create_battle`: ValueError if the player is already in a battle;
     * otherwise one new battle is appended and the player is sent the start
     * of the battle, both combatants' hit points and its move choices.
     */
    method CreateBattle(username: string, player: Combatant, ai: Combatant) returns (r: Result<seq<string>>)
      requires Valid() && player != ai && player.username.Some?
      modifies this
      ensures Valid()
      ensures InBattle(old(battles), username) ==> r == Err(ValueError) && battles == old(battles)
      ensures !InBattle(old(battles), username) ==>
        |battles| == |old(battles)| + 1 && battles[..|old(battles)|] == old(battles) &&
        fresh(battles[|old(battles)|]) &&
        battles[|old(battles)|].playerCombatant == player && battles[|old(battles)|].aiCombatant == ai &&
        r == Ok([Messages.BATTLE_START, Messages.BattleStatus(player.hp, ai.hp), Messages.MoveRequest(player.moves)])
    {
      var already := PlayerInBattle(username);
      if already {
        return Err(ValueError);
      }
      var battle := new PlayerAIBattle(player, ai);
      battles := battles + [battle];
      r := Ok([Messages.BATTLE_START, Messages.BattleStatus(player.hp, ai.hp), Messages.MoveRequest(player.moves)]);
    }
  }

  /** The record of an entity with a UUID, as its save form carries it. */
  function RecordOf(e: Entity): EntityRecord
    reads e
    requires e.uuid.Some?
  {
    EntityRecord(e.uuid.value, e.cls, e.pos, e.velocity, e.facing)
  }

  /**
   * `World.from_json`: the checks of `ParseWorld`, with the grid read by
   * the nested loop, each entity built by `Entity.from_json` in turn, and a
   * new world with no battles.
   */
  method WorldFromJson(tileReg: seq<(string, TileClass)>, entityReg: seq<(string, EntityClass)>, j: Json, norm: Vec -> real)
    returns (r: Result<World>)
    ensures r.Ok? <==> ParseWorld(tileReg, entityReg, j).Ok?
    ensures r.Err? ==> r.error == ParseWorld(tileReg, entityReg, j).error
    ensures r.Ok? ==> var w := ParseWorld(tileReg, entityReg, j).value;
      fresh(r.value) && r.value.Valid() && r.value.battles == [] &&
      r.value.tiles == w.tiles && r.value.spawnPoints == w.spawnPoints &&
      |r.value.entities| == |w.entities| &&
      forall k :: 0 <= k < |w.entities| ==> fresh(r.value.entities[k]) && LoadedFrom(r.value.entities[k], w.entities[k], norm)
  {
    var version := PyGet(j, "version");
    if version.Err? {
      return Err(version.error);
    }
    if version.value != JStr(VERSION) {
      return Err(ValueError);
    }
    var tilesJson := PyGet(j, "tiles");
    if tilesJson.Err? {
      return Err(tilesJson.error);
    }
    var cells := AsGrid(tilesJson.value);
    if cells.Err? {
      return Err(cells.error);
    }
    var tiles := MapGrid(TileLoader(tileReg), cells.value);
    if tiles.Err? {
      return Err(tiles.error);
    }
    var entitiesJson := PyGet(j, "entities");
    if entitiesJson.Err? {
      return Err(entitiesJson.error);
    }
    var items := AsList(entitiesJson.value);
    if items.Err? {
      return Err(items.error);
    }
    var es := LoadEntities(entityReg, items.value, norm);
    if es.Err? {
      return Err(es.error);
    }
    var spawnJson := PyGet(j, "spawn_points");
    if spawnJson.Err? {
      return Err(spawnJson.error);
    }
    var spawnPoints := SpawnPointsFromJson(spawnJson.value);
    if spawnPoints.Err? {
      return Err(spawnPoints.error);
    }
    var world := new World(tiles.value, es.value, spawnPoints.value);
    return Ok(world);
  }

  /**
   * `[Entity.from_json(entity) for entity in ...]`: one new entity per item,
   * built from the item's record, or the first item's failure. Every item
   * is parsed before any entity is built; a failure discards the entities
   * built so far in the source, so the outcome is the same.
   */
  method LoadEntities(entityReg: seq<(string, EntityClass)>, items: seq<Json>, norm: Vec -> real)
    returns (r: Result<seq<Entity>>)
    ensures r.Err? ==> LoadRecords(entityReg, items) == Err(r.error)
    ensures r.Ok? ==> LoadRecords(entityReg, items).Ok? && |r.value| == |items|
    ensures r.Ok? ==> forall k :: 0 <= k < |items| ==>
      fresh(r.value[k]) && LoadedFrom(r.value[k], LoadRecords(entityReg, items).value[k], norm)
  {
    var loaded := LoadRecords(entityReg, items);
    if loaded.Err? {
      return Err(loaded.error);
    }
    var es := BuildAll(loaded.value, norm);
    return Ok(es);
  }

  /** Builds one new entity per record, in order. */
  method BuildAll(recs: seq<EntityRecord>, norm: Vec -> real) returns (es: seq<Entity>)
    requires forall k :: 0 <= k < |recs| ==> recs[k].cls != PlayerClass
    ensures |es| == |recs|
    ensures forall k :: 0 <= k < |recs| ==> fresh(es[k]) && LoadedFrom(es[k], recs[k], norm)
  {
    es := [];
    var k := 0;
    while k < |recs|
      invariant 0 <= k <= |recs| && |es| == k
      invariant forall m :: 0 <= m < k ==> fresh(es[m]) && LoadedFrom(es[m], recs[m], norm)
    {
      var e := Build(recs[k], norm, 0);
      es := es + [e];
      k := k + 1;
    }
  }

  /** Every cell of the grid is a well-formed tile whose classes are registered. */
  predicate SavableTiles(tileReg: seq<(string, TileClass)>, tiles: seq<seq<Tile>>)
  {
    forall i, k :: 0 <= i < |tiles| && 0 <= k < |tiles[i]| ==> WellFormed(tiles[i][k]) && Registered(tileReg, tiles[i][k])
  }

  /** Every entity has a UUID and a registered class other than Player. */
  ghost predicate SavableEntities(entityReg: seq<(string, EntityClass)>, es: seq<Entity>)
    reads set e | e in es
  {
    forall k :: 0 <= k < |es| ==> es[k].uuid.Some? && es[k].cls != PlayerClass && KeyOf(entityReg, es[k].cls).Some?
  }

  /** The saved tile grid is a list of lists that loads back as the same grid. */
  lemma SavedTilesLoad(w: World, tileReg: seq<(string, TileClass)>)
    requires UniqueKeys(tileReg) && SavableTiles(tileReg, w.tiles)
    ensures w.TilesJson(tileReg, false).Ok?
    ensures AsGrid(w.TilesJson(tileReg, false).value).Ok?
    ensures GridMap(TileLoader(tileReg), AsGrid(w.TilesJson(tileReg, false).value).value) == Ok(w.tiles)
  {
    forall i, k | 0 <= i < |w.tiles| && 0 <= k < |w.tiles[i]|
      ensures TileSaver(tileReg, false)(w.tiles[i][k]).Ok?
      ensures TileLoader(tileReg)(TileSaver(tileReg, false)(w.tiles[i][k]).value) == Ok(w.tiles[i][k])
    {
      TileSaveRoundTrip(tileReg, w.tiles[i][k]);
    }
    GridRoundTrip(TileSaver(tileReg, false), TileLoader(tileReg), w.tiles);
  }

  /** The saved entity list loads back as the entities' records, in order. */
  lemma SavedEntitiesLoad(w: World, entityReg: seq<(string, EntityClass)>)
    requires UniqueKeys(entityReg) && SavableEntities(entityReg, w.entities)
    ensures Messages.EntityJsons(entityReg, w.entities).Ok?
    ensures var loaded := LoadRecords(entityReg, Messages.EntityJsons(entityReg, w.entities).value);
      loaded.Ok? && |loaded.value| == |w.entities| &&
      forall k :: 0 <= k < |w.entities| ==> loaded.value[k] == RecordOf(w.entities[k])
  {
    forall k | 0 <= k < |w.entities|
      ensures w.entities[k].ToJson(entityReg).Ok?
      ensures ParseEntity(entityReg, w.entities[k].ToJson(entityReg).value) == Ok(RecordOf(w.entities[k]))
    {
      w.entities[k].ToJsonRoundTrip(entityReg);
    }
    var ents := Messages.EntityJsons(entityReg, w.entities).value;
    forall k | 0 <= k < |w.entities|
      ensures LoadRecord(entityReg, ents[k]) == Ok(RecordOf(w.entities[k]))
    {
      assert ents[k] == w.entities[k].ToJson(entityReg).value;
    }
  }

  /** Each of the four keys of the save form finds its own entry. */
  lemma SaveFormFields(w: World, tileReg: seq<(string, TileClass)>, entityReg: seq<(string, EntityClass)>)
    requires w.SaveForm(tileReg, entityReg).Ok?
    ensures var saved := w.SaveForm(tileReg, entityReg).value;
      PyGet(saved, "version") == Ok(JStr(VERSION)) &&
      PyGet(saved, "tiles") == w.TilesJson(tileReg, false) &&
      PyGet(saved, "entities") == Ok(JArr(Messages.EntityJsons(entityReg, w.entities).value)) &&
      PyGet(saved, "spawn_points") == Ok(SpawnPointsJson(w.spawnPoints))
  {
    var tilesJson := w.TilesJson(tileReg, false).value;
    var entityList := JArr(Messages.EntityJsons(entityReg, w.entities).value);
    SaveObjectFields(JStr(VERSION), tilesJson, entityList, SpawnPointsJson(w.spawnPoints));
  }

  lemma SaveObjectFields(version: Json, tiles: Json, entities: Json, spawnPoints: Json)
    ensures var saved := JObj([("version", version), ("tiles", tiles), ("entities", entities), ("spawn_points", spawnPoints)]);
      PyGet(saved, "version") == Ok(version) && PyGet(saved, "tiles") == Ok(tiles) &&
      PyGet(saved, "entities") == Ok(entities) && PyGet(saved, "spawn_points") == Ok(spawnPoints)
  {
    var fields := [("version", version), ("tiles", tiles), ("entities", entities), ("spawn_points", spawnPoints)];
    assert UniqueKeys(fields) by {
      assert |"version"| == 7 && |"tiles"| == 5 && |"entities"| == 8 && |"spawn_points"| == 12;
    }
    FindEntry(fields, 0);
    FindEntry(fields, 1);
    FindEntry(fields, 2);
    FindEntry(fields, 3);
  }

  /**
   * Each of the four keys of the client form holds its own part: version
   * "0.1.0", the tiles in client form, each entity's JSON in world order,
   * and the spawn position as an `x`/`y` object.
   */
  lemma ClientFormFields(w: World, tileReg: seq<(string, TileClass)>, entityReg: seq<(string, EntityClass)>, spawnPos: Vec)
    requires w.ClientForm(tileReg, entityReg, spawnPos).Ok?
    ensures var sent := w.ClientForm(tileReg, entityReg, spawnPos).value;
      PyGet(sent, "version") == Ok(JStr("0.1.0")) &&
      PyGet(sent, "tiles") == w.TilesJson(tileReg, true) &&
      PyGet(sent, "spawn_pos") == Ok(JObj([("x", JNum(spawnPos.x)), ("y", JNum(spawnPos.y))]))
    ensures var sent := w.ClientForm(tileReg, entityReg, spawnPos).value;
      PyGet(sent, "entities").Ok? && PyGet(sent, "entities").value.JArr? &&
      |PyGet(sent, "entities").value.items| == |w.entities| &&
      forall k :: 0 <= k < |w.entities| ==> PyGet(sent, "entities").value.items[k] == w.entities[k].ToJson(entityReg).value
  {
    var tilesJson := w.TilesJson(tileReg, true).value;
    var entityList := JArr(Messages.EntityJsons(entityReg, w.entities).value);
    ClientObjectFields(JStr(VERSION), tilesJson, entityList, VecToJson(spawnPos));
  }

  lemma ClientObjectFields(version: Json, tiles: Json, entities: Json, spawnPos: Json)
    ensures var sent := JObj([("version", version), ("tiles", tiles), ("entities", entities), ("spawn_pos", spawnPos)]);
      PyGet(sent, "version") == Ok(version) && PyGet(sent, "tiles") == Ok(tiles) &&
      PyGet(sent, "entities") == Ok(entities) && PyGet(sent, "spawn_pos") == Ok(spawnPos)
  {
    var fields := [("version", version), ("tiles", tiles), ("entities", entities), ("spawn_pos", spawnPos)];
    assert UniqueKeys(fields) by {
      assert |"version"| == 7 && |"tiles"| == 5 && |"entities"| == 8 && |"spawn_pos"| == 9;
    }
    FindEntry(fields, 0);
    FindEntry(fields, 1);
    FindEntry(fields, 2);
    FindEntry(fields, 3);
  }

  /**
   * The tiles of the client form are the world's grid, cell for cell, each
   * tile in its client form, so a tile with metadata sends exactly its
   * `send_to_client` keys.
   */
  lemma ClientFormTiles(w: World, tileReg: seq<(string, TileClass)>)
    requires w.TilesJson(tileReg, true).Ok?
    ensures var g := AsGrid(w.TilesJson(tileReg, true).value);
      g.Ok? && |g.value| == |w.tiles| &&
      forall i :: 0 <= i < |w.tiles| ==> (|g.value[i]| == |w.tiles[i]| &&
        forall j :: 0 <= j < |w.tiles[i]| ==> g.value[i][j] == TileToJson(tileReg, w.tiles[i][j], true).value)
    ensures var g := AsGrid(w.TilesJson(tileReg, true).value).value;
      forall i, j :: 0 <= i < |w.tiles| && 0 <= j < |w.tiles[i]| && IsTilePlus(w.tiles[i][j].cls) && w.tiles[i][j].data.Some? ==>
        Keys(g[i][j].fields[1].1.fields) == SendToClient(w.tiles[i][j].data.value)
  {
    var rows := GridMap(TileSaver(tileReg, true), w.tiles).value;
    assert AsGrid(w.TilesJson(tileReg, true).value) == Ok(rows);
    forall i, j | 0 <= i < |w.tiles| && 0 <= j < |w.tiles[i]|
      ensures rows[i][j] == TileToJson(tileReg, w.tiles[i][j], true).value
      ensures TileToJson(tileReg, w.tiles[i][j], true).Ok?
    {
      assert rows[i] == RowMap(TileSaver(tileReg, true), w.tiles[i]).value;
    }
    forall i, j | 0 <= i < |w.tiles| && 0 <= j < |w.tiles[i]| && IsTilePlus(w.tiles[i][j].cls) && w.tiles[i][j].data.Some?
      ensures Keys(rows[i][j].fields[1].1.fields) == SendToClient(w.tiles[i][j].data.value)
    {
      ClientFormFilters(tileReg, w.tiles[i][j]);
    }
  }

  /**
   * Saving a world and loading the save gives back its tile grid, every
   * entity's UUID, class, position, velocity and facing in order, and its
   * spawn points.
   */
  lemma WorldSaveRoundTrip(w: World, tileReg: seq<(string, TileClass)>, entityReg: seq<(string, EntityClass)>)
    requires UniqueKeys(tileReg) && UniqueKeys(entityReg)
    requires SavableTiles(tileReg, w.tiles) && SavableEntities(entityReg, w.entities)
    ensures w.SaveForm(tileReg, entityReg).Ok?
    ensures var loaded := ParseWorld(tileReg, entityReg, w.SaveForm(tileReg, entityReg).value);
      loaded.Ok? && loaded.value.tiles == w.tiles && loaded.value.spawnPoints == w.spawnPoints &&
      |loaded.value.entities| == |w.entities| &&
      forall k :: 0 <= k < |w.entities| ==> loaded.value.entities[k] == RecordOf(w.entities[k])
  {
    SavedTilesLoad(w, tileReg);
    SavedEntitiesLoad(w, entityReg);
    SpawnPointsRoundTrip(w.spawnPoints);
    SaveFormFields(w, tileReg, entityReg);
  }

  /** `get_world_by_id`: ValueError for an unknown ID (and TypeError for an unhashable one). */
  function GetWorldById(worlds: Registry<World>, id: Json): (r: Result<World>)
    reads worlds
    ensures r.Ok? <==> id.JStr? && Find(worlds.entries, id.s).Some?
    ensures r.Ok? ==> Find(worlds.entries, id.s) == Some(r.value)
    ensures r.Err? ==> r.error == (if id.JArr? || id.JObj? then TypeError else ValueError)
  {
    GetById(worlds.entries, id)
  }

  /** `get_world_id`: the ID a world was registered under, or ValueError. */
  function GetWorldId(worlds: Registry<World>, w: World): (r: Result<string>)
    reads worlds
    ensures r.Ok? <==> KeyOf(worlds.entries, w).Some?
    ensures r.Ok? ==> KeyOf(worlds.entries, w) == Some(r.value)
    ensures r.Err? ==> r.error == ValueError
  {
    IdOf(worlds.entries, w)
  }

  /** In a registry without duplicate IDs, looking a world up by its own ID finds it again. */
  lemma WorldIdRoundTrip(worlds: Registry<World>, w: World)
    requires worlds.Valid() && GetWorldId(worlds, w).Ok?
    ensures GetWorldById(worlds, JStr(GetWorldId(worlds, w).value)) == Ok(w)
  {
    KeyOfInvertsFind(worlds.entries, GetWorldId(worlds, w).value, w);
  }
}
