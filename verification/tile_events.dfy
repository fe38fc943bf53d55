/**
 * Stepping onto a portal tile (server/tile.py, `Portal.on_move_on`): the
 * destination world is looked up by its ID, the player is moved to that
 * world, and then placed at the destination's named spawn point.
 */
module TileEvents {
  import opened Wrappers
  import opened Json
  import opened AssocLists
  import opened Registries
  import opened TileCoords
  import opened ServerTiles
  import opened ServerGame
  import opened ServerWorld

  /**
   * `world.spawn_points[spawn_id]` on the dict of spawn points: a list or
   * object key is unhashable (TypeError), and any key the dict does not
   * hold, a non-string one included, is a KeyError.
   */
  function SpawnLookup(spawnPoints: seq<(string, TileCoord)>, id: Json): (r: Result<TileCoord>)
    ensures r.Ok? <==> id.JStr? && Find(spawnPoints, id.s).Some?
    ensures r.Ok? ==> Find(spawnPoints, id.s) == Some(r.value)
    ensures r.Err? ==> r.error == (if id.JArr? || id.JObj? then TypeError else KeyError)
  {
    if id.JArr? || id.JObj? then Err(TypeError)
    else if !id.JStr? then Err(KeyError)
    else match Find(spawnPoints, id.s)
      case Some(tc) => Ok(tc)
      case None => Err(KeyError)
  }

  /**
   * A spawn point named in a world file is found under its name in the
   * loaded world, at the tile coordinates the file gives it.
   */
  lemma SpawnLookupLoaded(spawnJson: Json, i: nat)
    requires spawnJson.JObj? && UniqueKeys(spawnJson.fields) && i < |spawnJson.fields|
    requires SpawnPointsFromJson(spawnJson).Ok?
    ensures SpawnPointFromJson(spawnJson.fields[i].1).Ok?
    ensures SpawnLookup(SpawnPointsFromJson(spawnJson).value, JStr(spawnJson.fields[i].0)) ==
            SpawnPointFromJson(spawnJson.fields[i].1)
  {
    var fields := spawnJson.fields;
    var points := SpawnPointsFromJson(spawnJson).value;
    assert UniqueKeys(points) by {
      forall a, b | 0 <= a < b < |points|
        ensures points[a].0 != points[b].0
      {
        assert points[a].0 == fields[a].0 && points[b].0 == fields[b].0;
      }
    }
    FindEntry(points, i);
  }

  /**
   * `Portal.on_move_on` up to the position update. A destination that is
   * not registered fails before anything changes; the player's world is
   * then switched before the spawn point is looked up, so a missing spawn
   * point leaves the player in the new world at the old position. On
   * success the player stands in the spawn tile of the destination, which
   * is returned.
   */
  method PortalMoveOn(worlds: Registry<World>, data: TileMetadata, player: Player) returns (r: Result<World>)
    requires data.PortalData?
    modifies player`worldId, player.body`pos
    ensures GetWorldById(worlds, data.worldId).Err? ==>
      r == Err(GetWorldById(worlds, data.worldId).error) &&
      player.worldId == old(player.worldId) && player.body.pos == old(player.body.pos)
    ensures GetWorldById(worlds, data.worldId).Ok? ==> player.worldId == data.worldId.s
    ensures GetWorldById(worlds, data.worldId).Ok? ==>
      var w := GetWorldById(worlds, data.worldId).value;
      var spawn := SpawnLookup(w.spawnPoints, data.spawnId);
      (spawn.Err? ==> r == Err(spawn.error) && player.body.pos == old(player.body.pos)) &&
      (spawn.Ok? ==> r == Ok(w) && player.body.pos == ToSpawnPos(spawn.value) &&
                     PosToTileCoord(player.body.pos) == spawn.value)
  {
    var found := GetWorldById(worlds, data.worldId);
    if found.Err? {
      return Err(found.error);
    }
    var world := found.value;
    player.worldId := data.worldId.s;
    var spawn := SpawnLookup(world.spawnPoints, data.spawnId);
    if spawn.Err? {
      return Err(spawn.error);
    }
    player.body.pos := ToSpawnPos(spawn.value);
    ToSpawnPosRoundTrip(spawn.value);
    return Ok(world);
  }
}
