/**
 * The ID registries the game keeps: server tile, entity and world classes
 * registered by decorator or at start-up (server/tilebasic.py,
 * server/entitybasic.py, server/world.py), and the client tile, entity and
 * cutscene Maps (js/index/tile.mjs, js/index/entity.mjs,
 * js/index/cutscene.mjs). Each is an insertion-ordered table from an ID to a
 * value that refuses a second registration of the same ID.
 */
module Registries {
  import opened Wrappers
  import opened AssocLists
  import opened Json

  /**
   * The server's class lookup by ID (`_registry.get(id)`, then ValueError
   * when nothing is found): a list or object ID is unhashable (TypeError),
   * and any other non-string finds nothing.
   */
  function GetById<V>(reg: seq<(string, V)>, id: Json): (r: Result<V>)
    ensures r.Ok? <==> id.JStr? && Find(reg, id.s).Some?
    ensures r.Ok? ==> Find(reg, id.s) == Some(r.value)
    ensures r.Err? ==> r.error == (if id.JArr? || id.JObj? then TypeError else ValueError)
  {
    if id.JArr? || id.JObj? then Err(TypeError)
    else if !id.JStr? then Err(ValueError)
    else match Find(reg, id.s)
      case Some(c) => Ok(c)
      case None => Err(ValueError)
  }

  /** The server's reverse scan (`get_tile_id`, `get_entity_id`, `get_world_id`): ValueError when unregistered. */
  function IdOf<V(==)>(reg: seq<(string, V)>, v: V): (r: Result<string>)
    ensures r.Ok? <==> KeyOf(reg, v).Some?
    ensures r.Ok? ==> KeyOf(reg, v) == Some(r.value)
    ensures r.Err? ==> r.error == ValueError
  {
    match KeyOf(reg, v)
    case Some(id) => Ok(id)
    case None => Err(ValueError)
  }

  /** An insertion-ordered ID table that refuses duplicate IDs. */
  class Registry<V(==)> {
    var entries: seq<(string, V)>

    ghost predicate Valid()
      reads this
    {
      UniqueKeys(entries)
    }

    constructor ()
      ensures Valid() && entries == []
    {
      entries := [];
    }

    /**
     * Register `v` under `key`. A second registration of an ID is refused
     * (the source raises ValueError or throws) and changes nothing.
     */
    method Register(key: string, v: V) returns (ok: bool)
      requires Valid()
      modifies this
      ensures Valid()
      ensures ok <==> Find(old(entries), key).None?
      ensures entries == if ok then old(entries) + [(key, v)] else old(entries)
      ensures ok ==> Find(entries, key) == Some(v)
    {
      ok := Find(entries, key).None?;
      if ok {
        FindAfterAppend(entries, key, v, key);
        entries := entries + [(key, v)];
      }
    }
  }
}
