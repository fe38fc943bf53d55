/**
 * The tile map editor's world (js/tilemapeditor.js): the grid of tiles and
 * the ordered map from spawn-point IDs to tile coordinates, the operations
 * that grow and shrink the grid a row or a column at a time, and tile
 * coordinates with their JSON form.
 *
 * A `TileCoord` is an object: two coordinates of the same cell made apart
 * are different objects, which is what `===` compares.
 */
module EditorWorld {
  import opened Wrappers
  import opened Json
  import opened AssocLists
  import opened EditorGrid

  // ----- tile coordinates -----

  /** A cell of the editor's table, by row and column. */
  class TileCoord {
    const rowNum: int
    const colNum: int

    constructor (rowNum: int, colNum: int)
      ensures this.rowNum == rowNum && this.colNum == colNum
    {
      this.rowNum := rowNum;
      this.colNum := colNum;
    }

    /**
     * `toJSON` as written: its body names `colNum` and `rowNum` without
     * `this.`, and no such variables exist, so it throws a ReferenceError.
     */
    function ToJsonAsWritten(): (r: Result<Json>)
      ensures r.Err? && r.error == ReferenceError
    {
      Err(ReferenceError)
    }

    /** `toJSON` as intended: the column as `block_x` and the row as `block_y`, which `fromJSON` reads back. */
    function ToJson(): (j: Json)
      ensures CoordFields(j) == Ok((rowNum, colNum))
    {
      CoordJsonFields(rowNum, colNum);
      JObj([("block_x", JNum(colNum as real)), ("block_y", JNum(rowNum as real))])
    }
  }

  lemma CoordJsonFields(row: int, col: int)
    ensures var j := JObj([("block_x", JNum(col as real)), ("block_y", JNum(row as real))]);
      JsGet(j, "block_x") == Ok(Some(JNum(col as real))) && JsGet(j, "block_y") == Ok(Some(JNum(row as real)))
  {
    var f := [("block_x", JNum(col as real)), ("block_y", JNum(row as real))];
    assert "block_x" != "block_y" by { assert "block_x"[6] != "block_y"[6]; }
    assert f[1..] == [("block_y", JNum(row as real))];
    assert Find(f, "block_y") == Find(f[1..], "block_y");
  }

  /** A whole number, as a field of a coordinate must be. */
  function WholeNumber(v: Option<Json>): (r: Result<int>)
    ensures r.Ok? <==> v.Some? && v.value.JNum? && v.value.n == v.value.n.Floor as real
    ensures r.Ok? ==> v == Some(JNum(r.value as real))
  {
    if v.Some? && v.value.JNum? && v.value.n == v.value.n.Floor as real then Ok(v.value.n.Floor) else Err(TypeError)
  }

  /**
   * The row (`block_y`) and column (`block_x`) `TileCoord.fromJSON` reads
   * from an object; a null object is a TypeError.
   */
  function CoordFields(obj: Json): (r: Result<(int, int)>)
    ensures obj.JNull? ==> r == Err(TypeError)
    ensures r.Ok? ==> JsGet(obj, "block_y") == Ok(Some(JNum(r.value.0 as real))) &&
                      JsGet(obj, "block_x") == Ok(Some(JNum(r.value.1 as real)))
  {
    var row :- JsGet(obj, "block_y");
    var col := JsGet(obj, "block_x").value;
    var r :- WholeNumber(row);
    var c :- WholeNumber(col);
    Ok((r, c))
  }

  /** `TileCoord.fromJSON`: a new coordinate at the cell the object names. */
  method CoordFromJson(obj: Json) returns (r: Result<TileCoord>)
    ensures r.Ok? <==> CoordFields(obj).Ok?
    ensures r.Err? ==> r.error == CoordFields(obj).error
    ensures r.Ok? ==> fresh(r.value) && (r.value.rowNum, r.value.colNum) == CoordFields(obj).value
  {
    var fields := CoordFields(obj);
    if fields.Err? {
      return Err(fields.error);
    }
    var c := new TileCoord(fields.value.0, fields.value.1);
    return Ok(c);
  }

  /** A coordinate saved as intended and read back names the same cell. */
  lemma CoordRoundTrip(c: TileCoord)
    ensures CoordFields(c.ToJson()) == Ok((c.rowNum, c.colNum))
  {
  }

  // ----- the spawn-point map -----

  /** The entries whose ID is not `id` (`Map.prototype.delete`). */
  function Without(sp: seq<(string, TileCoord)>, id: string): (r: seq<(string, TileCoord)>)
    ensures |r| <= |sp|
    ensures forall i :: 0 <= i < |r| ==> r[i] in sp && r[i].0 != id
    ensures forall i :: 0 <= i < |sp| && sp[i].0 != id ==> sp[i] in r
  {
    if |sp| == 0 then []
    else
      var rest := Without(sp[..|sp| - 1], id);
      assert forall i :: 0 <= i < |sp| - 1 ==> sp[..|sp| - 1][i] == sp[i];
      if sp[|sp| - 1].0 == id then rest else rest + [sp[|sp| - 1]]
  }

  /** The entries whose coordinate does not match, in order. */
  function Keep(sp: seq<(string, TileCoord)>, matches: TileCoord -> bool): (r: seq<(string, TileCoord)>)
    ensures |r| <= |sp|
    ensures forall i :: 0 <= i < |r| ==> r[i] in sp && !matches(r[i].1)
    ensures forall i :: 0 <= i < |sp| && !matches(sp[i].1) ==> sp[i] in r
  {
    if |sp| == 0 then []
    else
      var rest := Keep(sp[..|sp| - 1], matches);
      assert forall i :: 0 <= i < |sp| - 1 ==> sp[..|sp| - 1][i] == sp[i];
      if matches(sp[|sp| - 1].1) then rest else rest + [sp[|sp| - 1]]
  }

  /** `===` on coordinates: the same object. */
  function SameObject(tc: TileCoord): TileCoord -> bool
  {
    (c: TileCoord) => c == tc
  }

  /** The same cell, whichever object names it. */
  function SameCell(row: int, col: int): TileCoord -> bool
  {
    (c: TileCoord) => c.rowNum == row && c.colNum == col
  }

  /** Keys are unique and the entries are known by them. */
  lemma FindByMembership(sp: seq<(string, TileCoord)>, id: string, c: TileCoord)
    requires UniqueKeys(sp)
    ensures Find(sp, id) == Some(c) <==> (id, c) in sp
  {
    if (id, c) in sp {
      var i :| 0 <= i < |sp| && sp[i] == (id, c);
      var v := Find(sp, id).value;
      var k :| 0 <= k < |sp| && sp[k] == (id, v);
      assert k == i;
    }
  }

  lemma UniqueKeysSub(sp: seq<(string, TileCoord)>, r: seq<(string, TileCoord)>)
    requires UniqueKeys(sp)
    requires forall e :: e in r ==> e in sp
    requires forall i, j :: 0 <= i < j < |r| ==> r[i] != r[j]
    ensures UniqueKeys(r)
  {
    forall i, j | 0 <= i < j < |r| ensures r[i].0 != r[j].0 {
      assert r[i] in sp && r[j] in sp;
      var a :| 0 <= a < |sp| && sp[a] == r[i];
      var b :| 0 <= b < |sp| && sp[b] == r[j];
      assert a != b;
    }
  }

  /** Entries of a map with unique keys appear once. */
  predicate Distinct(sp: seq<(string, TileCoord)>)
  {
    forall i, j :: 0 <= i < j < |sp| ==> sp[i] != sp[j]
  }

  lemma {:induction false} KeepDistinct(sp: seq<(string, TileCoord)>, matches: TileCoord -> bool)
    requires Distinct(sp)
    ensures Distinct(Keep(sp, matches))
  {
    if |sp| > 0 {
      var init := sp[..|sp| - 1];
      assert Distinct(init);
      KeepDistinct(init, matches);
      assert sp[|sp| - 1] !in init;
    }
  }

  lemma {:induction false} WithoutDistinct(sp: seq<(string, TileCoord)>, id: string)
    requires Distinct(sp)
    ensures Distinct(Without(sp, id))
  {
    if |sp| > 0 {
      var init := sp[..|sp| - 1];
      assert Distinct(init);
      WithoutDistinct(init, id);
      assert sp[|sp| - 1] !in init;
    }
  }

  /**
   * `setSpawnpoint(id, tc)`: the entry for `id`, then every entry whose
   * coordinate matches `tc`, is removed, and `id` is set to `tc` last.
   */
  function SpawnSet(sp: seq<(string, TileCoord)>, id: string, tc: TileCoord, matches: TileCoord -> bool): seq<(string, TileCoord)>
  {
    Keep(Without(sp, id), matches) + [(id, tc)]
  }

  /**
   * After `setSpawnpoint(id, tc)` the keys are still unique, `id` maps to
   * `tc`, and every other ID keeps its coordinate unless that coordinate
   * matched `tc`, in which case it is gone.
   */
  lemma SpawnSetFinds(sp: seq<(string, TileCoord)>, id: string, tc: TileCoord, matches: TileCoord -> bool, k: string)
    requires UniqueKeys(sp)
    ensures UniqueKeys(SpawnSet(sp, id, tc, matches))
    ensures Find(SpawnSet(sp, id, tc, matches), id) == Some(tc)
    ensures k != id ==>
      Find(SpawnSet(sp, id, tc, matches), k) == (if Find(sp, k).Some? && !matches(Find(sp, k).value) then Find(sp, k) else None)
  {
    var kept := Keep(Without(sp, id), matches);
    var r := SpawnSet(sp, id, tc, matches);
    assert Distinct(sp);
    WithoutDistinct(sp, id);
    KeepDistinct(Without(sp, id), matches);
    UniqueKeysSub(sp, kept);
    assert forall e :: e in kept ==> e.0 != id;
    assert UniqueKeys(r) by {
      forall i, j | 0 <= i < j < |r| ensures r[i].0 != r[j].0 {
        if j == |r| - 1 {
          assert r[i] in kept;
        } else {
          assert r[i] == kept[i] && r[j] == kept[j];
        }
      }
    }
    FindByMembership(r, id, tc);
    if k != id {
      if Find(r, k).Some? {
        FindByMembership(r, k, Find(r, k).value);
        FindByMembership(sp, k, Find(r, k).value);
      }
      if Find(sp, k).Some? && !matches(Find(sp, k).value) {
        FindByMembership(sp, k, Find(sp, k).value);
        FindByMembership(r, k, Find(sp, k).value);
      }
    }
  }

  /** At most one spawn point on each cell. */
  predicate CellsUnique(sp: seq<(string, TileCoord)>)
  {
    forall i, j :: 0 <= i < j < |sp| ==>
      sp[i].1.rowNum != sp[j].1.rowNum || sp[i].1.colNum != sp[j].1.colNum
  }

  /** Setting a spawn point that first clears its cell keeps one spawn point per cell. */
  lemma SpawnSetKeepsCellsUnique(sp: seq<(string, TileCoord)>, id: string, tc: TileCoord)
    requires CellsUnique(sp)
    ensures CellsUnique(SpawnSet(sp, id, tc, SameCell(tc.rowNum, tc.colNum)))
  {
    var w := Without(sp, id);
    var kept := Keep(w, SameCell(tc.rowNum, tc.colNum));
    var r := kept + [(id, tc)];
    assert CellsUnique(w) by { SubsequenceCells(sp, id); }
    assert CellsUnique(kept) by { KeepCells(w, SameCell(tc.rowNum, tc.colNum)); }
    forall i, j | 0 <= i < j < |r|
      ensures r[i].1.rowNum != r[j].1.rowNum || r[i].1.colNum != r[j].1.colNum
    {
      if j == |r| - 1 {
        assert r[i] in kept;
      } else {
        assert r[i] == kept[i] && r[j] == kept[j];
      }
    }
  }

  lemma {:induction false} SubsequenceCells(sp: seq<(string, TileCoord)>, id: string)
    requires CellsUnique(sp)
    ensures CellsUnique(Without(sp, id))
  {
    if |sp| > 0 {
      var init := sp[..|sp| - 1];
      SubsequenceCells(init, id);
      var rest := Without(init, id);
      var last := sp[|sp| - 1];
      if last.0 != id {
        var r := rest + [last];
        forall i, j | 0 <= i < j < |r|
          ensures r[i].1.rowNum != r[j].1.rowNum || r[i].1.colNum != r[j].1.colNum
        {
          if j == |r| - 1 {
            assert r[i] in init;
            var k :| 0 <= k < |init| && init[k] == r[i];
            assert sp[k] == r[i] && sp[|sp| - 1] == last;
          } else {
            assert r[i] == rest[i] && r[j] == rest[j];
          }
        }
      }
    }
  }

  lemma {:induction false} KeepCells(sp: seq<(string, TileCoord)>, matches: TileCoord -> bool)
    requires CellsUnique(sp)
    ensures CellsUnique(Keep(sp, matches))
  {
    if |sp| > 0 {
      var init := sp[..|sp| - 1];
      KeepCells(init, matches);
      var rest := Keep(init, matches);
      var last := sp[|sp| - 1];
      if !matches(last.1) {
        var r := rest + [last];
        forall i, j | 0 <= i < j < |r|
          ensures r[i].1.rowNum != r[j].1.rowNum || r[i].1.colNum != r[j].1.colNum
        {
          if j == |r| - 1 {
            assert r[i] in init;
            var k :| 0 <= k < |init| && init[k] == r[i];
            assert sp[k] == r[i] && sp[|sp| - 1] == last;
          } else {
            assert r[i] == rest[i] && r[j] == rest[j];
          }
        }
      }
    }
  }

  /**
   * A coordinate object the map does not hold matches nothing by `===`:
   * removing by it keeps every entry, while removing by its cell leaves no
   * entry on that cell.
   */
  lemma RemoveByNewCoord(sp: seq<(string, TileCoord)>, tc: TileCoord)
    requires forall e :: e in sp ==> e.1 != tc
    ensures Keep(sp, SameObject(tc)) == sp
    ensures forall e :: e in Keep(sp, SameCell(tc.rowNum, tc.colNum)) ==>
      e.1.rowNum != tc.rowNum || e.1.colNum != tc.colNum
  {
    KeepAll(sp, SameObject(tc));
  }

  lemma {:induction false} KeepAll(sp: seq<(string, TileCoord)>, matches: TileCoord -> bool)
    requires forall e :: e in sp ==> !matches(e.1)
    ensures Keep(sp, matches) == sp
  {
    if |sp| > 0 {
      var init := sp[..|sp| - 1];
      assert forall e :: e in init ==> e in sp;
      KeepAll(init, matches);
      assert sp == init + [sp[|sp| - 1]];
    }
  }

  /**
   * As written, setting a spawn point on a cell that already has one, with
   * a new coordinate object for that cell, keeps both: two spawn points on
   * one cell. Matching by cell keeps only the new one.
   */
  lemma SetOnOccupiedCell(old_: TileCoord, new_: TileCoord)
    requires old_ != new_ && old_.rowNum == new_.rowNum && old_.colNum == new_.colNum
    ensures SpawnSet([("a", old_)], "b", new_, SameObject(new_)) == [("a", old_), ("b", new_)]
    ensures !CellsUnique(SpawnSet([("a", old_)], "b", new_, SameObject(new_)))
    ensures SpawnSet([("a", old_)], "b", new_, SameCell(new_.rowNum, new_.colNum)) == [("b", new_)]
  {
    var sp := [("a", old_)];
    assert "a" != "b";
    assert Without(sp, "b") == Without([], "b") + [("a", old_)] by { assert sp[..0] == []; }
    assert Keep(sp, SameObject(new_)) == Keep([], SameObject(new_)) + [("a", old_)] by { assert sp[..0] == []; }
    assert Keep(sp, SameCell(new_.rowNum, new_.colNum)) == [] by { assert sp[..0] == []; }
    var r := SpawnSet(sp, "b", new_, SameObject(new_));
    assert r[0].1.rowNum == r[1].1.rowNum && r[0].1.colNum == r[1].1.colNum;
  }

  // ----- spawn points off the map -----

  /** The coordinate's cell is on the map (and so in the spawn-point table, which has the map's shape). */
  predicate OnMap(g: seq<seq<Tile>>, c: TileCoord)
  {
    InGrid(g, c.rowNum, c.colNum)
  }

  /** The ID is stored, at a cell off the map: removing it throws. */
  predicate StoredOffMap(g: seq<seq<Tile>>, sp: seq<(string, TileCoord)>, id: string)
  {
    Find(sp, id).Some? && !OnMap(g, Find(sp, id).value)
  }

  /** Some entry's coordinate matches. */
  predicate AnyMatch(sp: seq<(string, TileCoord)>, matches: TileCoord -> bool)
  {
    exists i :: 0 <= i < |sp| && matches(sp[i].1)
  }

  /** The index of the first matching entry whose cell is off the map, `|sp|` when there is none. */
  function FirstStuck(g: seq<seq<Tile>>, sp: seq<(string, TileCoord)>, matches: TileCoord -> bool): (k: nat)
    ensures k <= |sp|
    ensures forall i :: 0 <= i < k ==> !matches(sp[i].1) || OnMap(g, sp[i].1)
    ensures k < |sp| ==> matches(sp[k].1) && !OnMap(g, sp[k].1)
  {
    if |sp| == 0 then 0
    else if matches(sp[0].1) && !OnMap(g, sp[0].1) then 0
    else 1 + FirstStuck(g, sp[1..], matches)
  }

  /**
   * What the loop of `removeSpawnpointByCoord` leaves: the matching entries
   * before the first one off the map are gone; that one and those after it
   * stay.
   */
  function KeepUntilStuck(g: seq<seq<Tile>>, sp: seq<(string, TileCoord)>, matches: TileCoord -> bool): seq<(string, TileCoord)>
  {
    Keep(sp[..FirstStuck(g, sp, matches)], matches) + sp[FirstStuck(g, sp, matches)..]
  }

  /**
   * The loop of `removeSpawnpointByCoord` has gone through the first `i`
   * entries, none of them stuck: those that matched are gone from `sp`.
   */
  predicate RemovedUpTo(g: seq<seq<Tile>>, entries: seq<(string, TileCoord)>, i: int, matches: TileCoord -> bool, sp: seq<(string, TileCoord)>)
  {
    0 <= i <= FirstStuck(g, entries, matches) && UniqueKeys(entries) &&
    sp == Keep(entries[..i], matches) + entries[i..]
  }

  /** `KeepUntilStuck` cut at the first stuck entry. */
  lemma KeepUntilStuckAt(g: seq<seq<Tile>>, sp: seq<(string, TileCoord)>, matches: TileCoord -> bool, i: int)
    requires i == FirstStuck(g, sp, matches) || (i == |sp| && i <= FirstStuck(g, sp, matches))
    ensures i == FirstStuck(g, sp, matches)
    ensures KeepUntilStuck(g, sp, matches) == Keep(sp[..i], matches) + sp[i..]
  {
  }

  /**
   * When every matching coordinate names the cell (`row`, `col`), removal
   * never throws if that cell is on the map, and removes every match; if
   * it is off the map, the first match throws, nothing is removed, and it
   * throws exactly when something matches.
   */
  lemma StuckOnlyOffCell(g: seq<seq<Tile>>, sp: seq<(string, TileCoord)>, matches: TileCoord -> bool, row: int, col: int)
    requires forall c :: matches(c) ==> c.rowNum == row && c.colNum == col
    ensures InGrid(g, row, col) ==> FirstStuck(g, sp, matches) == |sp| && KeepUntilStuck(g, sp, matches) == Keep(sp, matches)
    ensures !InGrid(g, row, col) ==> KeepUntilStuck(g, sp, matches) == sp
    ensures !InGrid(g, row, col) ==> (FirstStuck(g, sp, matches) < |sp| <==> AnyMatch(sp, matches))
    ensures !AnyMatch(sp, matches) ==> Keep(sp, matches) == sp
  {
    if !AnyMatch(sp, matches) {
      KeepAll(sp, matches);
    }
    if InGrid(g, row, col) {
      StuckNowhereOnMap(g, sp, matches, row, col);
    } else {
      KeptWholeOffMap(g, sp, matches, row, col);
    }
  }

  lemma StuckNowhereOnMap(g: seq<seq<Tile>>, sp: seq<(string, TileCoord)>, matches: TileCoord -> bool, row: int, col: int)
    requires forall c :: matches(c) ==> c.rowNum == row && c.colNum == col
    requires InGrid(g, row, col)
    ensures FirstStuck(g, sp, matches) == |sp| && KeepUntilStuck(g, sp, matches) == Keep(sp, matches)
  {
    assert sp[..FirstStuck(g, sp, matches)] == sp;
  }

  lemma KeptWholeOffMap(g: seq<seq<Tile>>, sp: seq<(string, TileCoord)>, matches: TileCoord -> bool, row: int, col: int)
    requires forall c :: matches(c) ==> c.rowNum == row && c.colNum == col
    requires !InGrid(g, row, col)
    ensures KeepUntilStuck(g, sp, matches) == sp
  {
    var k := FirstStuck(g, sp, matches);
    assert forall i :: 0 <= i < k ==> !matches(sp[i].1);
    assert forall e :: e in sp[..k] ==> !matches(e.1);
    KeepAll(sp[..k], matches);
    assert sp[..k] + sp[k..] == sp;
  }

  /**
   * What `setSpawnpoint(id, tc)` leaves on map `g`, and whether it throws:
   * an ID stored off the map throws in `removeSpawnpoint` and nothing
   * changes; otherwise its entry goes, then the matching entries go; on
   * the map, `id` is then stored at `tc`. Off the map, a matching entry
   * throws on removal, before `id` is stored; with none, `id` is stored
   * and adding the highlight throws.
   */
  predicate SetOutcome(g: seq<seq<Tile>>, sp: seq<(string, TileCoord)>, id: string, tc: TileCoord,
                       matches: TileCoord -> bool, r: Result<()>, after: seq<(string, TileCoord)>)
  {
    var w := Without(sp, id);
    if StoredOffMap(g, sp, id) then r == Err(TypeError) && after == sp
    else if OnMap(g, tc) then r == Ok(()) && after == SpawnSet(sp, id, tc, matches)
    else r == Err(TypeError) && after == w + (if AnyMatch(w, matches) then [] else [(id, tc)])
  }

  lemma SetOutcomeUnsetFails(g: seq<seq<Tile>>, sp: seq<(string, TileCoord)>, id: string, tc: TileCoord, matches: TileCoord -> bool)
    requires StoredOffMap(g, sp, id)
    ensures SetOutcome(g, sp, id, tc, matches, Err(TypeError), sp)
  {
  }

  lemma SetOutcomeRemoveFails(g: seq<seq<Tile>>, sp: seq<(string, TileCoord)>, id: string, tc: TileCoord, matches: TileCoord -> bool)
    requires !StoredOffMap(g, sp, id) && !OnMap(g, tc) && AnyMatch(Without(sp, id), matches)
    ensures SetOutcome(g, sp, id, tc, matches, Err(TypeError), Without(sp, id))
  {
    assert Without(sp, id) + [] == Without(sp, id);
  }

  lemma SetOutcomeStored(g: seq<seq<Tile>>, sp: seq<(string, TileCoord)>, id: string, tc: TileCoord, matches: TileCoord -> bool, r: Result<()>)
    requires !StoredOffMap(g, sp, id) && (OnMap(g, tc) || !AnyMatch(Without(sp, id), matches))
    requires r == if OnMap(g, tc) then Ok(()) else Err(TypeError)
    ensures SetOutcome(g, sp, id, tc, matches, r, SpawnSet(sp, id, tc, matches))
  {
    if !OnMap(g, tc) {
      KeepAll(Without(sp, id), matches);
    }
  }

  // ----- the world -----

  /** `World`: the grid of tiles and the spawn points. */
  class World {
    var tiles: seq<seq<Tile>>
    /** `spawnpoints`, a `Map` from spawn-point ID to coordinate, in insertion order. */
    var spawnpoints: seq<(string, TileCoord)>

    ghost predicate Valid()
      reads this
    {
      UniqueKeys(spawnpoints)
    }

    /**
     * `new World(width, height)`: `height` rows, each filled by `width`
     * calls of `addTile`, and no spawn points.
     */
    constructor (width: int, height: int)
      ensures Valid() && tiles == NewGrid(width, height) && spawnpoints == []
    {
      tiles := [];
      spawnpoints := [];
      new;
      var i := 0;
      while i < height
        invariant (i == 0 || 0 < i <= height) && spawnpoints == []
        invariant tiles == NewGrid(width, i)
      {
        AddRow();
        var j := 0;
        while j < width
          invariant 0 <= j && (j <= width || j == 0) && spawnpoints == []
          invariant tiles == NewGrid(width, i) + [Defaults(j)]
        {
          AddTile(i);
          assert Defaults(j + 1) == Defaults(j) + [DefaultTile()];
          j := j + 1;
        }
        assert j == (if width > 0 then width else 0);
        i := i + 1;
      }
    }

    /** `addRow`: an empty row at the bottom. */
    method AddRow()
      modifies this`tiles
      ensures tiles == old(tiles) + [[]]
    {
      tiles := tiles + [[]];
    }

    /**
     * `popRow`: the last row goes. With no rows, removing the last row of
     * the table (there is none) throws a TypeError and nothing changes.
     */
    method PopRow() returns (r: Result<()>)
      modifies this`tiles
      ensures old(tiles) == [] ==> r == Err(TypeError) && tiles == []
      ensures old(tiles) != [] ==> r == Ok(()) && tiles == ShrinkBottomGrid(old(tiles))
    {
      if |tiles| == 0 {
        return Err(TypeError);
      }
      tiles := tiles[..|tiles| - 1];
      return Ok(());
    }

    /** `addRowTop`: an empty row at the top. */
    method AddRowTop()
      modifies this`tiles
      ensures tiles == [[]] + old(tiles)
    {
      tiles := [[]] + tiles;
    }

    /**
     * `popRowTop` as written: `unshift()` with no argument adds nothing and
     * removes nothing, so only the table's first row goes; with no rows,
     * that removal throws.
     */
    method PopRowTopAsWritten() returns (r: Result<()>)
      ensures tiles == old(tiles)
      ensures r.Err? <==> tiles == []
    {
      if |tiles| == 0 {
        return Err(TypeError);
      }
      return Ok(());
    }

    /** `popRowTop` as intended (`shift`): the first row goes. */
    method PopRowTop() returns (r: Result<()>)
      modifies this`tiles
      ensures old(tiles) == [] ==> r == Err(TypeError) && tiles == []
      ensures old(tiles) != [] ==> r == Ok(()) && tiles == ShrinkTopGrid(old(tiles))
    {
      if |tiles| == 0 {
        return Err(TypeError);
      }
      tiles := tiles[1..];
      return Ok(());
    }

    /** `addTile(rowNum)`: a default tile at the end of that row. */
    method AddTile(rowNum: int)
      requires 0 <= rowNum < |tiles|
      modifies this`tiles
      ensures tiles == old(tiles)[rowNum := old(tiles)[rowNum] + [DefaultTile()]]
    {
      tiles := tiles[rowNum := tiles[rowNum] + [DefaultTile()]];
    }

    /**
     * `popTile(rowNum)` as written: the row's last tile goes, and then the
     * table cell is removed from the spawn-point row although it belongs to
     * the map row, which throws: a NotFoundError while the map row still has
     * a cell, a TypeError once it has none.
     */
    method PopTileAsWritten(rowNum: int) returns (r: Result<()>)
      requires 0 <= rowNum < |tiles|
      modifies this`tiles
      ensures tiles == old(tiles)[rowNum := Curtail(old(tiles)[rowNum])]
      ensures r.Err? && r.error == (if |old(tiles)[rowNum]| >= 2 then Thrown("NotFoundError") else TypeError)
    {
      var n := |tiles[rowNum]|;
      tiles := tiles[rowNum := Curtail(tiles[rowNum])];
      r := Err(if n >= 2 then Thrown("NotFoundError") else TypeError);
    }

    /**
     * `popTile(rowNum)` as intended: the row's last tile goes. A row with no
     * tile has no table cell, and removing its missing `lastChild` throws a
     * TypeError; the row stays empty.
     */
    method PopTile(rowNum: int) returns (r: Result<()>)
      requires 0 <= rowNum < |tiles|
      modifies this`tiles
      ensures tiles == old(tiles)[rowNum := Curtail(old(tiles)[rowNum])]
      ensures r.Err? <==> old(tiles)[rowNum] == []
      ensures r.Err? ==> r.error == TypeError
    {
      var n := |tiles[rowNum]|;
      tiles := tiles[rowNum := Curtail(tiles[rowNum])];
      r := if n == 0 then Err(TypeError) else Ok(());
    }

    /** `addTileLeft(rowNum)`: a default tile in front of that row. */
    method AddTileLeft(rowNum: int)
      requires 0 <= rowNum < |tiles|
      modifies this`tiles
      ensures tiles == old(tiles)[rowNum := [DefaultTile()] + old(tiles)[rowNum]]
    {
      tiles := tiles[rowNum := [DefaultTile()] + tiles[rowNum]];
    }

    /** `popTileLeft(rowNum)` as written: the row's first tile goes, then the removal from the wrong row throws. */
    method PopTileLeftAsWritten(rowNum: int) returns (r: Result<()>)
      requires 0 <= rowNum < |tiles|
      modifies this`tiles
      ensures tiles == old(tiles)[rowNum := Behead(old(tiles)[rowNum])]
      ensures r.Err? && r.error == (if |old(tiles)[rowNum]| >= 2 then Thrown("NotFoundError") else TypeError)
    {
      var n := |tiles[rowNum]|;
      tiles := tiles[rowNum := Behead(tiles[rowNum])];
      r := Err(if n >= 2 then Thrown("NotFoundError") else TypeError);
    }

    /** `popTileLeft(rowNum)` as intended: the row's first tile goes; on an empty row removing the missing `firstChild` throws. */
    method PopTileLeft(rowNum: int) returns (r: Result<()>)
      requires 0 <= rowNum < |tiles|
      modifies this`tiles
      ensures tiles == old(tiles)[rowNum := Behead(old(tiles)[rowNum])]
      ensures r.Err? <==> old(tiles)[rowNum] == []
      ensures r.Err? ==> r.error == TypeError
    {
      var n := |tiles[rowNum]|;
      tiles := tiles[rowNum := Behead(tiles[rowNum])];
      r := if n == 0 then Err(TypeError) else Ok(());
    }

    /** `getTile(rowNum, colNum)`. */
    function GetTile(rowNum: int, colNum: int): (t: Tile)
      requires InGrid(tiles, rowNum, colNum)
      reads this
      ensures t in tiles[rowNum]
    {
      tiles[rowNum][colNum]
    }

    /**
     * `setTile(rowNum, colNum, tile)`: the cell holds the tile, and no other
     * cell changes. The table cell is looked up first; the table has the
     * grid's shape, so off the grid it is undefined, setting its colour
     * throws a TypeError and the tile is not stored.
     */
    method SetTile(rowNum: int, colNum: int, tile: Tile) returns (r: Result<()>)
      modifies this`tiles
      ensures tiles == SetCell(old(tiles), rowNum, colNum, tile)
      ensures r.Err? <==> !InGrid(old(tiles), rowNum, colNum)
      ensures r.Err? ==> r.error == TypeError
    {
      if !InGrid(tiles, rowNum, colNum) {
        return Err(TypeError);
      }
      tiles := tiles[rowNum := tiles[rowNum][colNum := tile]];
      return Ok(());
    }

    /**
     * `removeSpawnpoint(spawnId)`: the ID's coordinate is looked up, the
     * highlight of its cell in the spawn-point table is removed, and then
     * the entry is deleted. An unknown ID has no coordinate, and a cell off
     * the map has no table cell (the table has the map's shape), so either
     * throws a TypeError before the delete and nothing changes.
     */
    method RemoveSpawnpoint(spawnId: string) returns (r: Result<()>)
      requires Valid()
      modifies this`spawnpoints
      ensures Valid()
      ensures Find(old(spawnpoints), spawnId).None? ==> r == Err(TypeError) && spawnpoints == old(spawnpoints)
      ensures StoredOffMap(tiles, old(spawnpoints), spawnId) ==> r == Err(TypeError) && spawnpoints == old(spawnpoints)
      ensures Find(old(spawnpoints), spawnId).Some? && !StoredOffMap(tiles, old(spawnpoints), spawnId) ==>
        r == Ok(()) && spawnpoints == Without(old(spawnpoints), spawnId)
    {
      var found := Find(spawnpoints, spawnId);
      if found.None? || !OnMap(tiles, found.value) {
        return Err(TypeError);
      }
      WithoutUnique(spawnpoints, spawnId);
      spawnpoints := Without(spawnpoints, spawnId);
      return Ok(());
    }

    /**
     * The loop of `removeSpawnpointByCoord`: every entry whose coordinate
     * matches is deleted as the iteration reaches it, until a matching entry
     * whose cell is off the map, whose removal throws and ends the loop.
     */
    method RemoveWhere(matches: TileCoord -> bool) returns (r: Result<()>)
      requires Valid()
      modifies this`spawnpoints
      ensures Valid() && spawnpoints == KeepUntilStuck(tiles, old(spawnpoints), matches)
      ensures r.Err? <==> FirstStuck(tiles, old(spawnpoints), matches) < |old(spawnpoints)|
      ensures r.Err? ==> r.error == TypeError
    {
      r := Ok(());
      var entries := spawnpoints;
      assert entries[..0] == [] && entries[0..] == entries;
      var i := 0;
      while i < |entries|
        invariant Valid() && r.Ok? && RemovedUpTo(tiles, entries, i, matches, spawnpoints)
      {
        r := RemoveNext(entries, i, matches);
        if r.Err? {
          KeepUntilStuckAt(tiles, entries, matches, i);
          return;
        }
        i := i + 1;
      }
      KeepUntilStuckAt(tiles, entries, matches, i);
    }

    /** One round of the loop of `removeSpawnpointByCoord`: entry `i` is deleted if it matches, or the deletion throws. */
    method RemoveNext(entries: seq<(string, TileCoord)>, i: int, matches: TileCoord -> bool) returns (r: Result<()>)
      requires Valid() && RemovedUpTo(tiles, entries, i, matches, spawnpoints) && i < |entries|
      modifies this`spawnpoints
      ensures Valid()
      ensures r.Ok? ==> RemovedUpTo(tiles, entries, i + 1, matches, spawnpoints)
      ensures r.Err? ==> r.error == TypeError && i == FirstStuck(tiles, entries, matches) && spawnpoints == old(spawnpoints)
    {
      KeepStep(entries, i, matches);
      StuckStep(tiles, entries, matches, i);
      if matches(entries[i].1) {
        DeleteCurrent(entries, i, matches);
        r := RemoveSpawnpoint(entries[i].0);
      } else {
        SkipCurrent(Keep(entries[..i], matches), entries, i);
        r := Ok(());
      }
    }

    /** `removeSpawnpointByCoord(tc)` as written: entries whose coordinate is the same object as `tc` go. */
    method RemoveSpawnpointByCoordAsWritten(tc: TileCoord) returns (r: Result<()>)
      requires Valid()
      modifies this`spawnpoints
      ensures Valid() && spawnpoints == KeepUntilStuck(tiles, old(spawnpoints), SameObject(tc))
      ensures r.Err? <==> FirstStuck(tiles, old(spawnpoints), SameObject(tc)) < |old(spawnpoints)|
      ensures r.Err? ==> r.error == TypeError
    {
      r := RemoveWhere(SameObject(tc));
    }

    /** `removeSpawnpointByCoord` as intended: every spawn point on the cell goes. */
    method RemoveSpawnpointAt(rowNum: int, colNum: int) returns (r: Result<()>)
      requires Valid()
      modifies this`spawnpoints
      ensures Valid() && spawnpoints == KeepUntilStuck(tiles, old(spawnpoints), SameCell(rowNum, colNum))
      ensures r.Err? <==> FirstStuck(tiles, old(spawnpoints), SameCell(rowNum, colNum)) < |old(spawnpoints)|
      ensures r.Err? ==> r.error == TypeError
    {
      r := RemoveWhere(SameCell(rowNum, colNum));
    }

    /**
     * `setSpawnpoint(spawnId, tc)` as written: the old entry for the ID and
     * entries holding this very object go, the pair is stored, and the
     * cell's highlight is added; `SetOutcome` says where each step throws.
     */
    method SetSpawnpointAsWritten(spawnId: string, tc: TileCoord) returns (r: Result<()>)
      requires Valid()
      modifies this`spawnpoints
      ensures Valid() && SetOutcome(tiles, old(spawnpoints), spawnId, tc, SameObject(tc), r, spawnpoints)
    {
      ghost var sp := spawnpoints;
      r := Unset(spawnId);
      if r.Err? {
        SetOutcomeUnsetFails(tiles, sp, spawnId, tc, SameObject(tc));
        return;
      }
      ghost var w := spawnpoints;
      StuckOnlyOffCell(tiles, w, SameObject(tc), tc.rowNum, tc.colNum);
      r := RemoveSpawnpointByCoordAsWritten(tc);
      if r.Err? {
        SetOutcomeRemoveFails(tiles, sp, spawnId, tc, SameObject(tc));
        return;
      }
      spawnpoints := spawnpoints + [(spawnId, tc)];
      SpawnSetFinds(sp, spawnId, tc, SameObject(tc), spawnId);
      r := if OnMap(tiles, tc) then Ok(()) else Err(TypeError);
      SetOutcomeStored(tiles, sp, spawnId, tc, SameObject(tc), r);
    }

    /**
     * `setSpawnpoint(spawnId, tc)` as intended: the old entry for the ID and
     * any spawn point on the cell go, the pair is stored, and the cell's
     * highlight is added; `SetOutcome` says where each step throws.
     */
    method SetSpawnpoint(spawnId: string, tc: TileCoord) returns (r: Result<()>)
      requires Valid()
      modifies this`spawnpoints
      ensures Valid() && SetOutcome(tiles, old(spawnpoints), spawnId, tc, SameCell(tc.rowNum, tc.colNum), r, spawnpoints)
    {
      ghost var sp := spawnpoints;
      r := Unset(spawnId);
      if r.Err? {
        SetOutcomeUnsetFails(tiles, sp, spawnId, tc, SameCell(tc.rowNum, tc.colNum));
        return;
      }
      ghost var w := spawnpoints;
      StuckOnlyOffCell(tiles, w, SameCell(tc.rowNum, tc.colNum), tc.rowNum, tc.colNum);
      r := RemoveSpawnpointAt(tc.rowNum, tc.colNum);
      if r.Err? {
        SetOutcomeRemoveFails(tiles, sp, spawnId, tc, SameCell(tc.rowNum, tc.colNum));
        return;
      }
      spawnpoints := spawnpoints + [(spawnId, tc)];
      SpawnSetFinds(sp, spawnId, tc, SameCell(tc.rowNum, tc.colNum), spawnId);
      r := if OnMap(tiles, tc) then Ok(()) else Err(TypeError);
      SetOutcomeStored(tiles, sp, spawnId, tc, SameCell(tc.rowNum, tc.colNum), r);
    }

    /** `if (this.spawnpoints.has(spawnId)) this.removeSpawnpoint(spawnId)`. */
    method Unset(spawnId: string) returns (r: Result<()>)
      requires Valid()
      modifies this`spawnpoints
      ensures Valid()
      ensures StoredOffMap(tiles, old(spawnpoints), spawnId) ==> r == Err(TypeError) && spawnpoints == old(spawnpoints)
      ensures !StoredOffMap(tiles, old(spawnpoints), spawnId) ==> r == Ok(()) && spawnpoints == Without(old(spawnpoints), spawnId)
    {
      if Find(spawnpoints, spawnId).Some? {
        r := RemoveSpawnpoint(spawnId);
      } else {
        NoKeyNoChange(spawnpoints, spawnId);
        r := Ok(());
      }
    }
  }

  /** Removing entries keeps the keys unique. */
  lemma KeepUnique(sp: seq<(string, TileCoord)>, matches: TileCoord -> bool)
    requires UniqueKeys(sp)
    ensures UniqueKeys(Keep(sp, matches))
  {
    assert Distinct(sp);
    KeepDistinct(sp, matches);
    UniqueKeysSub(sp, Keep(sp, matches));
  }

  lemma WithoutUnique(sp: seq<(string, TileCoord)>, id: string)
    requires UniqueKeys(sp)
    ensures UniqueKeys(Without(sp, id))
  {
    assert Distinct(sp);
    WithoutDistinct(sp, id);
    UniqueKeysSub(sp, Without(sp, id));
  }

  /**
   * Deleting the key of entry `i`, when the entries before it have been
   * filtered and the rest not yet, leaves the filtered prefix with entry
   * `i` gone.
   */
  lemma DeleteCurrent(entries: seq<(string, TileCoord)>, i: int, matches: TileCoord -> bool)
    requires UniqueKeys(entries) && 0 <= i < |entries| && matches(entries[i].1)
    ensures var sp := Keep(entries[..i], matches) + entries[i..];
      Find(sp, entries[i].0) == Some(entries[i].1) &&
      Without(sp, entries[i].0) == Keep(entries[..i], matches) + entries[i + 1..]
  {
    DeleteCurrentFinds(entries, i, matches);
    var a := Keep(entries[..i], matches);
    var x := entries[i];
    var c := entries[i + 1..];
    KeptKeysBefore(entries, i, matches);
    forall k | 0 <= k < |c| ensures c[k].0 != x.0 {
      assert c[k] == entries[i + 1 + k];
    }
    WithoutAfter(a, x, c, x.0);
    Regroup(a, entries, i);
  }

  /** While the prefix is filtered, entry `i` is still found under its key. */
  lemma DeleteCurrentFinds(entries: seq<(string, TileCoord)>, i: int, matches: TileCoord -> bool)
    requires UniqueKeys(entries) && 0 <= i < |entries|
    ensures Find(Keep(entries[..i], matches) + entries[i..], entries[i].0) == Some(entries[i].1)
  {
    var a := Keep(entries[..i], matches);
    var sp := a + entries[i..];
    KeepUnique(entries[..i], matches);
    KeptKeysBefore(entries, i, matches);
    assert UniqueKeys(sp) by {
      forall x, y | 0 <= x < y < |sp| ensures sp[x].0 != sp[y].0 {
        if y < |a| {
        } else if x < |a| {
          assert sp[y] == entries[i + (y - |a|)];
          if y - |a| > 0 {
            assert a[x] in entries[..i];
            var m :| 0 <= m < i && entries[..i][m] == a[x];
            assert entries[m] == a[x];
          }
        } else {
          assert sp[x] == entries[i + (x - |a|)] && sp[y] == entries[i + (y - |a|)];
        }
      }
    }
    assert sp[|a|] == entries[i];
    FindByMembership(sp, entries[i].0, entries[i].1);
  }

  /** The loop of `removeSpawnpointByCoord` stops at entry `i` exactly when it is the first stuck one. */
  lemma StuckStep(g: seq<seq<Tile>>, entries: seq<(string, TileCoord)>, matches: TileCoord -> bool, i: int)
    requires 0 <= i <= FirstStuck(g, entries, matches) && i < |entries|
    ensures matches(entries[i].1) && !OnMap(g, entries[i].1) ==> i == FirstStuck(g, entries, matches)
    ensures !(matches(entries[i].1) && !OnMap(g, entries[i].1)) ==> i + 1 <= FirstStuck(g, entries, matches)
  {
  }

  /** Cutting `s` at `i` after a prefix `a`: entry `i` sits at position `|a|`. */
  lemma Regroup<T>(a: seq<T>, s: seq<T>, i: int)
    requires 0 <= i < |s|
    ensures a + s[i..] == a + [s[i]] + s[i + 1..]
    ensures (a + s[i..])[|a|] == s[i]
  {
    assert s[i..] == [s[i]] + s[i + 1..];
  }

  /** The entries kept from before entry `i` have other keys than entry `i`. */
  lemma KeptKeysBefore(entries: seq<(string, TileCoord)>, i: int, matches: TileCoord -> bool)
    requires UniqueKeys(entries) && 0 <= i < |entries|
    ensures forall k :: 0 <= k < |Keep(entries[..i], matches)| ==> Keep(entries[..i], matches)[k].0 != entries[i].0
  {
    var a := Keep(entries[..i], matches);
    forall k | 0 <= k < |a| ensures a[k].0 != entries[i].0 {
      assert a[k] in entries[..i];
      var m :| 0 <= m < i && entries[..i][m] == a[k];
      assert entries[m] == a[k];
    }
  }

  /** Filtering one more entry: it goes when it matches and stays otherwise. */
  lemma KeepStep(entries: seq<(string, TileCoord)>, i: int, matches: TileCoord -> bool)
    requires 0 <= i < |entries|
    ensures matches(entries[i].1) ==> Keep(entries[..i + 1], matches) == Keep(entries[..i], matches)
    ensures !matches(entries[i].1) ==> Keep(entries[..i + 1], matches) == Keep(entries[..i], matches) + [entries[i]]
  {
    assert entries[..i + 1][..i] == entries[..i];
  }

  /** Moving past an entry that stays. */
  lemma SkipCurrent(kept: seq<(string, TileCoord)>, entries: seq<(string, TileCoord)>, i: int)
    requires 0 <= i < |entries|
    ensures kept + entries[i..] == (kept + [entries[i]]) + entries[i + 1..]
  {
    assert entries[i..] == [entries[i]] + entries[i + 1..];
  }

  /** Deleting the one entry with key `id`, which sits between `a` and `c`. */
  lemma {:induction false} WithoutAfter(a: seq<(string, TileCoord)>, x: (string, TileCoord), c: seq<(string, TileCoord)>, id: string)
    requires x.0 == id
    requires forall k :: 0 <= k < |a| ==> a[k].0 != id
    requires forall k :: 0 <= k < |c| ==> c[k].0 != id
    ensures Without(a + [x] + c, id) == a + c
    decreases |c|
  {
    if |c| == 0 {
      WithoutLast(a + [x], id);
      assert (a + [x])[..|a|] == a;
      NoKeyNoChange(a, id);
      assert a + [x] + c == a + [x];
    } else {
      var c' := c[..|c| - 1];
      var s := a + [x] + c;
      WithoutLast(s, id);
      assert s[..|s| - 1] == a + [x] + c';
      WithoutAfter(a, x, c', id);
      SplitLast(a, c);
    }
  }

  /** A sequence ending in `c` is its front and `c`'s last element. */
  lemma SplitLast<T>(a: seq<T>, c: seq<T>)
    requires |c| > 0
    ensures a + c == (a + c[..|c| - 1]) + [c[|c| - 1]]
  {
    assert c == c[..|c| - 1] + [c[|c| - 1]];
  }

  /** `Without` looks at the last entry, then at the others. */
  lemma WithoutLast(s: seq<(string, TileCoord)>, id: string)
    requires |s| > 0
    ensures s[|s| - 1].0 == id ==> Without(s, id) == Without(s[..|s| - 1], id)
    ensures s[|s| - 1].0 != id ==> Without(s, id) == Without(s[..|s| - 1], id) + [s[|s| - 1]]
  {
  }

  lemma {:induction false} NoKeyNoChange(sp: seq<(string, TileCoord)>, id: string)
    requires Find(sp, id).None?
    ensures Without(sp, id) == sp
  {
    if |sp| > 0 {
      var init := sp[..|sp| - 1];
      NoKeyNoChange(init, id);
      assert sp[|sp| - 1].0 != id;
      assert sp == init + [sp[|sp| - 1]];
    }
  }

  // ----- growing and shrinking the map -----

  lemma PrependStep(rows: seq<seq<Tile>>, i: int)
    requires 0 <= i < |rows|
    ensures PrependEach(rows[..i + 1]) + rows[i + 1..] == (PrependEach(rows[..i]) + rows[i..])[i := [DefaultTile()] + rows[i]]
  {
  }

  lemma AppendStep(rows: seq<seq<Tile>>, i: int)
    requires 0 <= i < |rows|
    ensures AppendEach(rows[..i + 1]) + rows[i + 1..] == (AppendEach(rows[..i]) + rows[i..])[i := rows[i] + [DefaultTile()]]
  {
  }

  lemma BeheadStep(rows: seq<seq<Tile>>, i: int)
    requires 0 <= i < |rows|
    ensures BeheadEach(rows[..i + 1]) + rows[i + 1..] == (BeheadEach(rows[..i]) + rows[i..])[i := Behead(rows[i])]
  {
  }

  lemma CurtailStep(rows: seq<seq<Tile>>, i: int)
    requires 0 <= i < |rows|
    ensures CurtailEach(rows[..i + 1]) + rows[i + 1..] == (CurtailEach(rows[..i]) + rows[i..])[i := Curtail(rows[i])]
  {
  }

  /** A row with a tile at or before the first empty row lies before it. */
  lemma PastFirstEmpty(rows: seq<seq<Tile>>, i: int)
    requires 0 <= i <= FirstEmpty(rows) && i < |rows| && rows[i] != []
    ensures i + 1 <= FirstEmpty(rows)
  {
  }

  /** The sideways loop stopped at an empty row `i`: that is the first one, and the shrink throws. */
  lemma ShrinkLeftStops(rows: seq<seq<Tile>>, i: int)
    requires Width(rows) > 0 && 0 <= i <= FirstEmpty(rows) && i < |rows| && rows[i] == []
    ensures ShrinkLeftGrid(rows) == BeheadEach(rows[..i]) + rows[i..] && SidewaysShrinkThrows(rows)
  {
  }

  lemma ShrinkRightStops(rows: seq<seq<Tile>>, i: int)
    requires Width(rows) > 0 && 0 <= i <= FirstEmpty(rows) && i < |rows| && rows[i] == []
    ensures ShrinkRightGrid(rows) == CurtailEach(rows[..i]) + rows[i..] && SidewaysShrinkThrows(rows)
  {
  }

  /** The sideways loop went through every row: none was empty, and the shrink does not throw. */
  lemma ShrinkLeftEnds(rows: seq<seq<Tile>>, i: int)
    requires Width(rows) > 0 && i == |rows| && i <= FirstEmpty(rows)
    ensures ShrinkLeftGrid(rows) == BeheadEach(rows[..i]) + rows[i..] && !SidewaysShrinkThrows(rows)
  {
    assert rows[..i] == rows[..FirstEmpty(rows)];
  }

  lemma ShrinkRightEnds(rows: seq<seq<Tile>>, i: int)
    requires Width(rows) > 0 && i == |rows| && i <= FirstEmpty(rows)
    ensures ShrinkRightGrid(rows) == CurtailEach(rows[..i]) + rows[i..] && !SidewaysShrinkThrows(rows)
  {
    assert rows[..i] == rows[..FirstEmpty(rows)];
  }

  /** `expandLeft`: a row first if there is none, then a default tile in front of every row. */
  method ExpandLeft(world: World)
    modifies world`tiles
    ensures world.tiles == ExpandLeftGrid(old(world.tiles))
  {
    if |world.tiles| == 0 {
      world.AddRow();
    }
    var rows := world.tiles;
    assert rows == AtLeastOneRow(old(world.tiles));
    var i := 0;
    while i < |world.tiles|
      invariant |world.tiles| == |rows| && 0 <= i <= |rows|
      invariant world.tiles == PrependEach(rows[..i]) + rows[i..]
    {
      world.AddTileLeft(i);
      PrependStep(rows, i);
      i := i + 1;
    }
    assert rows[..i] == rows;
  }

  /** `expandRight`: a row first if there is none, then a default tile at the end of every row. */
  method ExpandRight(world: World)
    modifies world`tiles
    ensures world.tiles == ExpandRightGrid(old(world.tiles))
  {
    if |world.tiles| == 0 {
      world.AddRow();
    }
    var rows := world.tiles;
    assert rows == AtLeastOneRow(old(world.tiles));
    var i := 0;
    while i < |world.tiles|
      invariant |world.tiles| == |rows| && 0 <= i <= |rows|
      invariant world.tiles == AppendEach(rows[..i]) + rows[i..]
    {
      world.AddTile(i);
      AppendStep(rows, i);
      i := i + 1;
    }
    assert rows[..i] == rows;
  }

  /**
   * `shrinkLeft` as intended: when the map has width, the rows lose their
   * first tile in order; the first row without a tile throws a TypeError,
   * which ends the handler there.
   */
  method ShrinkLeft(world: World) returns (r: Result<()>)
    modifies world`tiles
    ensures world.tiles == ShrinkLeftGrid(old(world.tiles))
    ensures r.Err? <==> SidewaysShrinkThrows(old(world.tiles))
    ensures r.Err? ==> r.error == TypeError
  {
    r := Ok(());
    if Width(world.tiles) > 0 {
      var rows := world.tiles;
      assert rows[..0] == [] && rows[0..] == rows;
      var i := 0;
      while i < |world.tiles|
        invariant r.Ok? && BeheadEachUpTo(rows, i, world.tiles)
      {
        r := ShrinkLeftRow(world, rows, i);
        if r.Err? {
          ShrinkLeftStops(rows, i);
          return;
        }
        i := i + 1;
      }
      ShrinkLeftEnds(rows, i);
    }
  }

  /** The first `i` rows of `rows` have lost their first tile, and none of them was empty. */
  predicate BeheadEachUpTo(rows: seq<seq<Tile>>, i: int, tiles: seq<seq<Tile>>)
  {
    |tiles| == |rows| && 0 <= i <= FirstEmpty(rows) && tiles == BeheadEach(rows[..i]) + rows[i..]
  }

  /** One round of the loop of `shrinkLeft`: row `i` loses its first tile, or it is empty and the call throws. */
  method ShrinkLeftRow(world: World, rows: seq<seq<Tile>>, i: int) returns (r: Result<()>)
    requires BeheadEachUpTo(rows, i, world.tiles) && i < |rows|
    modifies world`tiles
    ensures r.Ok? ==> BeheadEachUpTo(rows, i + 1, world.tiles)
    ensures r.Err? ==> r.error == TypeError && rows[i] == [] && world.tiles == old(world.tiles)
  {
    assert world.tiles[i] == rows[i];
    r := world.PopTileLeft(i);
    BeheadStep(rows, i);
    if r.Ok? {
      PastFirstEmpty(rows, i);
    }
  }

  /** `shrinkRight` as intended: the rows lose their last tile in order, up to the first row without one, which throws. */
  method ShrinkRight(world: World) returns (r: Result<()>)
    modifies world`tiles
    ensures world.tiles == ShrinkRightGrid(old(world.tiles))
    ensures r.Err? <==> SidewaysShrinkThrows(old(world.tiles))
    ensures r.Err? ==> r.error == TypeError
  {
    r := Ok(());
    if Width(world.tiles) > 0 {
      var rows := world.tiles;
      assert rows[..0] == [] && rows[0..] == rows;
      var i := 0;
      while i < |world.tiles|
        invariant r.Ok? && CurtailEachUpTo(rows, i, world.tiles)
      {
        r := ShrinkRightRow(world, rows, i);
        if r.Err? {
          ShrinkRightStops(rows, i);
          return;
        }
        i := i + 1;
      }
      ShrinkRightEnds(rows, i);
    }
  }

  /** The first `i` rows of `rows` have lost their last tile, and none of them was empty. */
  predicate CurtailEachUpTo(rows: seq<seq<Tile>>, i: int, tiles: seq<seq<Tile>>)
  {
    |tiles| == |rows| && 0 <= i <= FirstEmpty(rows) && tiles == CurtailEach(rows[..i]) + rows[i..]
  }

  /** One round of the loop of `shrinkRight`: row `i` loses its last tile, or it is empty and the call throws. */
  method ShrinkRightRow(world: World, rows: seq<seq<Tile>>, i: int) returns (r: Result<()>)
    requires CurtailEachUpTo(rows, i, world.tiles) && i < |rows|
    modifies world`tiles
    ensures r.Ok? ==> CurtailEachUpTo(rows, i + 1, world.tiles)
    ensures r.Err? ==> r.error == TypeError && rows[i] == [] && world.tiles == old(world.tiles)
  {
    assert world.tiles[i] == rows[i];
    r := world.PopTile(i);
    CurtailStep(rows, i);
    if r.Ok? {
      PastFirstEmpty(rows, i);
    }
  }

  /**
   * `shrinkLeft` as written: the loop's first `popTileLeft` throws after
   * shifting row 0, which ends the handler there.
   */
  method ShrinkLeftAsWritten(world: World) returns (r: Result<()>)
    modifies world`tiles
    ensures world.tiles == EditorGrid.ShrinkLeftAsWritten(old(world.tiles))
    ensures r.Err? <==> Width(old(world.tiles)) > 0
  {
    r := Ok(());
    if Width(world.tiles) > 0 {
      var i := 0;
      while i < |world.tiles| && r.Ok?
        invariant (i == 0 && r.Ok? && world.tiles == old(world.tiles)) ||
                  (i == 1 && r.Err? && world.tiles == EditorGrid.ShrinkLeftAsWritten(old(world.tiles)))
        decreases |world.tiles| - i
      {
        r := world.PopTileLeftAsWritten(i);
        i := i + 1;
      }
    }
  }

  /** `shrinkRight` as written: only row 0 loses its last tile before `popTile` throws. */
  method ShrinkRightAsWritten(world: World) returns (r: Result<()>)
    modifies world`tiles
    ensures world.tiles == EditorGrid.ShrinkRightAsWritten(old(world.tiles))
    ensures r.Err? <==> Width(old(world.tiles)) > 0
  {
    r := Ok(());
    if Width(world.tiles) > 0 {
      var i := 0;
      while i < |world.tiles| && r.Ok?
        invariant (i == 0 && r.Ok? && world.tiles == old(world.tiles)) ||
                  (i == 1 && r.Err? && world.tiles == EditorGrid.ShrinkRightAsWritten(old(world.tiles)))
        decreases |world.tiles| - i
      {
        r := world.PopTileAsWritten(i);
        i := i + 1;
      }
    }
  }

  /** `expandTop`: a new first row of `max(1, width)` default tiles. */
  method ExpandTop(world: World)
    modifies world`tiles
    ensures world.tiles == ExpandTopGrid(old(world.tiles))
  {
    var w := if Width(world.tiles) > 1 then Width(world.tiles) else 1;
    world.AddRowTop();
    var i := 0;
    while i < w
      invariant 0 <= i <= w
      invariant world.tiles == [Defaults(i)] + old(world.tiles)
    {
      world.AddTile(0);
      i := i + 1;
    }
  }

  /** `expandBottom`: a new last row of `max(1, width)` default tiles. */
  method ExpandBottom(world: World)
    modifies world`tiles
    ensures world.tiles == ExpandBottomGrid(old(world.tiles))
  {
    var w := if Width(world.tiles) > 1 then Width(world.tiles) else 1;
    var h := |world.tiles|;
    world.AddRow();
    var i := 0;
    while i < w
      invariant 0 <= i <= w
      invariant world.tiles == old(world.tiles) + [Defaults(i)]
    {
      world.AddTile(h);
      i := i + 1;
    }
  }

  /** `shrinkTop` as written: a map with rows keeps every one of them. */
  method ShrinkTopAsWritten(world: World)
    ensures world.tiles == EditorGrid.ShrinkTopAsWritten(old(world.tiles))
  {
    if |world.tiles| > 0 {
      var _ := world.PopRowTopAsWritten();
    }
  }

  /** `shrinkTop` as intended: the first row goes, if there is one. */
  method ShrinkTop(world: World)
    modifies world`tiles
    ensures world.tiles == ShrinkTopGrid(old(world.tiles))
  {
    if |world.tiles| > 0 {
      var _ := world.PopRowTop();
    }
  }

  /** `shrinkBottom`: the last row goes, if there is one. */
  method ShrinkBottom(world: World)
    modifies world`tiles
    ensures world.tiles == ShrinkBottomGrid(old(world.tiles))
  {
    if |world.tiles| > 0 {
      var _ := world.PopRow();
    }
  }
}
