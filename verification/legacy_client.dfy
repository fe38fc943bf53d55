/**
 * The session of the older single-file client (js/index.js): the game
 * object, the handler of the five messages it understands (among them the
 * `updateentity` patch of one entity), and the per-frame `update` with its
 * three contexts and the L and M toggles.
 *
 * It reads the world, walks and lists the other players as the current
 * client does (the `Session` functions are reused for those parts).
 * `JSON.parse` and `parseFloat` are parameters, None standing for a
 * SyntaxError; the width of a text on the canvas is `measure`.
 */
module LegacyClient {
  import opened Wrappers
  import opened Json
  import opened Text
  import opened Grids
  import opened Cursors
  import opened ClientGeometry
  import opened TextBoxes
  import opened PlayerState
  import LegacyTiles
  import LegacyEntities
  import LegacyTextBoxes
  import Session

  /** `contextMenus`: MAP, LOG and MENU. */
  datatype Context = MapContext | LogContext | MenuContext

  /** The key codes this client reads besides shift and the arrows, which it shares with the current one. */
  const SPACE: int := 32
  const C_KEY: int := 67
  const L_KEY: int := 76
  const M_KEY: int := 77

  // ----- reading messages -----

  datatype MessageKind = WorldMsg | MovedToMsg | SignTextMsg | PlayersMsg | UpdateEntityMsg | UnknownMsg

  /**
   * The handler a message goes to. No two of the five prefixes can start
   * the same message, so the order of the tests does not matter.
   */
  function Classify(data: string): (k: MessageKind)
    ensures k == WorldMsg <==> StartsWith(data, "world|")
    ensures k == MovedToMsg <==> StartsWith(data, "movedto|")
    ensures k == SignTextMsg <==> StartsWith(data, "signtext|")
    ensures k == PlayersMsg <==> StartsWith(data, "players|")
    ensures k == UpdateEntityMsg <==> StartsWith(data, "updateentity|")
  {
    FirstChar(data, "world|");
    FirstChar(data, "movedto|");
    FirstChar(data, "signtext|");
    FirstChar(data, "players|");
    FirstChar(data, "updateentity|");
    if StartsWith(data, "world|") then WorldMsg
    else if StartsWith(data, "movedto|") then MovedToMsg
    else if StartsWith(data, "signtext|") then SignTextMsg
    else if StartsWith(data, "players|") then PlayersMsg
    else if StartsWith(data, "updateentity|") then UpdateEntityMsg
    else UnknownMsg
  }

  /** A message starting with a prefix starts with the prefix's first character. */
  lemma FirstChar(data: string, prefix: string)
    requires |prefix| > 0
    ensures StartsWith(data, prefix) ==> |data| > 0 && data[0] == prefix[0]
  {
    if StartsWith(data, prefix) {
      assert data[..|prefix|][0] == data[0];
    }
  }

  // ----- the world -----

  /** `tileFromJSON` of a cell at its position. */
  function TileAt(reg: seq<(string, LegacyTiles.TileClassEntry)>): ((Json, Vec)) -> Result<LegacyTiles.TileShape>
  {
    (p: (Json, Vec)) => LegacyTiles.ParseTile(reg, p.0, p.1)
  }

  /**
   * The tile shapes the nested loops of the world handler build: row by row,
   * cell by cell, each tile at `(BLOCK_WIDTH*i, BLOCK_WIDTH*j)`; the first
   * failure ends it.
   */
  function ParseGrid(reg: seq<(string, LegacyTiles.TileClassEntry)>, rows: seq<Json>): (r: Result<seq<seq<LegacyTiles.TileShape>>>)
    ensures r.Ok? ==> |r.value| == |rows|
    ensures r.Ok? ==> forall j :: 0 <= j < |rows| ==>
      Session.ArrayLike(Some(rows[j])).Ok? && |r.value[j]| == |Session.ArrayLike(Some(rows[j])).value| &&
      RowMap(TileAt(reg), Session.Placed(Session.ArrayLike(Some(rows[j])).value, j)) == Ok(r.value[j])
  {
    if |rows| == 0 then Ok([])
    else
      var init :- ParseGrid(reg, rows[..|rows| - 1]);
      var cells :- Session.ArrayLike(Some(rows[|rows| - 1]));
      var row :- RowMap(TileAt(reg), Session.Placed(cells, |rows| - 1));
      assert forall j :: 0 <= j < |rows| - 1 ==> rows[..|rows| - 1][j] == rows[j];
      Ok(init + [row])
  }

  /** Every tile of an accepted grid sits at its cell's position. */
  lemma GridPositions(reg: seq<(string, LegacyTiles.TileClassEntry)>, rows: seq<Json>, j: nat, i: nat)
    requires ParseGrid(reg, rows).Ok? && j < |rows| && i < |ParseGrid(reg, rows).value[j]|
    ensures LegacyTiles.ShapeAt(ParseGrid(reg, rows).value[j][i], Session.CellPos(i, j))
  {
    var cells := Session.ArrayLike(Some(rows[j])).value;
    var placed := Session.Placed(cells, j);
    assert TileAt(reg)(placed[i]) == LegacyTiles.ParseTile(reg, cells[i], Session.CellPos(i, j));
  }

  lemma {:induction false} ParseGridPrefixErr(reg: seq<(string, LegacyTiles.TileClassEntry)>, rows: seq<Json>, k: nat)
    requires k <= |rows| && ParseGrid(reg, rows[..k]).Err?
    ensures ParseGrid(reg, rows) == ParseGrid(reg, rows[..k])
    decreases |rows| - k
  {
    if k < |rows| {
      var longer := rows[..k + 1];
      assert longer[..k] == rows[..k];
      assert ParseGrid(reg, longer).Err?;
      ParseGridPrefixErr(reg, rows, k + 1);
    } else {
      assert rows[..k] == rows;
    }
  }

  lemma ParseGridStep(reg: seq<(string, LegacyTiles.TileClassEntry)>, rows: seq<Json>, k: nat)
    requires k < |rows| && ParseGrid(reg, rows[..k]).Ok?
    ensures Session.ArrayLike(Some(rows[k])).Err? ==> ParseGrid(reg, rows[..k + 1]) == Err(Session.ArrayLike(Some(rows[k])).error)
    ensures Session.ArrayLike(Some(rows[k])).Ok? && RowMap(TileAt(reg), Session.Placed(Session.ArrayLike(Some(rows[k])).value, k)).Err? ==>
      ParseGrid(reg, rows[..k + 1]) == Err(RowMap(TileAt(reg), Session.Placed(Session.ArrayLike(Some(rows[k])).value, k)).error)
    ensures Session.ArrayLike(Some(rows[k])).Ok? && RowMap(TileAt(reg), Session.Placed(Session.ArrayLike(Some(rows[k])).value, k)).Ok? ==>
      ParseGrid(reg, rows[..k + 1]) ==
        Ok(ParseGrid(reg, rows[..k]).value + [RowMap(TileAt(reg), Session.Placed(Session.ArrayLike(Some(rows[k])).value, k)).value])
  {
    assert rows[..k + 1][..k] == rows[..k];
  }

  /** The built tiles have the shapes of a row of the grid. */
  ghost predicate RowMatches(row: seq<LegacyTiles.Tile>, shapes: seq<LegacyTiles.TileShape>)
  {
    |row| == |shapes| && forall i :: 0 <= i < |row| ==> row[i].WellNested() && row[i].Shape() == shapes[i]
  }

  /** Appending a tile of the next shape keeps a row matching. */
  lemma RowMatchesAppend(row: seq<LegacyTiles.Tile>, shapes: seq<LegacyTiles.TileShape>,
                         t: LegacyTiles.Tile, shape: LegacyTiles.TileShape)
    requires RowMatches(row, shapes) && t.WellNested() && t.Shape() == shape
    ensures RowMatches(row + [t], shapes + [shape])
  {
  }

  /** The built map has the shapes of the grid, row by row. */
  ghost predicate MapMatches(tiles: seq<seq<LegacyTiles.Tile>>, grid: seq<seq<LegacyTiles.TileShape>>)
  {
    |tiles| == |grid| && forall j :: 0 <= j < |tiles| ==> RowMatches(tiles[j], grid[j])
  }

  /** The inner loop of the world handler: each cell of row `j` becomes a tile at its position. */
  method BuildRow(reg: seq<(string, LegacyTiles.TileClassEntry)>, cells: seq<Json>, j: int)
    returns (r: Result<seq<LegacyTiles.Tile>>)
    ensures r.Ok? <==> RowMap(TileAt(reg), Session.Placed(cells, j)).Ok?
    ensures r.Err? ==> r.error == RowMap(TileAt(reg), Session.Placed(cells, j)).error
    ensures r.Ok? ==> RowMatches(r.value, RowMap(TileAt(reg), Session.Placed(cells, j)).value)
  {
    var placed := Session.Placed(cells, j);
    var rowTiles: seq<LegacyTiles.Tile> := [];
    var i := 0;
    while i < |cells|
      invariant 0 <= i <= |cells|
      invariant RowMap(TileAt(reg), placed[..i]).Ok? && RowMatches(rowTiles, RowMap(TileAt(reg), placed[..i]).value)
    {
      var t := LegacyTiles.FromJson(reg, cells[i], Session.CellPos(i, j));
      assert TileAt(reg)(placed[i]) == LegacyTiles.ParseTile(reg, cells[i], Session.CellPos(i, j));
      RowMapStep(TileAt(reg), placed, i);
      if t.Err? {
        RowMapPrefixErr(TileAt(reg), placed, i + 1);
        return Err(t.error);
      }
      RowMatchesAppend(rowTiles, RowMap(TileAt(reg), placed[..i]).value, t.value, TileAt(reg)(placed[i]).value);
      rowTiles := rowTiles + [t.value];
      i := i + 1;
    }
    assert placed[..i] == placed;
    return Ok(rowTiles);
  }

  /**
   * The nested loops of the world handler: row by row, each cell becomes
   * a tile at its position; the first failure ends the loops.
   */
  method BuildMap(reg: seq<(string, LegacyTiles.TileClassEntry)>, rows: seq<Json>) returns (r: Result<seq<seq<LegacyTiles.Tile>>>)
    ensures r.Ok? <==> ParseGrid(reg, rows).Ok?
    ensures r.Err? ==> r.error == ParseGrid(reg, rows).error
    ensures r.Ok? ==> MapMatches(r.value, ParseGrid(reg, rows).value)
  {
    var built: seq<seq<LegacyTiles.Tile>> := [];
    var j := 0;
    while j < |rows|
      invariant 0 <= j <= |rows|
      invariant ParseGrid(reg, rows[..j]).Ok? && MapMatches(built, ParseGrid(reg, rows[..j]).value)
    {
      ParseGridStep(reg, rows, j);
      var cells := Session.ArrayLike(Some(rows[j]));
      if cells.Err? {
        ParseGridPrefixErr(reg, rows, j + 1);
        return Err(cells.error);
      }
      var row := BuildRow(reg, cells.value, j);
      if row.Err? {
        ParseGridPrefixErr(reg, rows, j + 1);
        return Err(row.error);
      }
      built := built + [row.value];
      j := j + 1;
    }
    assert rows[..j] == rows;
    return Ok(built);
  }

  /** `entityFromJSON` of one item of the world's entity list. */
  function EntityAt(reg: seq<(string, LegacyEntities.EntityClassEntry)>): Json -> Result<LegacyEntities.EntityRecord>
  {
    (j: Json) => LegacyEntities.ParseEntity(reg, j)
  }

  /** The built entities carry the records read, in order. */
  ghost predicate EntitiesMatch(es: seq<LegacyEntities.Entity>, recs: seq<LegacyEntities.EntityRecord>)
    reads set e | e in es
  {
    |es| == |recs| &&
    forall i :: 0 <= i < |es| ==>
      es[i].entry == recs[i].entry && es[i].uuid == recs[i].uuid && es[i].pos == recs[i].pos &&
      es[i].velocity == recs[i].velocity && es[i].facing == recs[i].facing &&
      es[i].height == LegacyEntities.INLINE_HEIGHT
  }

  lemma MatchAppend(es: seq<LegacyEntities.Entity>, recs: seq<LegacyEntities.EntityRecord>,
                    e: LegacyEntities.Entity, rec: LegacyEntities.EntityRecord)
    requires EntitiesMatch(es, recs) && EntitiesMatch([e], [rec])
    ensures EntitiesMatch(es + [e], recs + [rec])
  {
  }

  /**
   * `items.map(entityFromJSON)`. The items are read first and the objects
   * built after: building an entity does nothing but allocate it, so the
   * outcome and the first failure are those of the source's single pass.
   */
  method BuildEntities(reg: seq<(string, LegacyEntities.EntityClassEntry)>, items: seq<Json>)
    returns (r: Result<seq<LegacyEntities.Entity>>)
    ensures r.Ok? <==> RowMap(EntityAt(reg), items).Ok?
    ensures r.Err? ==> r.error == RowMap(EntityAt(reg), items).error
    ensures r.Ok? ==> EntitiesMatch(r.value, RowMap(EntityAt(reg), items).value)
    ensures r.Ok? ==> forall e :: e in r.value ==> fresh(e)
  {
    var recs := RowMap(EntityAt(reg), items);
    if recs.Err? {
      return Err(recs.error);
    }
    var es := NewEntities(recs.value);
    return Ok(es);
  }

  /** `new entityClass(...)` for each record read, in order. */
  method NewEntities(recs: seq<LegacyEntities.EntityRecord>) returns (es: seq<LegacyEntities.Entity>)
    ensures EntitiesMatch(es, recs)
    ensures forall e :: e in es ==> fresh(e)
  {
    es := [];
    var i := 0;
    while i < |recs|
      invariant 0 <= i <= |recs|
      invariant EntitiesMatch(es, recs[..i])
      invariant forall e :: e in es ==> fresh(e)
    {
      var e := new LegacyEntities.Entity(recs[i], LegacyEntities.INLINE_HEIGHT);
      MatchAppend(es, recs[..i], e, recs[i]);
      es := es + [e];
      assert recs[..i + 1] == recs[..i] + [recs[i]];
      i := i + 1;
    }
    assert recs[..i] == recs;
  }

  /** The tiles of a current world, row by row; a missing or null `tiles` is a TypeError. */
  function WorldGrid(reg: seq<(string, LegacyTiles.TileClassEntry)>, world: Json): (r: Result<seq<seq<LegacyTiles.TileShape>>>)
    requires !world.JNull?
    ensures JsGet(world, "tiles").value.None? ==> r == Err(TypeError)
  {
    var rows :- Session.ArrayLike(JsGet(world, "tiles").value);
    ParseGrid(reg, rows)
  }

  /** `world.entities.map(entityFromJSON)`: only an array has `map`; anything else is a TypeError. */
  function WorldEntities(reg: seq<(string, LegacyEntities.EntityClassEntry)>, world: Json): (r: Result<seq<LegacyEntities.EntityRecord>>)
    requires !world.JNull?
    ensures JsGet(world, "entities").value.None? ==> r == Err(TypeError)
    ensures r.Ok? ==> var e := JsGet(world, "entities").value.value;
      e.JArr? && |r.value| == |e.items| &&
      forall k :: 0 <= k < |e.items| ==> LegacyEntities.ParseEntity(reg, e.items[k]) == Ok(r.value[k])
  {
    var e := JsGet(world, "entities").value;
    if e.Some? && e.value.JArr? then RowMap(EntityAt(reg), e.value.items)
    else Err(TypeError)
  }

  /** How far the world handler gets with a message. */
  datatype WorldStage =
    | HeaderFailed(failure: Failure)
    | OtherVersion
    | TilesFailed(failure: Failure)
    | EntitiesFailed(failure: Failure, grid: seq<seq<LegacyTiles.TileShape>>)
    | Loaded(grid: seq<seq<LegacyTiles.TileShape>>, recs: seq<LegacyEntities.EntityRecord>, spawn: Vec)

  /** The header, then (for this version) the tiles, then the entities. */
  function WorldStageOf(treg: seq<(string, LegacyTiles.TileClassEntry)>, ereg: seq<(string, LegacyEntities.EntityClassEntry)>,
                        parseJson: string -> Option<Json>, data: string): (st: WorldStage)
    ensures parseJson(Session.WorldPayload(data)).None? ==> st == HeaderFailed(SyntaxError)
    ensures st.OtherVersion? ==> var w := parseJson(Session.WorldPayload(data));
      w.Some? && !w.value.JNull? && JsGet(w.value, "version") != Ok(Some(JStr(Session.VERSION)))
  {
    match Session.ReadWorldHeader(parseJson, data)
    case Err(e) => HeaderFailed(e)
    case Ok(h) =>
      if !h.current then OtherVersion else LoadStage(treg, ereg, h.world, h.spawn)
  }

  /** How far loading a world of this version gets: the tiles, then the entities. */
  function LoadStage(treg: seq<(string, LegacyTiles.TileClassEntry)>, ereg: seq<(string, LegacyEntities.EntityClassEntry)>,
                     world: Json, spawn: Vec): (st: WorldStage)
    requires !world.JNull?
    ensures st.TilesFailed? || st.EntitiesFailed? || st.Loaded?
    ensures st.Loaded? ==> st.spawn == spawn && WorldGrid(treg, world) == Ok(st.grid) && WorldEntities(ereg, world) == Ok(st.recs)
  {
    match WorldGrid(treg, world)
    case Err(e) => TilesFailed(e)
    case Ok(grid) =>
      match WorldEntities(ereg, world)
      case Err(e) => EntitiesFailed(e, grid)
      case Ok(recs) => Loaded(grid, recs, spawn)
  }

  // ----- the `updateentity` patch -----

  /**
   * What a patch sets, field by field: None where the patch leaves the
   * field alone. `facing` is `Some(strToDir(...))`, which may itself be
   * undefined (None).
   */
  datatype Patch = Patch(x: Option<real>, y: Option<real>, vx: Option<real>, vy: Option<real>, facing: Option<Option<Dir>>)

  /**
   * One `if (o.c) { entity.c = o.c; }`: a falsy value (missing, 0, false,
   * "" or null) is skipped; a truthy number is applied.
   */
  function Component(v: Option<Json>): (r: Result<Option<real>>)
    ensures !JsTruthyOpt(v) ==> r == Ok(None)
    ensures r.Ok? && r.value.Some? <==> v.Some? && v.value.JNum? && v.value.n != 0.0
    ensures r.Ok? && r.value.Some? ==> v == Some(JNum(r.value.value))
  {
    if !JsTruthyOpt(v) then Ok(None)
    else if v.value.JNum? then Ok(Some(v.value.n))
    else Err(TypeError)
  }

  /** `if (o.pos) { ...x...; ...y...; }`: a falsy vector is skipped whole. */
  function PairPatch(o: Option<Json>): (r: Result<(Option<real>, Option<real>)>)
    ensures !JsTruthyOpt(o) ==> r == Ok((None, None))
  {
    if !JsTruthyOpt(o) then Ok((None, None))
    else
      var x :- Component(JsGet(o.value, "x").value);
      var y :- Component(JsGet(o.value, "y").value);
      Ok((x, y))
  }

  /** The patch an `updateentity` object describes; a null object is a TypeError. */
  function PatchOf(j: Json): (r: Result<Patch>)
    ensures j.JNull? ==> r == Err(TypeError)
    ensures r.Ok? ==> (r.value.facing.Some? <==> JsTruthyOpt(JsGet(j, "facing").value))
  {
    if j.JNull? then Err(TypeError)
    else
      var pos :- PairPatch(JsGet(j, "pos").value);
      var vel :- PairPatch(JsGet(j, "velocity").value);
      var f := JsGet(j, "facing").value;
      var facing := if JsTruthyOpt(f) then Some(if f.value.JStr? then StrToDir(f.value.s) else None) else None;
      Ok(Patch(pos.0, pos.1, vel.0, vel.1, facing))
  }

  /** The third piece of an `updateentity` message, parsed, as a patch; a missing piece is `JSON.parse(undefined)`. */
  function UpdateOf(parts: seq<string>, parseJson: string -> Option<Json>): (r: Result<Patch>)
    ensures |parts| < 3 ==> r == Err(SyntaxError)
    ensures |parts| >= 3 && parseJson(parts[2]).None? ==> r == Err(SyntaxError)
    ensures |parts| >= 3 && parseJson(parts[2]).Some? ==> r == PatchOf(parseJson(parts[2]).value)
  {
    if |parts| < 3 then Err(SyntaxError)
    else
      var j :- Session.ParseJson(parseJson, parts[2]);
      PatchOf(j)
  }

  /** A vector with the patched components replaced. */
  function Patched(v: Vec, x: Option<real>, y: Option<real>): (r: Vec)
    ensures r.x == (if x.Some? then x.value else v.x) && r.y == (if y.Some? then y.value else v.y)
  {
    Vec(if x.Some? then x.value else v.x, if y.Some? then y.value else v.y)
  }

  /** A number as `if (o.c)` sees it: a non-zero number is applied, zero is not. */
  function NonZero(n: real): Option<real>
  {
    if n == 0.0 then None else Some(n)
  }

  /**
   * A patch whose only field is the facing leaves the position and the
   * velocity alone and turns the entity to the facing sent.
   */
  lemma FacingOnlyPatch(d: Dir)
    ensures PatchOf(JObj([("facing", JStr(DirLetter(d)))])) == Ok(Patch(None, None, None, None, Some(Some(d))))
  {
    var j := JObj([("facing", JStr(DirLetter(d)))]);
    assert JsGet(j, "pos") == Ok(None) by { assert "facing" != "pos"; }
    assert JsGet(j, "velocity") == Ok(None) by { assert "facing" != "velocity"; }
    DirRoundTrip(d, d);
  }

  /**
   * A patch moving an entity to `v`: each coordinate that is 0 is not
   * applied, so an entity sent to x = 0 (or y = 0) keeps its old x (or y).
   */
  lemma PosPatchSkipsZero(v: Vec, old_: Vec)
    ensures var p := PatchOf(JObj([("pos", Session.ClientJson.VecJson(v))]));
      p == Ok(Patch(NonZero(v.x), NonZero(v.y), None, None, None)) &&
      Patched(old_, p.value.x, p.value.y) == Vec(if v.x == 0.0 then old_.x else v.x, if v.y == 0.0 then old_.y else v.y)
  {
    var j := JObj([("pos", Session.ClientJson.VecJson(v))]);
    Session.ClientJson.VecJsonFields(v);
    assert JsGet(j, "pos") == Ok(Some(Session.ClientJson.VecJson(v)));
    assert JsGet(j, "velocity") == Ok(None) by { assert "pos" != "velocity"; }
    assert JsGet(j, "facing") == Ok(None) by { assert "pos" != "facing"; }
  }

  /** The first entity whose `uuid` is `===` to `u` (None standing for `undefined`). */
  function FindEntity(es: seq<LegacyEntities.Entity>, u: Option<Json>): (r: Option<LegacyEntities.Entity>)
    ensures r.Some? ==> r.value in es && r.value.uuid == u
    ensures r.None? <==> forall k :: 0 <= k < |es| ==> es[k].uuid != u
    ensures r.Some? ==> exists k :: 0 <= k < |es| && es[k] == r.value && forall i :: 0 <= i < k ==> es[i].uuid != u
  {
    if |es| == 0 then None
    else if es[0].uuid == u then Some(es[0])
    else
      var r := FindEntity(es[1..], u);
      assert forall k :: 0 <= k < |es| - 1 ==> es[1..][k] == es[k + 1];
      if r.Some? then
        var k :| 0 <= k < |es[1..]| && es[1..][k] == r.value && forall i :: 0 <= i < k ==> es[1..][i].uuid != u;
        assert es[k + 1] == r.value;
        r
      else r
  }

  /** The UUID an `updateentity` message names: its second piece, or `undefined`. */
  function UuidOf(parts: seq<string>): Option<Json>
  {
    if |parts| >= 2 then Some(JStr(parts[1])) else None
  }

  // ----- the frame update -----

  /** The move and interact messages of a frame on the map: the move, then `interact` for a held space. */
  function MapMessages(keys: set<int>): (msgs: seq<string>)
    ensures |msgs| <= 2
    ensures SPACE in keys <==> "interact" in msgs
  {
    MoveIsNotInteract(keys);
    Session.MoveMessages(keys) + (if SPACE in keys then ["interact"] else [])
  }

  /** A move message is never `interact`: it starts with `move|` or `fastmove|`. */
  lemma MoveIsNotInteract(keys: set<int>)
    ensures "interact" !in Session.MoveMessages(keys)
  {
    var mm := Session.MoveMessages(keys);
    if |mm| == 1 {
      var prefix := if Session.SHIFT in keys then "fastmove|" else "move|";
      assert mm[0] == prefix + Session.MoveString(keys);
      assert mm[0][0] == prefix[0] != "interact"[0];
    }
  }

  /**
   * The context after the toggle keys: L opens the log or closes it, else
   * M the menu, in every context.
   */
  function ToggleContext(ctx: Context, keys: set<int>): (r: Context)
    ensures L_KEY in keys ==> (r == LogContext <==> ctx != LogContext) && (r != LogContext ==> r == MapContext)
    ensures L_KEY !in keys && M_KEY in keys ==> (r == MenuContext <==> ctx != MenuContext) && (r != MenuContext ==> r == MapContext)
    ensures L_KEY !in keys && M_KEY !in keys ==> r == ctx
  {
    if L_KEY in keys then (if ctx == LogContext then MapContext else LogContext)
    else if M_KEY in keys then (if ctx == MenuContext then MapContext else MenuContext)
    else ctx
  }

  /** Both sets hold the same toggle keys. */
  predicate TogglesKept(keys: set<int>, before: set<int>)
  {
    (L_KEY in keys <==> L_KEY in before) && (M_KEY in keys <==> M_KEY in before)
  }

  /** The key a toggle consumes: L, else M. */
  function ToggleKey(keys: set<int>): (ks: set<int>)
    ensures ks <= keys * {L_KEY, M_KEY} && |ks| <= 1
    ensures ks == {} <==> L_KEY !in keys && M_KEY !in keys
  {
    if L_KEY in keys then {L_KEY} else if M_KEY in keys then {M_KEY} else {}
  }

  /**
   * Pressing the same toggle twice from the map, or from the box it opens,
   * comes back to where it started; from the other box it goes through its
   * own box to the map.
   */
  lemma ToggleTwice(ctx: Context, key: int)
    requires key == L_KEY || key == M_KEY
    ensures var opens := if key == L_KEY then LogContext else MenuContext;
      ToggleContext(ToggleContext(ctx, {key}), {key}) == if ctx == MapContext || ctx == opens then ctx else MapContext
  {
  }

  /** The log's first line after the arrows of a frame: up first, then down, stopping one past the last line. */
  function LogScroll(lineStart: int, keys: set<int>, lines: int): (r: int)
    ensures 0 <= lineStart <= lines ==> 0 <= r <= lines
  {
    var up := if Session.KEY_UP in keys then ClampUp(lineStart) else lineStart;
    if Session.KEY_DOWN in keys then ClampDown(up, lines) else up
  }

  /** The menu's cursor after the arrows of a frame: up first, then down, stopping at either end. */
  function MenuCursor(c: int, keys: set<int>, n: int): (r: int)
    ensures 0 <= c < n ==> 0 <= r < n
    ensures Session.KEY_UP !in keys && Session.KEY_DOWN in keys && c == n - 1 ==> r == c
    ensures Session.KEY_UP in keys && Session.KEY_DOWN !in keys && c == 0 ==> r == 0
  {
    var up := if Session.KEY_UP in keys then ClampUp(c) else c;
    if Session.KEY_DOWN in keys then ClampDown(up, n - 1) else up
  }

  // ----- the game -----

  /** `Game`, after `initialize` has made its log and menu. */
  class Game {
    const username: string
    const measure: string -> real
    /** The tile and entity classes the client registers when it loads. */
    const tileRegistry: seq<(string, LegacyTiles.TileClassEntry)>
    const entityRegistry: seq<(string, LegacyEntities.EntityClassEntry)>
    const gameLog: LegacyTextBoxes.GameLog
    const menu: LegacyTextBoxes.Menu
    var pressedKeys: set<int>
    var playerObj: Option<Player>
    var otherPlayerObjs: seq<OtherPlayer>
    var tiles: seq<seq<LegacyTiles.Tile>>
    var entities: seq<LegacyEntities.Entity>
    var contextMenu: Context

    /** The player and its four walks, while there is a player. */
    ghost function PlayerRepr(): set<object>
      reads this
    {
      if playerObj.Some? then
        var p := playerObj.value;
        {p, p.leftAnimation, p.upAnimation, p.rightAnimation, p.downAnimation}
      else {}
    }

    /** The player object alone, whose position the server may set. */
    function PlayerSet(): set<object>
      reads this
    {
      if playerObj.Some? then {playerObj.value} else {}
    }

    ghost predicate Valid()
      reads this, gameLog, PlayerRepr()
    {
      gameLog.Valid() && (playerObj.Some? ==> playerObj.value.Valid())
    }

    /**
     * `new Game(ws, username)`, then `initialize()`, whose log and menu
     * (`LegacyTextBoxes.Initialize`) are passed in: no player yet, an
     * empty world, the map context.
     */
    constructor (username: string, measure: string -> real,
                 tileRegistry: seq<(string, LegacyTiles.TileClassEntry)>,
                 entityRegistry: seq<(string, LegacyEntities.EntityClassEntry)>,
                 log: LegacyTextBoxes.GameLog, m: LegacyTextBoxes.Menu)
      requires log.Valid()
      ensures Valid() && gameLog == log && menu == m
      ensures this.username == username && this.measure == measure
      ensures this.tileRegistry == tileRegistry && this.entityRegistry == entityRegistry
      ensures pressedKeys == {} && playerObj.None? && otherPlayerObjs == [] && tiles == [] && entities == []
      ensures contextMenu == MapContext
    {
      this.username := username;
      this.measure := measure;
      this.tileRegistry := tileRegistry;
      this.entityRegistry := entityRegistry;
      gameLog := log;
      menu := m;
      pressedKeys := {};
      playerObj := None;
      otherPlayerObjs := [];
      tiles := [];
      entities := [];
      contextMenu := MapContext;
    }

    /** The `keydown` listener: the key's code is held. */
    method KeyDown(code: int)
      modifies this`pressedKeys
      ensures pressedKeys == old(pressedKeys) + {code}
    {
      pressedKeys := pressedKeys + {code};
    }

    /** The `keyup` listener: the key's code is no longer held. */
    method KeyUp(code: int)
      modifies this`pressedKeys
      ensures pressedKeys == old(pressedKeys) - {code}
    {
      pressedKeys := pressedKeys - {code};
    }

    /** `getEntity(uuid)`: the first entity with that UUID. */
    function GetEntity(uuid: Option<Json>): (r: Option<LegacyEntities.Entity>)
      reads this
      ensures r.Some? ==> r.value in entities && r.value.uuid == uuid
      ensures r.None? <==> forall k :: 0 <= k < |entities| ==> entities[k].uuid != uuid
    {
      FindEntity(entities, uuid)
    }

    /** The entity an `updateentity` message patches, as a set (empty when there is none). */
    function Target(parts: seq<string>): set<object>
      reads this
    {
      if GetEntity(UuidOf(parts)).Some? then {GetEntity(UuidOf(parts)).value} else {}
    }

    /**
     * What the `world` handler leaves, by the stage `WorldStageOf` says it
     * reaches: it succeeds when the world is loaded or of another version
     * and otherwise fails as that stage says; the entities and the player
     * change only when the world is loaded; the map is kept up to the
     * header, emptied when its tiles fail and rebuilt after; a loaded world
     * has fresh entities as listed and the player at the spawn point.
     */
    twostate predicate WorldHandled(data: string, parseJson: string -> Option<Json>, new r: Result<()>)
      reads this, PlayerRepr(), set e | e in entities
    {
      StageLeft(WorldStageOf(tileRegistry, entityRegistry, parseJson, data), r)
    }

    /** What loading leaves once it has reached the stage `st`, as `WorldHandled` says. */
    twostate predicate StageLeft(st: WorldStage, new r: Result<()>)
      reads this, PlayerRepr(), set e | e in entities
    {
      (st.Loaded? || st.OtherVersion? ==> r == Ok(())) && (!st.Loaded? && !st.OtherVersion? ==> r == Err(st.failure)) &&
      (!st.Loaded? ==> entities == old(entities) && playerObj == old(playerObj) && PosKept(old(playerObj), old(PlayerPos()))) &&
      (st.HeaderFailed? || st.OtherVersion? ==> tiles == old(tiles)) &&
      (st.TilesFailed? ==> tiles == []) &&
      (st.EntitiesFailed? || st.Loaded? ==> MapMatches(tiles, st.grid)) &&
      (st.Loaded? ==>
        EntitiesMatch(entities, st.recs) && (forall e :: e in entities ==> fresh(e)) &&
        playerObj.Some? && playerObj.value.pos == st.spawn && (old(playerObj).Some? ==> playerObj == old(playerObj)))
    }

    /**
     * The `world` handler. The world is parsed and its spawn point read
     * first; a world of another version is then ignored. Otherwise the map
     * is cleared and rebuilt tile by tile, then the entities are rebuilt,
     * then the player is moved to the spawn point or made there. A failure
     * stops the handler where it happens, keeping what was already done.
     */
    method HandleWorld(data: string, parseJson: string -> Option<Json>) returns (r: Result<()>)
      requires Valid()
      modifies this`tiles, this`entities, this`playerObj, PlayerSet()
      ensures Valid() && WorldHandled(data, parseJson, r)
    {
      var h := Session.ReadWorldHeader(parseJson, data);
      if h.Err? {
        return Err(h.error);
      }
      if !h.value.current {
        return Ok(());
      }
      r := LoadWorld(h.value.world, h.value.spawn);
    }

    /** A world of this version: the map, then the entities, then the player at the spawn point. */
    method LoadWorld(world: Json, spawn: Vec) returns (r: Result<()>)
      requires Valid() && !world.JNull?
      modifies this`tiles, this`entities, this`playerObj, PlayerSet()
      ensures Valid() && StageLeft(LoadStage(tileRegistry, entityRegistry, world, spawn), r)
    {
      r := LoadTiles(world);
      if r.Err? {
        return;
      }
      r := LoadPeople(world, spawn);
    }

    /** The entities, then the player at the spawn point; a failure leaves both as they were. */
    method LoadPeople(world: Json, spawn: Vec) returns (r: Result<()>)
      requires Valid() && !world.JNull?
      modifies this`entities, this`playerObj, PlayerSet()
      ensures Valid()
      ensures var recs := WorldEntities(entityRegistry, world);
        (recs.Err? ==>
          r == Err(recs.error) && entities == old(entities) && playerObj == old(playerObj) &&
          PosKept(old(playerObj), old(PlayerPos()))) &&
        (recs.Ok? ==>
          r == Ok(()) && EntitiesMatch(entities, recs.value) && (forall e :: e in entities ==> fresh(e)) &&
          playerObj.Some? && playerObj.value.pos == spawn && (old(playerObj).Some? ==> playerObj == old(playerObj)))
    {
      r := LoadEntities(world);
      if r.Err? {
        return;
      }
      ghost var loaded := entities;
      Spawn(spawn);
      assert entities == loaded;
    }

    /** Where the player stands, if there is one. */
    function PlayerPos(): Option<Vec>
      reads this, PlayerSet()
    {
      if playerObj.Some? then Some(playerObj.value.pos) else None
    }

    /** The player, if any, still stands where it stood. */
    predicate PosKept(p: Option<Player>, pos: Option<Vec>)
      reads this, PlayerSet()
    {
      p.Some? && p == playerObj ==> pos == Some(p.value.pos)
    }

    /** `clearMap`, then the nested loops that rebuild the map; a failure leaves it empty. */
    method LoadTiles(world: Json) returns (r: Result<()>)
      requires !world.JNull?
      modifies this`tiles
      ensures var grid := WorldGrid(tileRegistry, world);
        (grid.Err? ==> r == Err(grid.error) && tiles == []) &&
        (grid.Ok? ==> r == Ok(()) && MapMatches(tiles, grid.value))
    {
      tiles := [];
      var rows := Session.ArrayLike(JsGet(world, "tiles").value);
      if rows.Err? {
        return Err(rows.error);
      }
      var built := BuildMap(tileRegistry, rows.value);
      if built.Err? {
        return Err(built.error);
      }
      tiles := built.value;
      return Ok(());
    }

    /** `game.entities = world.entities.map(entityFromJSON)`: a failure leaves the entities as they were. */
    method LoadEntities(world: Json) returns (r: Result<()>)
      requires !world.JNull?
      modifies this`entities
      ensures var recs := WorldEntities(entityRegistry, world);
        (recs.Err? ==> r == Err(recs.error) && entities == old(entities)) &&
        (recs.Ok? ==> r == Ok(()) && EntitiesMatch(entities, recs.value) && forall e :: e in entities ==> fresh(e))
    {
      var e := JsGet(world, "entities").value;
      if !(e.Some? && e.value.JArr?) {
        return Err(TypeError);
      }
      var es := BuildEntities(entityRegistry, e.value.items);
      if es.Err? {
        return Err(es.error);
      }
      entities := es.value;
      return Ok(());
    }

    /** `playerObj.pos = spawn`, or a new player there when there is none yet. */
    method Spawn(spawn: Vec)
      requires Valid()
      modifies this`playerObj, PlayerSet()
      ensures Valid() && playerObj.Some? && playerObj.value.pos == spawn
      ensures old(playerObj).Some? ==> playerObj == old(playerObj)
      ensures forall recs :: EntitiesMatch(entities, recs) <==> old(EntitiesMatch(entities, recs))
    {
      if playerObj.Some? {
        playerObj.value.MoveTo(spawn);
      } else {
        var p := new Player(spawn);
        playerObj := Some(p);
      }
    }

    /** What the `movedto` handler leaves: the player where the server says, or, with no player, a `TypeError`. */
    predicate MovedTo(parts: seq<string>, parseFloat: string -> real, r: Result<()>)
      reads this, PlayerSet()
    {
      (r.Err? <==> playerObj.None?) && (r.Err? ==> r.error == TypeError) &&
      (r.Ok? ==> playerObj.value.pos == Vec(parseFloat(Session.Part(parts, 1)), parseFloat(Session.Part(parts, 2))))
    }

    /** The `movedto` handler: the player is put where the server says; with no player yet it throws. */
    method HandleMovedTo(parts: seq<string>, parseFloat: string -> real) returns (r: Result<()>)
      modifies PlayerSet()
      ensures MovedTo(parts, parseFloat, r)
    {
      if playerObj.None? {
        return Err(TypeError);
      }
      playerObj.value.MoveTo(Vec(parseFloat(Session.Part(parts, 1)), parseFloat(Session.Part(parts, 2))));
      return Ok(());
    }

    /**
     * `msg` went to the top of the log, and the log's text is wrapped again,
     * with the log's help while the log has the keys and its hint otherwise.
     */
    twostate predicate Logged(new msg: string)
      reads this, gameLog
    {
      gameLog.messageLog == [msg] + old(gameLog.messageLog) &&
      (contextMenu == LogContext ==> gameLog.wrappedText == Wrap(gameLog.FocusText(), measure, gameLog.width)) &&
      (contextMenu != LogContext ==> gameLog.wrappedText == Wrap(gameLog.UnfocusText(), measure, gameLog.width))
    }

    /** The `signtext` handler: the second piece alone (up to the next pipe) goes to the top of the log. */
    method HandleSignText(parts: seq<string>)
      requires gameLog.Valid()
      modifies gameLog
      ensures gameLog.Valid() && Logged("The sign reads: " + Session.Part(parts, 1))
    {
      gameLog.AddMsg("The sign reads: " + Session.Part(parts, 1), contextMenu == LogContext, measure);
    }

    /** The other players are new objects, the ones the `players` message lists, in order. */
    twostate predicate PlayersListed(parts: seq<string>, parseFloat: string -> real)
      reads this, set o | o in otherPlayerObjs
    {
      var listed := Session.PlayersFrom(parts, 1, parseFloat);
      |otherPlayerObjs| == |listed| &&
      forall k :: 0 <= k < |listed| ==>
        fresh(otherPlayerObjs[k]) && otherPlayerObjs[k].username == listed[k].0 && otherPlayerObjs[k].pos == listed[k].1
    }

    /** The `players` handler: the other players are replaced by the ones listed, in order. */
    method HandlePlayers(parts: seq<string>, parseFloat: string -> real)
      modifies this`otherPlayerObjs
      ensures PlayersListed(parts, parseFloat)
    {
      var others: seq<OtherPlayer> := [];
      ghost var got: seq<(string, Vec)> := [];
      var i := 1;
      while i < |parts|
        invariant i >= 1 && Session.PlayersFrom(parts, 1, parseFloat) == got + Session.PlayersFrom(parts, i, parseFloat)
        invariant |others| == |got|
        invariant forall k :: 0 <= k < |others| ==> fresh(others[k])
        invariant forall k :: 0 <= k < |got| ==> others[k].username == got[k].0 && others[k].pos == got[k].1
        decreases |parts| - i
      {
        var o := new OtherPlayer(Vec(parseFloat(Session.Part(parts, i + 1)), parseFloat(Session.Part(parts, i + 2))), parts[i]);
        assert Session.PlayersFrom(parts, 1, parseFloat) == (got + [(parts[i], o.pos)]) + Session.PlayersFrom(parts, i + 3, parseFloat) by {
          Session.RegroupPlayers(got, [(parts[i], o.pos)], Session.PlayersFrom(parts, i + 3, parseFloat));
        }
        others := others + [o];
        got := got + [(parts[i], o.pos)];
        i := i + 3;
      }
      otherPlayerObjs := others;
    }

    /**
     * The `updateentity` handler: the entity with the UUID sent gets the
     * truthy fields of the patch, and no other. A malformed patch throws
     * before anything changes; so does an unknown UUID, whether at the
     * first field it would set or at the final `console.log(entity.pos)`.
     */
    method HandleUpdateEntity(parts: seq<string>, parseJson: string -> Option<Json>) returns (r: Result<()>)
      modifies Target(parts)
      ensures EntityPatched(parts, parseJson, r)
    {
      var e := GetEntity(UuidOf(parts));
      var p := UpdateOf(parts, parseJson);
      if p.Err? {
        return Err(p.error);
      }
      if e.None? {
        return Err(TypeError);
      }
      Apply(e.value, p.value);
      return Ok(());
    }

    /**
     * What the `updateentity` handler leaves: a malformed patch fails as its
     * parse says and an unknown UUID with a `TypeError`, both changing
     * nothing; otherwise the entity with that UUID has the patch's fields.
     */
    twostate predicate EntityPatched(parts: seq<string>, parseJson: string -> Option<Json>, new r: Result<()>)
      requires entities == old(entities)
      reads this, Target(parts)
    {
      var p := UpdateOf(parts, parseJson);
      var e := GetEntity(UuidOf(parts));
      (p.Err? ==> r == Err(p.error)) &&
      (p.Ok? && e.None? ==> r == Err(TypeError)) &&
      (p.Ok? && e.Some? ==>
        r == Ok(()) &&
        e.value.pos == Patched(old(e.value.pos), p.value.x, p.value.y) &&
        e.value.velocity == Patched(old(e.value.velocity), p.value.vx, p.value.vy) &&
        e.value.facing == (if p.value.facing.Some? then p.value.facing.value else old(e.value.facing))) &&
      (r.Err? ==> forall o :: o in Target(parts) ==> unchanged(o))
    }

    /** The patch applied to one entity, field by field. */
    static method Apply(e: LegacyEntities.Entity, p: Patch)
      modifies e
      ensures e.pos == Patched(old(e.pos), p.x, p.y) && e.velocity == Patched(old(e.velocity), p.vx, p.vy)
      ensures e.facing == (if p.facing.Some? then p.facing.value else old(e.facing))
    {
      if p.x.Some? {
        e.pos := Vec(p.x.value, e.pos.y);
      }
      if p.y.Some? {
        e.pos := Vec(e.pos.x, p.y.value);
      }
      if p.vx.Some? {
        e.velocity := Vec(p.vx.value, e.velocity.y);
      }
      if p.vy.Some? {
        e.velocity := Vec(e.velocity.x, p.vy.value);
      }
      if p.facing.Some? {
        e.facing := p.facing.value;
      }
    }

    /**
     * `handleWSMessage`: the message goes to the handler of the prefix it
     * starts with; a message with no known prefix changes nothing.
     */
    method HandleMessage(data: string, parseJson: string -> Option<Json>, parseFloat: string -> real)
      returns (r: Result<()>)
      requires Valid()
      modifies this`tiles, this`entities, this`playerObj, this`otherPlayerObjs, PlayerSet(), gameLog
      modifies Target(Split(data, '|'))
      ensures Valid()
      ensures Classify(data) == UnknownMsg ==> r == Ok(()) && unchanged(this, gameLog) && PosKept(old(playerObj), old(PlayerPos()))
      ensures Classify(data) != WorldMsg ==> tiles == old(tiles) && entities == old(entities) && playerObj == old(playerObj)
      ensures Classify(data) != SignTextMsg ==> unchanged(gameLog)
      ensures Classify(data) != PlayersMsg ==> otherPlayerObjs == old(otherPlayerObjs)
      ensures Classify(data) == WorldMsg ==> WorldHandled(data, parseJson, r)
      ensures Classify(data) == MovedToMsg ==> MovedTo(Split(data, '|'), parseFloat, r)
      ensures Classify(data) == SignTextMsg ==> r == Ok(()) && Logged("The sign reads: " + Session.Part(Split(data, '|'), 1))
      ensures Classify(data) == PlayersMsg ==> r == Ok(()) && PlayersListed(Split(data, '|'), parseFloat)
      ensures Classify(data) == UpdateEntityMsg ==> EntityPatched(Split(data, '|'), parseJson, r)
    {
      var parts := Split(data, '|');
      var kind := Classify(data);
      if kind == WorldMsg {
        r := HandleWorld(data, parseJson);
        return;
      }
      r := HandleOtherMessage(kind, parts, parseJson, parseFloat);
    }

    /** The messages other than `world`: signs, the players, the entities, and those of no known kind. */
    method HandleOtherMessage(kind: MessageKind, parts: seq<string>, parseJson: string -> Option<Json>, parseFloat: string -> real)
      returns (r: Result<()>)
      requires Valid() && kind != WorldMsg
      modifies this`otherPlayerObjs, PlayerSet(), gameLog, Target(parts)
      ensures Valid()
      ensures kind == UnknownMsg ==> r == Ok(()) && unchanged(this, gameLog) && PosKept(old(playerObj), old(PlayerPos()))
      ensures kind != SignTextMsg ==> unchanged(gameLog)
      ensures kind != PlayersMsg ==> otherPlayerObjs == old(otherPlayerObjs)
      ensures kind == MovedToMsg ==> MovedTo(parts, parseFloat, r)
      ensures kind == SignTextMsg ==> r == Ok(()) && Logged("The sign reads: " + Session.Part(parts, 1))
      ensures kind == PlayersMsg ==> r == Ok(()) && PlayersListed(parts, parseFloat)
      ensures kind == UpdateEntityMsg ==> EntityPatched(parts, parseJson, r)
    {
      if kind == MovedToMsg {
        r := HandleMovedTo(parts, parseFloat);
        return;
      }
      if kind == SignTextMsg {
        HandleSignText(parts);
        return Ok(());
      }
      if kind == PlayersMsg {
        HandlePlayers(parts, parseFloat);
        return Ok(());
      }
      if kind == UpdateEntityMsg {
        r := HandleUpdateEntity(parts, parseJson);
        return;
      }
      return Ok(());
    }

    // ----- `update` -----

    /**
     * The player, if there is one, walked with the keys held: moved by
     * `Walk`, turned by `FacingAfter`, moving when an arrow is held and
     * running when shift is held too.
     */
    twostate predicate PlayerWalked(dt: real)
      reads this, PlayerRepr()
    {
      var keys := old(pressedKeys);
      playerObj == old(playerObj) &&
      (old(playerObj).Some? ==>
        playerObj.value.pos == Session.Walk(old(playerObj.value.pos), Session.MoveString(keys), Session.Distance(keys, dt)) &&
        playerObj.value.facing == Session.FacingAfter(keys, old(playerObj.value.facing)) &&
        playerObj.value.moving == (Session.MoveString(keys) != "") &&
        playerObj.value.running == (Session.MoveString(keys) != "" && Session.SHIFT in keys))
    }

    /**
     * What the map branch leaves: with no player nothing happens; otherwise
     * the player walked, the move letters and an interaction (space) were
     * sent, and space was consumed.
     */
    twostate predicate MapStepped(dt: real, sent: seq<string>)
      reads this, PlayerRepr()
    {
      var keys := old(pressedKeys);
      PlayerWalked(dt) &&
      (old(playerObj).None? ==> sent == [] && pressedKeys == keys) &&
      (old(playerObj).Some? ==> sent == MapMessages(keys) && pressedKeys == keys - {SPACE})
    }

    /**
     * The map branch of `update`: each held arrow moves the player and turns
     * it, in the order left, right, up, down; a move sends the letters to
     * the server, running while shift is held, and animates the walk;
     * standing still stops it; space interacts and is consumed.
     */
    method UpdateMap(dt: real) returns (sent: seq<string>)
      requires Valid()
      modifies this`pressedKeys, PlayerRepr()
      ensures Valid() && TogglesKept(pressedKeys, old(pressedKeys)) && MapStepped(dt, sent)
    {
      if playerObj.None? {
        return [];
      }
      var p := playerObj.value;
      var keys := pressedKeys;
      sent := Session.Game.Move(p, keys, dt);
      assert Valid();
      if SPACE in pressedKeys {
        sent := sent + ["interact"];
        pressedKeys := pressedKeys - {SPACE};
      }
      assert sent == MapMessages(keys);
    }

    /**
     * What the log branch leaves: C cleared the log back to its help;
     * otherwise the arrows scrolled it; the three keys are consumed.
     */
    twostate predicate LogStepped()
      reads this, gameLog
    {
      var keys := old(pressedKeys);
      pressedKeys == keys - {Session.KEY_UP, Session.KEY_DOWN, C_KEY} &&
      (C_KEY in keys ==>
        gameLog.messageLog == [] && gameLog.lineStart == 0 &&
        gameLog.wrappedText == Wrap(gameLog.help, measure, gameLog.width)) &&
      (C_KEY !in keys ==>
        gameLog.messageLog == old(gameLog.messageLog) && gameLog.wrappedText == old(gameLog.wrappedText) &&
        gameLog.lineStart == LogScroll(old(gameLog.lineStart), keys, |gameLog.wrappedText|))
    }

    /** The log branch of `update`: the arrows scroll, C clears the log; each key is consumed. */
    method UpdateLog()
      requires gameLog.Valid()
      modifies this`pressedKeys, gameLog
      ensures gameLog.Valid() && TogglesKept(pressedKeys, old(pressedKeys)) && LogStepped()
    {
      if Session.KEY_UP in pressedKeys {
        gameLog.ScrollUp();
        pressedKeys := pressedKeys - {Session.KEY_UP};
      }
      if Session.KEY_DOWN in pressedKeys {
        gameLog.ScrollDown();
        pressedKeys := pressedKeys - {Session.KEY_DOWN};
      }
      if C_KEY in pressedKeys {
        gameLog.Clear(measure);
        pressedKeys := pressedKeys - {C_KEY};
      }
    }

    /** What the menu branch leaves: the cursor moved by the arrows, stopping at either end; both keys consumed. */
    twostate predicate MenuStepped()
      reads this, menu
    {
      var keys := old(pressedKeys);
      pressedKeys == keys - {Session.KEY_UP, Session.KEY_DOWN} && menu.items == old(menu.items) &&
      menu.currentlySelected == MenuCursor(old(menu.currentlySelected), keys, |menu.items|) &&
      (old(menu.InRange()) ==> menu.InRange()) &&
      (Session.KEY_UP in keys || Session.KEY_DOWN in keys ==> menu.wrappedText == Wrap(menu.FocusText(), measure, menu.width)) &&
      (Session.KEY_UP !in keys && Session.KEY_DOWN !in keys ==> menu.wrappedText == old(menu.wrappedText))
    }

    /** The menu branch of `update`: the arrows move the cursor, stopping at either end; each key is consumed. */
    method UpdateMenu()
      modifies this`pressedKeys, menu
      ensures TogglesKept(pressedKeys, old(pressedKeys)) && MenuStepped()
    {
      if Session.KEY_UP in pressedKeys {
        menu.CursorUp(measure);
        pressedKeys := pressedKeys - {Session.KEY_UP};
      }
      if Session.KEY_DOWN in pressedKeys {
        menu.CursorDown(measure);
        pressedKeys := pressedKeys - {Session.KEY_DOWN};
      }
    }

    /**
     * The end of `update`, in every context: L opens or closes the log,
     * else M the menu; the box opened is focused and the box closed is
     * unfocused, while a box left by switching to the other one keeps its
     * text. The key is consumed.
     */
    method Toggles()
      requires gameLog.Valid()
      modifies this`pressedKeys, this`contextMenu, gameLog, menu
      ensures gameLog.Valid()
      ensures contextMenu == ToggleContext(old(contextMenu), old(pressedKeys))
      ensures pressedKeys == old(pressedKeys) - ToggleKey(old(pressedKeys))
      ensures L_KEY in old(pressedKeys) && contextMenu == LogContext ==>
        gameLog.wrappedText == Wrap(gameLog.FocusText(), measure, gameLog.width) && unchanged(menu)
      ensures L_KEY in old(pressedKeys) && contextMenu == MapContext ==>
        gameLog.wrappedText == Wrap(gameLog.UnfocusText(), measure, gameLog.width) && gameLog.lineStart == 0 && unchanged(menu)
      ensures L_KEY !in old(pressedKeys) && M_KEY in old(pressedKeys) && contextMenu == MenuContext ==>
        menu.wrappedText == Wrap(menu.FocusText(), measure, menu.width) && unchanged(gameLog)
      ensures L_KEY !in old(pressedKeys) && M_KEY in old(pressedKeys) && contextMenu == MapContext ==>
        menu.wrappedText == Wrap(menu.openMsg, measure, menu.width) && unchanged(gameLog)
      ensures L_KEY !in old(pressedKeys) && M_KEY !in old(pressedKeys) ==> unchanged(gameLog) && unchanged(menu)
      ensures gameLog.messageLog == old(gameLog.messageLog) && menu.items == old(menu.items)
      ensures menu.currentlySelected == old(menu.currentlySelected)
    {
      if L_KEY in pressedKeys {
        if contextMenu == LogContext {
          contextMenu := MapContext;
          gameLog.Unfocus(measure);
        } else {
          contextMenu := LogContext;
          gameLog.Focus(measure);
        }
        pressedKeys := pressedKeys - {L_KEY};
      } else if M_KEY in pressedKeys {
        if contextMenu == MenuContext {
          contextMenu := MapContext;
          menu.Unfocus(measure);
        } else {
          contextMenu := MenuContext;
          menu.Focus(measure);
        }
        pressedKeys := pressedKeys - {M_KEY};
      }
    }

    /**
     * `update(dt)`: the keys go to the active context, then the toggles
     * are read; what is returned is what was sent to the server.
     */
    method Update(dt: real) returns (sent: seq<string>)
      requires Valid()
      modifies this`pressedKeys, this`contextMenu, PlayerRepr(), gameLog, menu
      ensures Valid()
      ensures contextMenu == ToggleContext(old(contextMenu), old(pressedKeys))
      ensures old(contextMenu) == MapContext ==> sent == (if old(playerObj).None? then [] else MapMessages(old(pressedKeys)))
      ensures old(contextMenu) == MapContext ==> PlayerWalked(dt)
      ensures old(contextMenu) == LogContext ==>
        gameLog.messageLog == (if C_KEY in old(pressedKeys) then [] else old(gameLog.messageLog))
      ensures old(contextMenu) == MenuContext ==>
        menu.items == old(menu.items) &&
        menu.currentlySelected == MenuCursor(old(menu.currentlySelected), old(pressedKeys), |menu.items|)
      ensures old(contextMenu) != MapContext ==> sent == []
    {
      sent := UpdateContext(dt);
      Toggles();
    }

    /** The branch of `update` for the active context; it reads neither L nor M. */
    method UpdateContext(dt: real) returns (sent: seq<string>)
      requires Valid()
      modifies this`pressedKeys, PlayerRepr(), gameLog, menu
      ensures Valid()
      ensures TogglesKept(pressedKeys, old(pressedKeys))
      ensures contextMenu == MapContext ==> MapStepped(dt, sent)
      ensures contextMenu == LogContext ==> LogStepped() && sent == []
      ensures contextMenu == MenuContext ==> MenuStepped() && sent == []
    {
      if contextMenu == MapContext {
        sent := UpdateMap(dt);
        return;
      }
      if contextMenu == LogContext {
        UpdateLog();
        return [];
      }
      UpdateMenu();
      return [];
    }
  }
}
