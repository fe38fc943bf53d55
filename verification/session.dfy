/**
 * The browser client's session (js/index.mjs): the game object that holds
 * the world as the client knows it, the handler of every message the server
 * sends, and the per-frame `update` that routes the keys held down to
 * whichever part of the interface is active.
 *
 * `JSON.parse` and `parseFloat` are parameters (None stands for a
 * SyntaxError); the width of a text on the canvas is the `measure`
 * parameter of the text boxes.
 */
module Session {
  import opened Wrappers
  import opened Json
  import opened Text
  import opened Decimal
  import opened Grids
  import opened Cursors
  import opened ClientGeometry
  import opened TextBoxes
  import opened PlayerState
  import ClientTiles
  import ClientEntities
  import ClientConfig
  import ClientJson
  import Messages
  import ServerGeometry
  import ServerGame
  import Uuids
  import ServerWorld
  import ServerTiles
  import Entities
  import AssocLists

  /** `ContextMenus`: which part of the interface the keys go to. */
  datatype Context = MapContext | LogContext | MenuContext | DialogueContext | BattleContext

  /** The key codes `update` reads. */
  const SHIFT: int := 16
  const KEY_LEFT: int := 37
  const KEY_UP: int := 38
  const KEY_RIGHT: int := 39
  const KEY_DOWN: int := 40
  const A_KEY: int := 65
  const C_KEY: int := 67
  const X_KEY: int := 88
  const Z_KEY: int := 90

  /** The only world format this client reads. */
  const VERSION: string := "0.1.0"

  /** The lines the log and the menu show, which name the keys bound to their actions. */
  datatype HelpTexts = HelpTexts(logHelp: string, logOpen: string, menuHelp: string, menuOpen: string)

  /** The hit points `battlestatus` stores on the battle object (None until set, or NaN). */
  datatype BattleState = BattleState(playerHp: Option<int>, enemyHp: Option<int>)

  // ----- reading messages -----

  /** The message kinds, in the order `handleWSMessage` tests their prefixes. */
  datatype MessageKind =
    | WorldMsg | MovedToMsg | SignTextMsg | PlayersMsg | EntitiesMsg | DialogueMsg | DialogueChoiceMsg
    | DialogueEndMsg | TagMsg | BattleStartMsg | BattleMoveReqMsg | BattleStatusMsg | BattleEndMsg | UnknownMsg

  /** The messages about the map, the player, the other players and the entities. */
  predicate WorldKind(kind: MessageKind)
  {
    kind == WorldMsg || kind == MovedToMsg || kind == PlayersMsg || kind == EntitiesMsg
  }

  /** The messages for the log and the dialogue box. */
  predicate TextKind(kind: MessageKind)
  {
    kind == SignTextMsg || kind == TagMsg || kind == DialogueMsg || kind == DialogueChoiceMsg || kind == DialogueEndMsg
  }

  /** The battle messages. */
  predicate BattleKind(kind: MessageKind)
  {
    kind == BattleStartMsg || kind == BattleMoveReqMsg || kind == BattleStatusMsg || kind == BattleEndMsg
  }

  /** The prefix `handleWSMessage` tests for each kind, in its order. */
  const PREFIXES: seq<(string, MessageKind)> := [
    ("world|", WorldMsg), ("movedto|", MovedToMsg), ("signtext|", SignTextMsg), ("players|", PlayersMsg),
    ("entities|", EntitiesMsg), ("dialogue|", DialogueMsg), ("dialoguechoice|", DialogueChoiceMsg),
    ("dialogueend", DialogueEndMsg), ("tag", TagMsg), ("battlestart", BattleStartMsg),
    ("battlemovereq", BattleMoveReqMsg), ("battlestatus", BattleStatusMsg), ("battleend", BattleEndMsg)
  ]

  /** The kind of the first prefix in `PREFIXES[from..]` that `data` starts with. */
  function ClassifyFrom(data: string, from: nat): MessageKind
    requires from <= |PREFIXES|
    decreases |PREFIXES| - from
  {
    if from == |PREFIXES| then UnknownMsg
    else if StartsWith(data, PREFIXES[from].0) then PREFIXES[from].1
    else ClassifyFrom(data, from + 1)
  }

  /** The handler a message goes to: the first prefix it starts with, or none. */
  function Classify(data: string): MessageKind
  {
    ClassifyFrom(data, 0)
  }

  /**
   * A message goes to the handler of the first prefix in `handleWSMessage`'s
   * order that it starts with, and to none when it starts with none of them.
   */
  lemma {:induction false} ClassifyFirstPrefix(data: string, from: nat)
    requires from <= |PREFIXES|
    decreases |PREFIXES| - from
    ensures var k := ClassifyFrom(data, from);
      (k == UnknownMsg <==> forall i :: from <= i < |PREFIXES| ==> !StartsWith(data, PREFIXES[i].0)) &&
      (k != UnknownMsg ==>
        exists i :: from <= i < |PREFIXES| && PREFIXES[i].1 == k && StartsWith(data, PREFIXES[i].0) &&
          forall j :: from <= j < i ==> !StartsWith(data, PREFIXES[j].0))
  {
    if from < |PREFIXES| {
      ClassifyFirstPrefix(data, from + 1);
      if !StartsWith(data, PREFIXES[from].0) && ClassifyFrom(data, from) != UnknownMsg {
        var i :| from + 1 <= i < |PREFIXES| && PREFIXES[i].1 == ClassifyFrom(data, from) && StartsWith(data, PREFIXES[i].0) &&
          forall j :: from + 1 <= j < i ==> !StartsWith(data, PREFIXES[j].0);
        assert forall j :: from <= j < i ==> !StartsWith(data, PREFIXES[j].0);
      }
    }
  }

  /** Each prefix sends its messages to its own handler: the kinds come in `handleWSMessage`'s order with no repeats. */
  lemma PrefixKindsDistinct()
    ensures forall i, j :: 0 <= i < j < |PREFIXES| ==> PREFIXES[i].1 != PREFIXES[j].1 && PREFIXES[i].1 != UnknownMsg
  {
  }

  /** The `i`th piece, or what JavaScript makes of the missing piece when it is used as a string. */
  function Part(parts: seq<string>, i: nat): string
  {
    if i < |parts| then parts[i] else "undefined"
  }

  /**
   * The JSON text of a `world` message as written: `JSON.parse` is given
   * the array `parts.slice(1)`, which it turns into a string by joining the
   * pieces with commas.
   */
  function WorldPayloadAsWritten(data: string): string
  {
    Join(Split(data, '|')[1..], ",")
  }

  /** The JSON text of a `world` message: everything after the first pipe. */
  function WorldPayload(data: string): string
  {
    Join(Split(data, '|')[1..], "|")
  }

  /** The world's JSON is read back whole, whatever pipes its strings hold. */
  lemma WorldPayloadRoundTrip(worldJson: string)
    ensures WorldPayload(Messages.WorldMessage(worldJson)) == worldJson
  {
    Messages.WorldFraming(worldJson);
  }

  /**
   * As written, a world whose JSON holds a pipe (in a sign's text, say)
   * reaches `JSON.parse` with the pipe turned into a comma, while the
   * payload read whole keeps it.
   */
  lemma WorldPayloadAsWrittenLosesPipes(a: string, b: string)
    requires '|' !in a && '|' !in b
    ensures WorldPayloadAsWritten(Messages.WorldMessage(a + "|" + b)) == a + "," + b
    ensures WorldPayload(Messages.WorldMessage(a + "|" + b)) == a + "|" + b
  {
    assert Messages.WorldMessage(a + "|" + b) == Join(["world", a, b], "|") by {
      Join3("world", a, b, "|");
    }
    SplitJoin(["world", a, b], '|');
    assert Split(Messages.WorldMessage(a + "|" + b), '|')[1..] == [a, b];
    assert Join([a, b], ",") == a + "," + b by {
      assert [a, b][1..] == [b];
    }
    WorldPayloadRoundTrip(a + "|" + b);
  }

  /** `JSON.parse`: a malformed text throws a SyntaxError. */
  function ParseJson(parseJson: string -> Option<Json>, text: string): (r: Result<Json>)
    ensures r.Ok? <==> parseJson(text).Some?
    ensures r.Ok? ==> r.value == parseJson(text).value
    ensures r.Err? ==> r.error == SyntaxError
  {
    match parseJson(text)
    case Some(j) => Ok(j)
    case None => Err(SyntaxError)
  }

  /**
   * What a loop `for (j = 0; j < a.length; j++) ... a[j]` visits in a JSON
   * value: an array's items, a string's characters; any other value has no
   * `length` and gives no items, while `undefined` and null throw.
   */
  function ArrayLike(v: Option<Json>): (r: Result<seq<Json>>)
    ensures r.Err? <==> v.None? || v.value.JNull?
    ensures r.Err? ==> r.error == TypeError
    ensures v.Some? && v.value.JArr? ==> r == Ok(v.value.items)
  {
    if v.None? || v.value.JNull? then Err(TypeError)
    else match v.value
      case JArr(items) => Ok(items)
      case JStr(s) => Ok(Chars(s))
      case _ => Ok([])
  }

  /** A string's characters, each as a one-character string. */
  function Chars(s: string): (r: seq<Json>)
    ensures |r| == |s| && forall k :: 0 <= k < |s| ==> r[k] == JStr([s[k]])
  {
    if |s| == 0 then [] else [JStr([s[0]])] + Chars(s[1..])
  }

  /** The world position of the tile in column `i` of row `j`. */
  function CellPos(i: int, j: int): Vec
  {
    Vec((ClientConfig.BLOCK_WIDTH * i) as real, (ClientConfig.BLOCK_WIDTH * j) as real)
  }

  /** The cells of row `j`, each paired with its world position. */
  function Placed(cells: seq<Json>, j: int): (r: seq<(Json, Vec)>)
    ensures |r| == |cells|
    ensures forall i :: 0 <= i < |cells| ==> r[i] == (cells[i], CellPos(i, j))
  {
    seq(|cells|, i requires 0 <= i < |cells| => (cells[i], CellPos(i, j)))
  }

  /** `Tile.fromJSON` of a cell at its position. */
  function TileAt(reg: seq<(string, ClientTiles.TileClassEntry)>): ((Json, Vec)) -> Result<ClientTiles.TileShape>
  {
    (p: (Json, Vec)) => ClientTiles.ParseTile(reg, p.0, p.1)
  }

  /**
   * The tile shapes the nested loops of the world handler build: row by row,
   * cell by cell, each tile at `(BLOCK_WIDTH*i, BLOCK_WIDTH*j)`; the first
   * failure ends it.
   */
  function ParseGrid(reg: seq<(string, ClientTiles.TileClassEntry)>, rows: seq<Json>): (r: Result<seq<seq<ClientTiles.TileShape>>>)
    ensures r.Ok? ==> |r.value| == |rows|
    ensures r.Ok? ==> forall j :: 0 <= j < |rows| ==>
      ArrayLike(Some(rows[j])).Ok? && |r.value[j]| == |ArrayLike(Some(rows[j])).value| &&
      RowMap(TileAt(reg), Placed(ArrayLike(Some(rows[j])).value, j)) == Ok(r.value[j])
  {
    if |rows| == 0 then Ok([])
    else
      var init :- ParseGrid(reg, rows[..|rows| - 1]);
      var cells :- ArrayLike(Some(rows[|rows| - 1]));
      var row :- RowMap(TileAt(reg), Placed(cells, |rows| - 1));
      assert forall j :: 0 <= j < |rows| - 1 ==> rows[..|rows| - 1][j] == rows[j];
      Ok(init + [row])
  }

  /** Every tile of an accepted grid sits at its cell's position. */
  lemma GridPositions(reg: seq<(string, ClientTiles.TileClassEntry)>, rows: seq<Json>, j: nat, i: nat)
    requires ParseGrid(reg, rows).Ok? && j < |rows| && i < |ParseGrid(reg, rows).value[j]|
    ensures ClientTiles.ShapeAt(ParseGrid(reg, rows).value[j][i], CellPos(i, j))
  {
    var cells := ArrayLike(Some(rows[j])).value;
    var placed := Placed(cells, j);
    assert TileAt(reg)(placed[i]) == ClientTiles.ParseTile(reg, cells[i], CellPos(i, j));
  }

  lemma {:induction false} ParseGridPrefixErr(reg: seq<(string, ClientTiles.TileClassEntry)>, rows: seq<Json>, k: nat)
    requires k <= |rows| && ParseGrid(reg, rows[..k]).Err?
    ensures ParseGrid(reg, rows) == ParseGrid(reg, rows[..k])
    decreases |rows| - k
  {
    if k < |rows| {
      var longer := rows[..k + 1];
      assert longer[..k] == rows[..k];
      assert ParseGrid(reg, longer).Err?;
      ParseGridPrefixErr(reg, rows, k + 1);
    } else {
      assert rows[..k] == rows;
    }
  }

  lemma ParseGridStep(reg: seq<(string, ClientTiles.TileClassEntry)>, rows: seq<Json>, k: nat)
    requires k < |rows| && ParseGrid(reg, rows[..k]).Ok?
    ensures ArrayLike(Some(rows[k])).Err? ==> ParseGrid(reg, rows[..k + 1]) == Err(ArrayLike(Some(rows[k])).error)
    ensures ArrayLike(Some(rows[k])).Ok? && RowMap(TileAt(reg), Placed(ArrayLike(Some(rows[k])).value, k)).Err? ==>
      ParseGrid(reg, rows[..k + 1]) == Err(RowMap(TileAt(reg), Placed(ArrayLike(Some(rows[k])).value, k)).error)
    ensures ArrayLike(Some(rows[k])).Ok? && RowMap(TileAt(reg), Placed(ArrayLike(Some(rows[k])).value, k)).Ok? ==>
      ParseGrid(reg, rows[..k + 1]) ==
        Ok(ParseGrid(reg, rows[..k]).value + [RowMap(TileAt(reg), Placed(ArrayLike(Some(rows[k])).value, k)).value])
  {
    assert rows[..k + 1][..k] == rows[..k];
  }

  /** The built tiles have the shapes of a row of the grid. */
  ghost predicate RowMatches(row: seq<ClientTiles.Tile>, shapes: seq<ClientTiles.TileShape>)
  {
    |row| == |shapes| && forall i :: 0 <= i < |row| ==> row[i].WellNested() && row[i].Shape() == shapes[i]
  }

  /** The built map has the shapes of the grid, row by row. */
  ghost predicate MapMatches(tiles: seq<seq<ClientTiles.Tile>>, grid: seq<seq<ClientTiles.TileShape>>)
  {
    |tiles| == |grid| && forall j :: 0 <= j < |tiles| ==> RowMatches(tiles[j], grid[j])
  }

  /** Appending a tile of the next shape keeps a row matching. */
  lemma RowMatchesAppend(row: seq<ClientTiles.Tile>, shapes: seq<ClientTiles.TileShape>,
                         t: ClientTiles.Tile, shape: ClientTiles.TileShape)
    requires RowMatches(row, shapes) && t.WellNested() && t.Shape() == shape
    ensures RowMatches(row + [t], shapes + [shape])
  {
  }

  /** The inner loop of the world handler: each cell of row `j` becomes a tile at its position. */
  method BuildRow(reg: seq<(string, ClientTiles.TileClassEntry)>, cells: seq<Json>, j: int)
    returns (r: Result<seq<ClientTiles.Tile>>)
    ensures r.Ok? <==> RowMap(TileAt(reg), Placed(cells, j)).Ok?
    ensures r.Err? ==> r.error == RowMap(TileAt(reg), Placed(cells, j)).error
    ensures r.Ok? ==> RowMatches(r.value, RowMap(TileAt(reg), Placed(cells, j)).value)
  {
    var placed := Placed(cells, j);
    var rowTiles: seq<ClientTiles.Tile> := [];
    var i := 0;
    while i < |cells|
      invariant 0 <= i <= |cells|
      invariant RowMap(TileAt(reg), placed[..i]).Ok? && RowMatches(rowTiles, RowMap(TileAt(reg), placed[..i]).value)
    {
      var t := ClientTiles.FromJson(reg, cells[i], CellPos(i, j));
      assert TileAt(reg)(placed[i]) == ClientTiles.ParseTile(reg, cells[i], CellPos(i, j));
      RowMapStep(TileAt(reg), placed, i);
      if t.Err? {
        RowMapPrefixErr(TileAt(reg), placed, i + 1);
        return Err(t.error);
      }
      RowMatchesAppend(rowTiles, RowMap(TileAt(reg), placed[..i]).value, t.value, TileAt(reg)(placed[i]).value);
      rowTiles := rowTiles + [t.value];
      i := i + 1;
    }
    assert placed[..i] == placed;
    return Ok(rowTiles);
  }

  /**
   * The nested loops of the world handler: row by row, each cell becomes
   * a tile at its position; the first failure ends the loops.
   */
  method BuildMap(reg: seq<(string, ClientTiles.TileClassEntry)>, rows: seq<Json>) returns (r: Result<seq<seq<ClientTiles.Tile>>>)
    ensures r.Ok? <==> ParseGrid(reg, rows).Ok?
    ensures r.Err? ==> r.error == ParseGrid(reg, rows).error
    ensures r.Ok? ==> MapMatches(r.value, ParseGrid(reg, rows).value)
  {
    var built: seq<seq<ClientTiles.Tile>> := [];
    var j := 0;
    while j < |rows|
      invariant 0 <= j <= |rows|
      invariant ParseGrid(reg, rows[..j]).Ok? && MapMatches(built, ParseGrid(reg, rows[..j]).value)
    {
      ParseGridStep(reg, rows, j);
      var cells := ArrayLike(Some(rows[j]));
      if cells.Err? {
        ParseGridPrefixErr(reg, rows, j + 1);
        return Err(cells.error);
      }
      var row := BuildRow(reg, cells.value, j);
      if row.Err? {
        ParseGridPrefixErr(reg, rows, j + 1);
        return Err(row.error);
      }
      built := built + [row.value];
      j := j + 1;
    }
    assert rows[..j] == rows;
    return Ok(built);
  }

  /** Reading one entity: its JSON (`toJson`), then `Entity.fromJSON`. */
  function EntityVia<A>(reg: seq<(string, ClientEntities.EntityClassEntry)>, toJson: A -> Result<Json>): A -> Result<ClientEntities.EntityRecord>
  {
    a => var j :- toJson(a); ClientEntities.ParseEntity(reg, j)
  }

  /** The built entities carry the records read, in order. */
  ghost predicate EntitiesMatch(es: seq<ClientEntities.Entity>, recs: seq<ClientEntities.EntityRecord>)
    reads set e | e in es
  {
    |es| == |recs| &&
    forall i :: 0 <= i < |es| ==>
      es[i].entry == recs[i].entry && es[i].name == recs[i].name && es[i].pos == recs[i].pos &&
      es[i].velocity == recs[i].velocity && es[i].facing == recs[i].facing
  }

  lemma MatchAppend(es: seq<ClientEntities.Entity>, recs: seq<ClientEntities.EntityRecord>,
                    e: ClientEntities.Entity, rec: ClientEntities.EntityRecord)
    requires EntitiesMatch(es, recs) && EntitiesMatch([e], [rec])
    ensures EntitiesMatch(es + [e], recs + [rec])
  {
  }

  /**
   * `items.map(...)` to entities. The items are read first and the objects
   * built after: building an entity does nothing but allocate it, so the
   * outcome and the first failure are those of the source's single pass.
   */
  method BuildEntities<A>(reg: seq<(string, ClientEntities.EntityClassEntry)>, items: seq<A>, toJson: A -> Result<Json>)
    returns (r: Result<seq<ClientEntities.Entity>>)
    ensures r.Ok? <==> RowMap(EntityVia(reg, toJson), items).Ok?
    ensures r.Err? ==> r.error == RowMap(EntityVia(reg, toJson), items).error
    ensures r.Ok? ==> EntitiesMatch(r.value, RowMap(EntityVia(reg, toJson), items).value)
    ensures r.Ok? ==> forall e :: e in r.value ==> fresh(e)
  {
    var recs := RowMap(EntityVia(reg, toJson), items);
    if recs.Err? {
      return Err(recs.error);
    }
    var es := NewEntities(recs.value);
    return Ok(es);
  }

  /** `new entityClass(...)` for each record read, in order. */
  method NewEntities(recs: seq<ClientEntities.EntityRecord>) returns (es: seq<ClientEntities.Entity>)
    ensures EntitiesMatch(es, recs)
    ensures forall e :: e in es ==> fresh(e)
  {
    es := [];
    var i := 0;
    while i < |recs|
      invariant 0 <= i <= |recs|
      invariant EntitiesMatch(es, recs[..i])
      invariant forall e :: e in es ==> fresh(e)
    {
      var e := new ClientEntities.Entity(recs[i]);
      MatchAppend(es, recs[..i], e, recs[i]);
      es := es + [e];
      assert recs[..i + 1] == recs[..i] + [recs[i]];
      i := i + 1;
    }
    assert recs[..i] == recs;
  }

  /** A value already parsed. */
  function AsJson(j: Json): Result<Json>
  {
    Ok(j)
  }

  /** `JSON.parse` of a piece of an `entities` message. */
  function JsonText(parseJson: string -> Option<Json>): string -> Result<Json>
  {
    s => ParseJson(parseJson, s)
  }

  /** `filter(Boolean)`: the non-empty pieces, in order. */
  function NonEmpty(parts: seq<string>): (r: seq<string>)
    ensures forall s :: s in r <==> s in parts && s != ""
    ensures |r| <= |parts|
  {
    if |parts| == 0 then []
    else (if parts[0] == "" then [] else [parts[0]]) + NonEmpty(parts[1..])
  }

  /**
   * The other players a `players` message lists, reading from piece `i`
   * on: name, x and y, three pieces at a time, while a name is left.
   */
  function PlayersFrom(parts: seq<string>, i: nat, parseFloat: string -> real): (r: seq<(string, Vec)>)
    decreases |parts| - i
    ensures i < |parts| ==> |r| == (|parts| - i + 2) / 3
    ensures i >= |parts| ==> r == []
  {
    if i >= |parts| then []
    else [(parts[i], Vec(parseFloat(Part(parts, i + 1)), parseFloat(Part(parts, i + 2))))] + PlayersFrom(parts, i + 3, parseFloat)
  }

  lemma RegroupPlayers(a: seq<(string, Vec)>, b: seq<(string, Vec)>, c: seq<(string, Vec)>)
    ensures a + (b + c) == (a + b) + c
  {
  }

  /** The other players as the client holds them: the server's names and positions. */
  function Received(entries: seq<(string, ServerGeometry.Vec)>): (r: seq<(string, Vec)>)
    ensures |r| == |entries|
    ensures forall i :: 0 <= i < |entries| ==> r[i] == (entries[i].0, Vec(entries[i].1.x, entries[i].1.y))
  {
    if |entries| == 0 then [] else [(entries[0].0, Vec(entries[0].1.x, entries[0].1.y))] + Received(entries[1..])
  }

  /**
   * Reading the pieces `name|x|y` the server writes for each player, after
   * any first pieces, gives back every name and position in order, when the
   * client reads numbers back as the server wrote them.
   */
  lemma {:induction false} PlayersFromFields(first: seq<string>, entries: seq<(string, ServerGeometry.Vec)>,
                                             fmt: real -> string, parseFloat: string -> real)
    requires forall x :: parseFloat(fmt(x)) == x
    ensures PlayersFrom(first + Messages.PlayerFields(entries, fmt), |first|, parseFloat) == Received(entries)
    decreases |entries|
  {
    var parts := first + Messages.PlayerFields(entries, fmt);
    if |entries| == 0 {
      assert parts == first;
    } else {
      var e := entries[0];
      var next := first + [e.0, fmt(e.1.x), fmt(e.1.y)];
      assert parts == next + Messages.PlayerFields(entries[1..], fmt);
      assert parts[|first|] == e.0 && Part(parts, |first| + 1) == fmt(e.1.x) && Part(parts, |first| + 2) == fmt(e.1.y);
      PlayersFromFields(next, entries[1..], fmt, parseFloat);
      assert Received(entries) == [(e.0, Vec(e.1.x, e.1.y))] + Received(entries[1..]);
    }
  }

  /**
   * A `players` message from the server gives the client every other
   * player of its world, by name and position and in order; when there is
   * nobody to list, the client still makes one player with an empty name.
   */
  lemma PlayersFromServer(players: seq<ServerGame.Player>, me: string, worldId: string,
                          fmt: real -> string, parseFloat: string -> real)
    requires Messages.PipeFree(fmt) && forall x :: parseFloat(fmt(x)) == x
    requires forall p :: p in players ==> '|' !in p.username
    ensures var listed := Messages.Listed(Messages.Others(players, me, worldId));
      var got := PlayersFrom(Split(Messages.PlayersMessage(players, me, worldId, fmt), '|'), 1, parseFloat);
      (|listed| > 0 ==> got == Received(listed)) &&
      (|listed| == 0 ==> got == [("", Vec(parseFloat("undefined"), parseFloat("undefined")))])
  {
    var listed := Messages.Listed(Messages.Others(players, me, worldId));
    Messages.PlayersFraming(players, me, worldId, fmt);
    if |listed| > 0 {
      PlayersFromFields(["players"], listed, fmt, parseFloat);
    } else {
      assert Split(Messages.PlayersMessage(players, me, worldId, fmt), '|') == ["players", ""];
    }
  }

  /** The log line a `tag` message adds, for the player named `me`. */
  function TagText(me: string, parts: seq<string>): (msg: string)
  {
    var tagger := Part(parts, 1);
    var tagged := Part(parts, 2);
    if 1 < |parts| && me == parts[1] then "You tagged " + tagged + "!"
    else if 2 < |parts| && me == parts[2] then "You were tagged by " + tagger + "!"
    else tagger + " tagged " + tagged + "!"
  }

  /**
   * The tag the server sends (`tag|tagger|tagged`) is told to the tagger
   * as their tag, to the tagged player as a tag on them, and to everyone
   * else with both names; a player who tags themself reads that they did.
   */
  lemma TagTextFromServer(me: string, tagger: string, tagged: string)
    requires '|' !in tagger && '|' !in tagged
    ensures var parts := Split("tag|" + tagger + "|" + tagged, '|');
      TagText(me, parts) ==
        if me == tagger then "You tagged " + tagged + "!"
        else if me == tagged then "You were tagged by " + tagger + "!"
        else tagger + " tagged " + tagged + "!"
  {
    assert "tag|" + tagger + "|" + tagged == "tag" + "|" + tagger + "|" + tagged;
    Join3("tag", tagger, tagged, "|");
    SplitJoin(["tag", tagger, tagged], '|');
  }

  /** The text of a `dialogue` message: every piece after the UUID, re-joined with pipes. */
  function DialogueText(parts: seq<string>): string
  {
    if |parts| <= 2 then "" else Join(parts[2..], "|")
  }

  /** A `dialogue` message from the server gives the speaker's UUID and the whole text, pipes and all. */
  lemma DialogueFromServer(u: Uuids.Uuid, text: string)
    ensures var parts := Split(Messages.Dialogue(u, text), '|');
      Part(parts, 1) == Uuids.Hex(u) && DialogueText(parts) == text
  {
    Messages.DialogueFraming(u, text);
  }

  /** The battle's hit points after a `battlestatus` message: `parseInt` of the second and third pieces. */
  function StatusOf(parts: seq<string>): (b: BattleState)
  {
    BattleState(JsParseInt(Part(parts, 1)), JsParseInt(Part(parts, 2)))
  }

  /** The client stores exactly the hit points the server reported. */
  lemma StatusFromServer(playerHp: int, enemyHp: int)
    ensures StatusOf(Split(Messages.BattleStatus(playerHp, enemyHp), '|')) == BattleState(Some(playerHp), Some(enemyHp))
  {
    Messages.BattleStatusFraming(playerHp, enemyHp);
  }

  /** What the world handler reads before it looks at the version: the world, and where to spawn. */
  datatype WorldHeader = WorldHeader(world: Json, spawn: Vec, current: bool)

  /**
   * `JSON.parse` of the payload, then `world.tiles` (a TypeError on null)
   * and `new Vec(world.spawn_pos.x, world.spawn_pos.y)`; `current` is
   * whether `world.version` is this client's version.
   */
  function ReadWorldHeader(parseJson: string -> Option<Json>, data: string): (r: Result<WorldHeader>)
    ensures parseJson(WorldPayload(data)).None? ==> r == Err(SyntaxError)
    ensures r.Ok? ==> parseJson(WorldPayload(data)) == Some(r.value.world) && !r.value.world.JNull?
    ensures r.Ok? ==> (r.value.current <==> JsGet(r.value.world, "version") == Ok(Some(JStr(VERSION))))
  {
    var world :- ParseJson(parseJson, WorldPayload(data));
    if world.JNull? then Err(TypeError)
    else
      var spawn :- ClientJson.VecField(world, "spawn_pos");
      Ok(WorldHeader(world, spawn, JsGet(world, "version").value == Some(JStr(VERSION))))
  }

  /**
   * A world message the server builds with `to_json_client(spawn_pos)`, and
   * that `JSON.parse` reads back as the object `json.dumps` wrote, is taken
   * by the client as a world of its own version, spawning the player at
   * `spawn_pos`.
   */
  lemma ServerWorldHeader(w: ServerWorld.World, treg: seq<(string, ServerTiles.TileClass)>,
                          ereg: seq<(string, Entities.EntityClass)>, spawnPos: ServerGeometry.Vec,
                          parseJson: string -> Option<Json>, text: string)
    requires w.ClientForm(treg, ereg, spawnPos).Ok?
    requires parseJson(text) == Some(w.ClientForm(treg, ereg, spawnPos).value)
    ensures var h := ReadWorldHeader(parseJson, Messages.WorldMessage(text));
      h.Ok? && h.value.world == w.ClientForm(treg, ereg, spawnPos).value && h.value.current &&
      h.value.spawn == Vec(spawnPos.x, spawnPos.y)
  {
    var sent := w.ClientForm(treg, ereg, spawnPos).value;
    WorldPayloadRoundTrip(text);
    ServerWorld.ClientFormFields(w, treg, ereg, spawnPos);
    ReadsSentHeader(parseJson, Messages.WorldMessage(text), sent, spawnPos.x, spawnPos.y);
  }

  /** The header read from an object whose `version` and `spawn_pos` are as `to_json_client` writes them. */
  lemma ReadsSentHeader(parseJson: string -> Option<Json>, data: string, sent: Json, x: real, y: real)
    requires parseJson(WorldPayload(data)) == Some(sent)
    requires PyGet(sent, "version") == Ok(JStr(VERSION))
    requires PyGet(sent, "spawn_pos") == Ok(JObj([("x", JNum(x)), ("y", JNum(y))]))
    ensures ReadWorldHeader(parseJson, data) == Ok(WorldHeader(sent, Vec(x, y), true))
  {
    var spawn := JObj([("x", JNum(x)), ("y", JNum(y))]);
    assert JsGet(sent, "spawn_pos") == Ok(Some(spawn));
    assert JsGet(spawn, "x") == Ok(Some(JNum(x)));
    assert "x"[0] != "y"[0];
    AssocLists.FindPair("x", JNum(x), "y", JNum(y));
    assert JsGet(spawn, "y") == Ok(Some(JNum(y)));
    assert JsGet(sent, "version") == Ok(Some(JStr(VERSION)));
  }

  /** The tiles of a current world, row by row; a missing or null `tiles` is a TypeError. */
  function WorldGrid(reg: seq<(string, ClientTiles.TileClassEntry)>, world: Json): (r: Result<seq<seq<ClientTiles.TileShape>>>)
    requires !world.JNull?
  {
    var rows :- ArrayLike(JsGet(world, "tiles").value);
    ParseGrid(reg, rows)
  }

  /** `world.entities.map(Entity.fromJSON)`: only an array has `map`; anything else is a TypeError. */
  function WorldEntities(reg: seq<(string, ClientEntities.EntityClassEntry)>, world: Json): (r: Result<seq<ClientEntities.EntityRecord>>)
    requires !world.JNull?
    ensures JsGet(world, "entities").value.None? ==> r == Err(TypeError)
  {
    var e := JsGet(world, "entities").value;
    if e.Some? && e.value.JArr? then RowMap(EntityVia(reg, AsJson), e.value.items)
    else Err(TypeError)
  }

  /** The context after a message: dialogue messages open the dialogue, battles their own, and the ends go back to the map. */
  function NextContext(k: MessageKind, ctx: Context): Context
  {
    match k
    case DialogueMsg => DialogueContext
    case DialogueChoiceMsg => DialogueContext
    case DialogueEndMsg => MapContext
    case BattleStartMsg => BattleContext
    case BattleEndMsg => MapContext
    case _ => ctx
  }

  /** How far the world handler gets with a message. */
  datatype WorldStage =
    | HeaderFailed(failure: Failure)
    | OtherVersion
    | TilesFailed(failure: Failure)
    | EntitiesFailed(failure: Failure, grid: seq<seq<ClientTiles.TileShape>>)
    | Loaded(grid: seq<seq<ClientTiles.TileShape>>, recs: seq<ClientEntities.EntityRecord>, spawn: Vec)

  /** The header, then (for this version) the tiles, then the entities. */
  function WorldStageOf(treg: seq<(string, ClientTiles.TileClassEntry)>, ereg: seq<(string, ClientEntities.EntityClassEntry)>,
                        parseJson: string -> Option<Json>, data: string): (st: WorldStage)
    ensures parseJson(WorldPayload(data)).None? ==> st == HeaderFailed(SyntaxError)
  {
    match ReadWorldHeader(parseJson, data)
    case Err(e) => HeaderFailed(e)
    case Ok(h) =>
      if !h.current then OtherVersion else LoadStage(treg, ereg, h.world, h.spawn)
  }

  /** How far loading a world of this version gets: the tiles, then the entities. */
  function LoadStage(treg: seq<(string, ClientTiles.TileClassEntry)>, ereg: seq<(string, ClientEntities.EntityClassEntry)>,
                     world: Json, spawn: Vec): (st: WorldStage)
    requires !world.JNull?
    ensures st.TilesFailed? || st.EntitiesFailed? || st.Loaded?
  {
    match WorldGrid(treg, world)
    case Err(e) => TilesFailed(e)
    case Ok(grid) =>
      match WorldEntities(ereg, world)
      case Err(e) => EntitiesFailed(e, grid)
      case Ok(recs) => Loaded(grid, recs, spawn)
  }

  // ----- the frame update -----

  /** The distance the player walks in a frame of `dt` seconds: doubled while shift is held. */
  function Distance(keys: set<int>, dt: real): real
  {
    (ClientConfig.PLAYER_SPEED as real) * dt * (if SHIFT in keys then ClientConfig.SPEED_MULTIPLIER as real else 1.0)
  }

  /** The directions held, as the letters of the move message: left, right, up, down in that order. */
  function MoveString(keys: set<int>): (s: string)
    ensures s == "" <==> KEY_LEFT !in keys && KEY_RIGHT !in keys && KEY_UP !in keys && KEY_DOWN !in keys
    ensures forall k :: 0 <= k < |s| ==> s[k] in "lrud"
  {
    Letter(KEY_LEFT in keys, 'l') + Letter(KEY_RIGHT in keys, 'r') + Letter(KEY_UP in keys, 'u') + Letter(KEY_DOWN in keys, 'd')
  }

  /** The offset one held direction moves the player by. */
  function Step(c: char, dist: real): Vec
  {
    match c
    case 'l' => Vec(-dist, 0.0)
    case 'r' => Vec(dist, 0.0)
    case 'u' => Vec(0.0, -dist)
    case _ => Vec(0.0, dist)
  }

  /** The position after the moves of `letters`, one after the other. */
  function Walk(p: Vec, letters: string, dist: real): Vec
  {
    if |letters| == 0 then p else Add(Walk(p, letters[..|letters| - 1], dist), Step(letters[|letters| - 1], dist))
  }

  /**
   * In a frame the player moves `dist` along each held direction: opposite
   * directions cancel, and two perpendicular ones move it diagonally.
   */
  lemma WalkOffset(p: Vec, keys: set<int>, dist: real)
    ensures var w := Walk(p, MoveString(keys), dist);
      w.x == p.x + (if KEY_RIGHT in keys then dist else 0.0) - (if KEY_LEFT in keys then dist else 0.0) &&
      w.y == p.y + (if KEY_DOWN in keys then dist else 0.0) - (if KEY_UP in keys then dist else 0.0)
  {
    WalkLetters(p, KEY_LEFT in keys, KEY_RIGHT in keys, KEY_UP in keys, KEY_DOWN in keys, dist);
  }

  lemma WalkLetters(p: Vec, left: bool, right: bool, up: bool, down: bool, dist: real)
    ensures var w := Walk(p, Letter(left, 'l') + Letter(right, 'r') + Letter(up, 'u') + Letter(down, 'd'), dist);
      w.x == p.x + (if right then dist else 0.0) - (if left then dist else 0.0) &&
      w.y == p.y + (if down then dist else 0.0) - (if up then dist else 0.0)
  {
    var l, r, u := Letter(left, 'l'), Letter(right, 'r'), Letter(up, 'u');
    assert Walk(p, "", dist) == p;
    assert "" + l == l;
    WalkAppend(p, "", left, 'l', dist);
    WalkAppend(p, l, right, 'r', dist);
    WalkAppend(p, l + r, up, 'u', dist);
    WalkAppend(p, l + r + u, down, 'd', dist);
  }

  /** The letter `c` when `held`, else nothing. */
  function Letter(held: bool, c: char): string
  {
    if held then [c] else ""
  }

  /** Walking a prefix and then one more letter, if it is held. */
  lemma WalkAppend(p: Vec, s: string, held: bool, c: char, dist: real)
    ensures Walk(p, s + Letter(held, c), dist) == if held then Add(Walk(p, s, dist), Step(c, dist)) else Walk(p, s, dist)
  {
    assert (s + Letter(held, c))[..|s|] == s;
    if !held {
      assert s + Letter(held, c) == s;
    }
  }

  /**
   * Each letter the client sends is one the server's `vec_from_direction_str`
   * reads, as the unit vector along which the client moved the player.
   */
  lemma StepMatchesServer(keys: set<int>, dist: real, k: nat)
    requires k < |MoveString(keys)|
    ensures var c := MoveString(keys)[k];
      var u := ServerGeometry.VecFromDirectionStr([c]);
      u.Some? && Step(c, dist) == Vec(u.value.x * dist, u.value.y * dist)
  {
    var c := MoveString(keys)[k];
    assert c in "lrud";
  }

  /** The message a frame of walking sends: `fastmove|` while shift is held, else `move|`; none when standing. */
  function MoveMessages(keys: set<int>): (msgs: seq<string>)
    ensures |msgs| <= 1 && (|msgs| == 1 <==> MoveString(keys) != "")
  {
    if MoveString(keys) == "" then []
    else [(if SHIFT in keys then "fastmove|" else "move|") + MoveString(keys)]
  }

  /** The way the player faces after a frame: the last held direction of left, right, up, down. */
  function FacingAfter(keys: set<int>, f: Dir): (d: Dir)
    ensures MoveString(keys) == "" ==> d == f
  {
    if KEY_DOWN in keys then Down
    else if KEY_UP in keys then Up
    else if KEY_RIGHT in keys then Right
    else if KEY_LEFT in keys then Left
    else f
  }

  /** What a dialogue choice names as its NPC: the UUID, or the text of a null one. */
  function UuidText(u: Option<string>): string
  {
    if u.Some? then u.value else "null"
  }

  /**
   * The context after the toggle keys: A opens the log or closes it, C the
   * menu; A wins when both are held; a dialogue or a battle ignores both.
   */
  function ToggleContext(ctx: Context, keys: set<int>): (r: Context)
    ensures (ctx == DialogueContext || ctx == BattleContext) ==> r == ctx
    ensures ctx != DialogueContext && ctx != BattleContext && A_KEY in keys ==>
      r == (if ctx == LogContext then MapContext else LogContext)
    ensures ctx != DialogueContext && ctx != BattleContext && A_KEY !in keys && C_KEY in keys ==>
      r == (if ctx == MenuContext then MapContext else MenuContext)
    ensures A_KEY !in keys && C_KEY !in keys ==> r == ctx
  {
    if ctx == DialogueContext || ctx == BattleContext then ctx
    else if A_KEY in keys then (if ctx == LogContext then MapContext else LogContext)
    else if C_KEY in keys then (if ctx == MenuContext then MapContext else MenuContext)
    else ctx
  }

  /** The key a toggle consumes: A, else C, in the contexts that read them. */
  function ToggleKey(ctx: Context, keys: set<int>): (ks: set<int>)
    ensures ks <= {A_KEY, C_KEY}
    ensures ks == {} <==> ToggleContext(ctx, keys) == ctx && !(ctx != DialogueContext && ctx != BattleContext && (A_KEY in keys || C_KEY in keys))
  {
    if ctx == DialogueContext || ctx == BattleContext then {}
    else if A_KEY in keys then {A_KEY}
    else if C_KEY in keys then {C_KEY}
    else {}
  }

  /**
   * Pressing the same toggle twice from the map, or from the context it
   * opens, comes back to where it started; from the other box it goes
   * through its own box to the map.
   */
  lemma ToggleTwice(ctx: Context, key: int)
    requires key == A_KEY || key == C_KEY
    requires ctx == MapContext || ctx == LogContext || ctx == MenuContext
    ensures var opens := if key == A_KEY then LogContext else MenuContext;
      ToggleContext(ToggleContext(ctx, {key}), {key}) == if ctx == MapContext || ctx == opens then ctx else MapContext
  {
  }

  /** The log's first line after the arrows of a frame: up first, then down. */
  function LogScroll(lineStart: int, keys: set<int>, lines: int): int
  {
    var up := if KEY_UP in keys then ClampUp(lineStart) else lineStart;
    if KEY_DOWN in keys then ClampDown(up, lines - 1) else up
  }

  /** The menu's cursor after the arrows of a frame: up first, then down, wrapping around. */
  function MenuCursor(c: int, keys: set<int>, n: int): int
  {
    var up := if KEY_UP in keys then WrapUp(c, n) else c;
    if KEY_DOWN in keys then WrapDown(up, n) else up
  }

  /** Up and down in the same frame leave a menu's cursor where it was. */
  lemma MenuArrowsCancel(c: int, n: int)
    requires n > 0 && 0 <= c < n
    ensures MenuCursor(c, {KEY_UP, KEY_DOWN}, n) == c
  {
    WrapInverse(c, n);
  }

  /** The message a dialogue choice sends: `dialoguechoose|`, the NPC's UUID, and the option's index. */
  function ChooseMessage(uuid: Option<string>, selected: int): string
  {
    "dialoguechoose|" + UuidText(uuid) + "|" + IntToString(selected)
  }

  /** The server reads the NPC's UUID and the chosen index back from a choice. */
  lemma ChooseMessageFraming(uuid: string, selected: int)
    requires '|' !in uuid
    ensures var parts := Split(ChooseMessage(Some(uuid), selected), '|');
      parts == ["dialoguechoose", uuid, IntToString(selected)] && JsParseInt(parts[2]) == Some(selected)
  {
    var digits := IntToString(selected);
    assert ChooseMessage(Some(uuid), selected) == "dialoguechoose" + "|" + uuid + "|" + digits;
    Join3("dialoguechoose", uuid, digits, "|");
    SplitJoin(["dialoguechoose", uuid, digits], '|');
    IntToStringRoundTrip(selected);
  }

  // ----- the game -----

  /** `Game`, after `initialize` has made its text boxes. */
  class Game {
    const username: string
    const help: HelpTexts
    const measure: string -> real
    /** The tile and entity classes registered when the client's modules load. */
    const tileRegistry: seq<(string, ClientTiles.TileClassEntry)>
    const entityRegistry: seq<(string, ClientEntities.EntityClassEntry)>
    const gameLog: GameLog
    const menu: Menu
    const dialogueBox: DialogueBox
    var pressedKeys: set<int>
    var playerObj: Option<Player>
    var otherPlayerObjs: seq<OtherPlayer>
    var tiles: seq<seq<ClientTiles.Tile>>
    var entities: seq<ClientEntities.Entity>
    var contextMenu: Context
    var battle: Option<BattleState>

    /** The player and its four walks, while there is a player. */
    ghost function PlayerRepr(): set<object>
      reads this
    {
      if playerObj.Some? then
        var p := playerObj.value;
        {p, p.leftAnimation, p.upAnimation, p.rightAnimation, p.downAnimation}
      else {}
    }

    /** The player object alone, whose position the server may set. */
    function PlayerSet(): set<object>
      reads this
    {
      if playerObj.Some? then {playerObj.value} else {}
    }

    ghost predicate Valid()
      reads this, gameLog, dialogueBox, PlayerRepr()
    {
      gameLog.Valid() && dialogueBox.Valid() && (playerObj.Some? ==> playerObj.value.Valid())
    }

    /**
     * `new Game(ws, username)` then `initialize()`: no player yet, an empty
     * world, the map context, and the log, the menu (with its two items)
     * and the dialogue box made closed.
     */
    constructor (username: string, help: HelpTexts, measure: string -> real,
                 tileRegistry: seq<(string, ClientTiles.TileClassEntry)>,
                 entityRegistry: seq<(string, ClientEntities.EntityClassEntry)>)
      ensures Valid() && fresh(gameLog) && fresh(menu) && fresh(dialogueBox)
      ensures this.username == username && this.help == help && this.measure == measure
      ensures this.tileRegistry == tileRegistry && this.entityRegistry == entityRegistry
      ensures pressedKeys == {} && playerObj.None? && otherPlayerObjs == [] && tiles == [] && entities == []
      ensures contextMenu == MapContext && battle.None?
      ensures gameLog.messageLog == [] && gameLog.wrappedText == Wrap(help.logOpen, measure, gameLog.width)
      ensures menu.items == ["Profile", "Inventory"] && menu.currentlySelected == 0 && menu.InRange()
      ensures menu.wrappedText == Wrap(help.menuOpen, measure, menu.width)
      ensures dialogueBox.state.None?
    {
      var log := new GameLog(250.0, help.logOpen, measure);
      var m := new Menu(250.0, help.menuOpen, measure);
      m.AddItem("Profile", false, help.menuHelp, help.menuOpen, measure);
      m.AddItem("Inventory", false, help.menuHelp, help.menuOpen, measure);
      var box := new DialogueBox(500.0, 100.0);
      this.username := username;
      this.help := help;
      this.measure := measure;
      this.tileRegistry := tileRegistry;
      this.entityRegistry := entityRegistry;
      gameLog := log;
      menu := m;
      dialogueBox := box;
      pressedKeys := {};
      playerObj := None;
      otherPlayerObjs := [];
      tiles := [];
      entities := [];
      contextMenu := MapContext;
      battle := None;
    }

    /** The `keydown` listener: the key's code is held. */
    method KeyDown(code: int)
      modifies this`pressedKeys
      ensures pressedKeys == old(pressedKeys) + {code}
    {
      pressedKeys := pressedKeys + {code};
    }

    /** The `keyup` listener: the key's code is no longer held. */
    method KeyUp(code: int)
      modifies this`pressedKeys
      ensures pressedKeys == old(pressedKeys) - {code}
    {
      pressedKeys := pressedKeys - {code};
    }

    /**
     * `getEntity(uuid)`: the first entity whose `uuid` property is `===` to
     * `uuid`. The client's entities (js/index/entity.mjs) have no such
     * property, so only `getEntity(undefined)` finds one: the first entity.
     */
    function GetEntity(uuid: Option<Json>): (r: Option<ClientEntities.Entity>)
      reads this
      ensures r.Some? <==> uuid.None? && |entities| > 0
      ensures r.Some? ==> r.value == entities[0]
    {
      if uuid.None? && |entities| > 0 then Some(entities[0]) else None
    }
    /**
     * The `world` handler. The world is parsed and its spawn point read
     * first; a world of another version is then ignored. Otherwise the map
     * is cleared and rebuilt tile by tile, then the entities are rebuilt,
     * then the player is moved to the spawn point or made there. A failure
     * stops the handler where it happens, keeping what was already done.
     */
    method HandleWorld(data: string, parseJson: string -> Option<Json>) returns (r: Result<()>)
      requires Valid()
      modifies this`tiles, this`entities, this`playerObj, PlayerSet()
      ensures Valid() && WorldHandled(data, parseJson, r)
    {
      var h := ReadWorldHeader(parseJson, data);
      if h.Err? {
        return Err(h.error);
      }
      if !h.value.current {
        return Ok(());
      }
      r := LoadWorld(h.value.world, h.value.spawn);
    }

    /** A world of this version: the map, then the entities, then the player at the spawn point. */
    method LoadWorld(world: Json, spawn: Vec) returns (r: Result<()>)
      requires Valid() && !world.JNull?
      modifies this`tiles, this`entities, this`playerObj, PlayerSet()
      ensures Valid() && StageLeft(LoadStage(tileRegistry, entityRegistry, world, spawn), r)
    {
      r := LoadTiles(world);
      if r.Err? {
        return;
      }
      r := LoadPeople(world, spawn);
    }

    /**
     * What the `world` handler leaves, by the stage `WorldStageOf` says it
     * reaches: it succeeds when the world is loaded or of another version
     * and otherwise fails as that stage says; the entities and the player
     * change only when the world is loaded; the map is kept up to the
     * header, emptied when its tiles fail and rebuilt after; a loaded world
     * has fresh entities as listed and the player at the spawn point.
     */
    twostate predicate WorldHandled(data: string, parseJson: string -> Option<Json>, new r: Result<()>)
      reads this, PlayerRepr(), set e | e in entities
    {
      StageLeft(WorldStageOf(tileRegistry, entityRegistry, parseJson, data), r)
    }

    /** What loading leaves once it has reached the stage `st`, as `WorldHandled` says. */
    twostate predicate StageLeft(st: WorldStage, new r: Result<()>)
      reads this, PlayerRepr(), set e | e in entities
    {
      (st.Loaded? || st.OtherVersion? ==> r == Ok(())) && (!st.Loaded? && !st.OtherVersion? ==> r == Err(st.failure)) &&
      (!st.Loaded? ==> entities == old(entities) && playerObj == old(playerObj) && PosKept(old(playerObj), old(PlayerPos()))) &&
      (st.HeaderFailed? || st.OtherVersion? ==> tiles == old(tiles)) &&
      (st.TilesFailed? ==> tiles == []) &&
      (st.EntitiesFailed? || st.Loaded? ==> MapMatches(tiles, st.grid)) &&
      (st.Loaded? ==>
        EntitiesMatch(entities, st.recs) && (forall e :: e in entities ==> fresh(e)) &&
        playerObj.Some? && playerObj.value.pos == st.spawn && (old(playerObj).Some? ==> playerObj == old(playerObj)))
    }

    /** The entities, then the player at the spawn point; a failure leaves both as they were. */
    method LoadPeople(world: Json, spawn: Vec) returns (r: Result<()>)
      requires Valid() && !world.JNull?
      modifies this`entities, this`playerObj, PlayerSet()
      ensures Valid()
      ensures var recs := WorldEntities(entityRegistry, world);
        (recs.Err? ==>
          r == Err(recs.error) && entities == old(entities) && playerObj == old(playerObj) &&
          PosKept(old(playerObj), old(PlayerPos()))) &&
        (recs.Ok? ==>
          r == Ok(()) && EntitiesMatch(entities, recs.value) && (forall e :: e in entities ==> fresh(e)) &&
          playerObj.Some? && playerObj.value.pos == spawn && (old(playerObj).Some? ==> playerObj == old(playerObj)))
    {
      r := LoadEntities(world);
      if r.Err? {
        return;
      }
      ghost var loaded := entities;
      Spawn(spawn);
      assert entities == loaded;
    }

    /** Where the player stands, if there is one. */
    function PlayerPos(): Option<Vec>
      reads this, PlayerRepr()
    {
      if playerObj.Some? then Some(playerObj.value.pos) else None
    }

    /** The player, if any, still stands where it stood. */
    predicate PosKept(p: Option<Player>, pos: Option<Vec>)
      reads this, PlayerRepr()
    {
      p.Some? && p == playerObj ==> pos == Some(p.value.pos)
    }

    /** `clearMap`, then the nested loops that rebuild the map; a failure leaves it empty. */
    method LoadTiles(world: Json) returns (r: Result<()>)
      requires !world.JNull?
      modifies this`tiles
      ensures var grid := WorldGrid(tileRegistry, world);
        (grid.Err? ==> r == Err(grid.error) && tiles == []) &&
        (grid.Ok? ==> r == Ok(()) && MapMatches(tiles, grid.value))
    {
      tiles := [];
      var rows := ArrayLike(JsGet(world, "tiles").value);
      if rows.Err? {
        return Err(rows.error);
      }
      var built := BuildMap(tileRegistry, rows.value);
      if built.Err? {
        return Err(built.error);
      }
      tiles := built.value;
      return Ok(());
    }

    /** `game.entities = world.entities.map(Entity.fromJSON)`: a failure leaves the entities as they were. */
    method LoadEntities(world: Json) returns (r: Result<()>)
      requires !world.JNull?
      modifies this`entities
      ensures var recs := WorldEntities(entityRegistry, world);
        (recs.Err? ==> r == Err(recs.error) && entities == old(entities)) &&
        (recs.Ok? ==> r == Ok(()) && EntitiesMatch(entities, recs.value) && forall e :: e in entities ==> fresh(e))
    {
      var e := JsGet(world, "entities").value;
      if !(e.Some? && e.value.JArr?) {
        return Err(TypeError);
      }
      var es := BuildEntities(entityRegistry, e.value.items, AsJson);
      if es.Err? {
        return Err(es.error);
      }
      entities := es.value;
      return Ok(());
    }

    /** The player moves to the spawn point, or is made there when there is none yet. */
    method Spawn(spawn: Vec)
      requires Valid()
      modifies this`playerObj, PlayerSet()
      ensures Valid() && playerObj.Some? && playerObj.value.pos == spawn
      ensures old(playerObj).Some? ==> playerObj == old(playerObj)
    {
      if playerObj.Some? {
        playerObj.value.MoveTo(spawn);
      } else {
        var p := new Player(spawn);
        playerObj := Some(p);
      }
    }

    /** What the `movedto` handler leaves: the player where the server says, or, with no player, a `TypeError`. */
    predicate MovedTo(parts: seq<string>, parseFloat: string -> real, r: Result<()>)
      reads this, PlayerSet()
    {
      (r.Err? <==> playerObj.None?) && (r.Err? ==> r.error == TypeError) &&
      (r.Ok? ==> playerObj.value.pos == Vec(parseFloat(Part(parts, 1)), parseFloat(Part(parts, 2))))
    }

    /** The `movedto` handler: the player is put where the server says; with no player yet it throws. */
    method HandleMovedTo(parts: seq<string>, parseFloat: string -> real) returns (r: Result<()>)
      requires Valid()
      modifies PlayerSet()
      ensures Valid() && MovedTo(parts, parseFloat, r)
    {
      if playerObj.None? {
        return Err(TypeError);
      }
      playerObj.value.MoveTo(Vec(parseFloat(Part(parts, 1)), parseFloat(Part(parts, 2))));
      return Ok(());
    }

    /**
     * `msg` went to the top of the log, and the log's text is wrapped again,
     * with the log's help while the log has the keys and its hint otherwise.
     */
    twostate predicate Logged(msg: string)
      reads this, gameLog
    {
      gameLog.messageLog == [msg] + old(gameLog.messageLog) &&
      (contextMenu == LogContext ==> gameLog.wrappedText == Wrap(gameLog.FocusText(help.logHelp), measure, gameLog.width)) &&
      (contextMenu != LogContext ==> gameLog.wrappedText == Wrap(gameLog.UnfocusText(help.logOpen), measure, gameLog.width))
    }

    /** The `signtext` handler: the sign's whole text, pipes and all, goes to the top of the log. */
    method HandleSignText(parts: seq<string>)
      requires Valid() && |parts| >= 1
      modifies gameLog
      ensures Valid() && Logged("The sign reads: " + Join(parts[1..], "|"))
    {
      gameLog.AddMsg("The sign reads: " + Join(parts[1..], "|"), contextMenu == LogContext, help.logHelp, help.logOpen, measure);
    }

    /** The other players are new objects, the ones the `players` message lists, in order. */
    twostate predicate PlayersListed(parts: seq<string>, parseFloat: string -> real)
      reads this, set o | o in otherPlayerObjs
    {
      var listed := PlayersFrom(parts, 1, parseFloat);
      |otherPlayerObjs| == |listed| &&
      forall k :: 0 <= k < |listed| ==>
        fresh(otherPlayerObjs[k]) && otherPlayerObjs[k].username == listed[k].0 && otherPlayerObjs[k].pos == listed[k].1
    }

    /** The `players` handler: the other players are replaced by the ones listed, in order. */
    method HandlePlayers(parts: seq<string>, parseFloat: string -> real)
      modifies this`otherPlayerObjs
      ensures PlayersListed(parts, parseFloat)
    {
      var others: seq<OtherPlayer> := [];
      ghost var got: seq<(string, Vec)> := [];
      var i := 1;
      while i < |parts|
        invariant i >= 1 && PlayersFrom(parts, 1, parseFloat) == got + PlayersFrom(parts, i, parseFloat)
        invariant |others| == |got|
        invariant forall k :: 0 <= k < |others| ==> fresh(others[k])
        invariant forall k :: 0 <= k < |got| ==> others[k].username == got[k].0 && others[k].pos == got[k].1
        decreases |parts| - i
      {
        var o := new OtherPlayer(Vec(parseFloat(Part(parts, i + 1)), parseFloat(Part(parts, i + 2))), parts[i]);
        assert PlayersFrom(parts, 1, parseFloat) == (got + [(parts[i], o.pos)]) + PlayersFrom(parts, i + 3, parseFloat) by {
          RegroupPlayers(got, [(parts[i], o.pos)], PlayersFrom(parts, i + 3, parseFloat));
        }
        others := others + [o];
        got := got + [(parts[i], o.pos)];
        i := i + 3;
      }
      otherPlayerObjs := others;
    }

    /**
     * What the `entities` handler leaves: the first piece that fails to
     * read fails the handler with the entities as they were; otherwise
     * the entities are new objects read from the pieces, in order.
     */
    twostate predicate EntitiesHandled(parts: seq<string>, parseJson: string -> Option<Json>, new r: Result<()>)
      requires |parts| >= 1
      reads this, set e | e in entities
    {
      var recs := RowMap(EntityVia(entityRegistry, JsonText(parseJson)), NonEmpty(parts[1..]));
      (recs.Err? ==> r == Err(recs.error) && entities == old(entities)) &&
      (recs.Ok? ==> r == Ok(()) && EntitiesMatch(entities, recs.value) && forall e :: e in entities ==> fresh(e))
    }

    /**
     * The `entities` handler: each non-empty piece is parsed and read as an
     * entity, in order; the first failure leaves the entities as they were.
     */
    method HandleEntities(parts: seq<string>, parseJson: string -> Option<Json>) returns (r: Result<()>)
      requires |parts| >= 1
      modifies this`entities
      ensures EntitiesHandled(parts, parseJson, r)
    {
      var es := BuildEntities(entityRegistry, NonEmpty(parts[1..]), JsonText(parseJson));
      if es.Err? {
        return Err(es.error);
      }
      entities := es.value;
      return Ok(());
    }

    /** The dialogue box has the keys and shows the NPC's text from its first line. */
    ghost predicate DialogueOpened(parts: seq<string>)
      reads this, dialogueBox
    {
      contextMenu == DialogueContext && dialogueBox.Valid() &&
      dialogueBox.state == Some(TextState) && dialogueBox.text == Some(DialogueText(parts)) &&
      dialogueBox.entityUuid == Some(Part(parts, 1)) && dialogueBox.lineStart == 0
    }

    /** The dialogue box has the keys and offers the choices listed, the first one selected. */
    ghost predicate ChoiceOpened(parts: seq<string>)
      reads this, dialogueBox
    {
      contextMenu == DialogueContext && dialogueBox.Valid() &&
      dialogueBox.state == Some(ChooseState) && dialogueBox.options == Some(if |parts| <= 2 then [] else parts[2..]) &&
      dialogueBox.entityUuid == Some(Part(parts, 1)) && dialogueBox.currentlySelected == 0
    }

    /** Back on the map, with the dialogue box closed. */
    ghost predicate DialogueClosed()
      reads this, dialogueBox
    {
      contextMenu == MapContext && dialogueBox.Valid() && dialogueBox.state.None?
    }

    /** The `dialogue` handler: the dialogue box opens on the NPC's text and takes the keys. */
    method HandleDialogue(parts: seq<string>)
      modifies this`contextMenu, dialogueBox
      ensures DialogueOpened(parts)
    {
      contextMenu := DialogueContext;
      dialogueBox.SetText(DialogueText(parts), Part(parts, 1), measure);
    }

    /** The `dialoguechoice` handler: the dialogue box offers the choices, the first one selected. */
    method HandleDialogueChoice(parts: seq<string>)
      modifies this`contextMenu, dialogueBox
      ensures ChoiceOpened(parts)
    {
      contextMenu := DialogueContext;
      dialogueBox.SetOptions(if |parts| <= 2 then [] else parts[2..], Part(parts, 1), measure);
    }

    /** The `dialogueend` handler: back to the map, with the dialogue box closed. */
    method HandleDialogueEnd()
      modifies this`contextMenu, dialogueBox
      ensures DialogueClosed()
    {
      contextMenu := MapContext;
      dialogueBox.EndDialogue();
    }

    /** The `tag` handler: who tagged whom, told from this player's side, goes to the top of the log. */
    method HandleTag(parts: seq<string>)
      requires Valid()
      modifies gameLog
      ensures Valid() && Logged(TagText(username, parts))
    {
      gameLog.AddMsg(TagText(username, parts), contextMenu == LogContext, help.logHelp, help.logOpen, measure);
    }

    /** The `battlestatus` handler: both hit points are stored; with no battle it throws. */
    method HandleBattleStatus(parts: seq<string>) returns (r: Result<()>)
      modifies this`battle
      ensures old(battle).None? ==> r == Err(TypeError) && battle == old(battle)
      ensures old(battle).Some? ==> r == Ok(()) && battle == Some(StatusOf(parts))
    {
      if battle.None? {
        return Err(TypeError);
      }
      battle := Some(StatusOf(parts));
      return Ok(());
    }

    /**
     * What a message about the world leaves, kind by kind: the handler of
     * its kind has done its work, and the other parts of the world are
     * as they were.
     */
    twostate predicate WorldHandledBy(kind: MessageKind, data: string, parts: seq<string>,
                                      parseJson: string -> Option<Json>, parseFloat: string -> real, new r: Result<()>)
      requires |parts| >= 1
      reads this, PlayerRepr(), set e | e in entities, set o | o in otherPlayerObjs
    {
      (kind == WorldMsg ==> WorldHandled(data, parseJson, r) && otherPlayerObjs == old(otherPlayerObjs)) &&
      (kind == MovedToMsg ==>
        MovedTo(parts, parseFloat, r) && tiles == old(tiles) && entities == old(entities) &&
        playerObj == old(playerObj) && otherPlayerObjs == old(otherPlayerObjs)) &&
      (kind == PlayersMsg ==>
        r == Ok(()) && PlayersListed(parts, parseFloat) && tiles == old(tiles) && entities == old(entities) &&
        playerObj == old(playerObj) && PosKept(old(playerObj), old(PlayerPos()))) &&
      (kind == EntitiesMsg ==>
        EntitiesHandled(parts, parseJson, r) && tiles == old(tiles) && playerObj == old(playerObj) &&
        otherPlayerObjs == old(otherPlayerObjs) && PosKept(old(playerObj), old(PlayerPos())))
    }

    /** What a message for the log or the dialogue box leaves, kind by kind. */
    twostate predicate TextHandledBy(kind: MessageKind, parts: seq<string>)
      requires |parts| >= 1
      reads this, gameLog, dialogueBox
    {
      (kind == SignTextMsg ==> Logged("The sign reads: " + Join(parts[1..], "|"))) &&
      (kind == TagMsg ==> Logged(TagText(username, parts))) &&
      (kind == DialogueMsg ==> DialogueOpened(parts)) &&
      (kind == DialogueChoiceMsg ==> ChoiceOpened(parts)) &&
      (kind == DialogueEndMsg ==> DialogueClosed())
    }

    /** What a battle message leaves, kind by kind; a move request changes nothing here. */
    twostate predicate BattleHandledBy(kind: MessageKind, parts: seq<string>, new r: Result<()>)
      reads this
    {
      (kind == BattleStartMsg ==> r == Ok(()) && battle == Some(BattleState(None, None))) &&
      (kind == BattleEndMsg ==> r == Ok(()) && battle.None?) &&
      (kind == BattleStatusMsg ==>
        (old(battle).None? ==> r == Err(TypeError) && battle == old(battle)) &&
        (old(battle).Some? ==> r == Ok(()) && battle == Some(StatusOf(parts)))) &&
      (kind == BattleMoveReqMsg ==> r == Ok(()) && battle == old(battle))
    }

    /**
     * `handleWSMessage`: the message goes to the handler of the first
     * prefix it starts with; a message with no known prefix changes nothing.
     */
    method HandleMessage(data: string, parseJson: string -> Option<Json>, parseFloat: string -> real)
      returns (r: Result<()>)
      requires Valid()
      modifies this, gameLog, dialogueBox, PlayerSet()
      ensures Valid()
      ensures Classify(data) == UnknownMsg ==> r == Ok(()) && unchanged(this)
      ensures contextMenu == NextContext(Classify(data), old(contextMenu))
      ensures TextKind(Classify(data)) ==> r == Ok(())
      ensures WorldKind(Classify(data)) ==> WorldHandledBy(Classify(data), data, Split(data, '|'), parseJson, parseFloat, r)
      ensures TextKind(Classify(data)) ==> TextHandledBy(Classify(data), Split(data, '|'))
      ensures BattleKind(Classify(data)) ==> BattleHandledBy(Classify(data), Split(data, '|'), r)
    {
      var kind := Classify(data);
      var parts := Split(data, '|');
      if WorldKind(kind) {
        r := HandleWorldMessage(kind, data, parts, parseJson, parseFloat);
      } else if TextKind(kind) {
        HandleTextMessage(kind, parts);
        r := Ok(());
      } else {
        r := HandleBattleMessage(kind, parts);
      }
    }

    /** The messages about the world: its map, the player's position, the other players and the entities. */
    method HandleWorldMessage(kind: MessageKind, data: string, parts: seq<string>,
                              parseJson: string -> Option<Json>, parseFloat: string -> real) returns (r: Result<()>)
      requires Valid() && |parts| >= 1 && WorldKind(kind)
      modifies this`tiles, this`entities, this`playerObj, this`otherPlayerObjs, PlayerSet()
      ensures Valid() && WorldHandledBy(kind, data, parts, parseJson, parseFloat, r)
    {
      match kind
      case WorldMsg => r := HandleWorld(data, parseJson);
      case MovedToMsg => r := HandleMovedTo(parts, parseFloat);
      case PlayersMsg => HandlePlayers(parts, parseFloat); r := Ok(());
      case EntitiesMsg => r := HandleEntities(parts, parseJson);
    }

    /** The messages for the log and the dialogue box. */
    method HandleTextMessage(kind: MessageKind, parts: seq<string>)
      requires Valid() && |parts| >= 1 && TextKind(kind)
      modifies this`contextMenu, gameLog, dialogueBox
      ensures Valid()
      ensures contextMenu == NextContext(kind, old(contextMenu))
      ensures kind == SignTextMsg || kind == TagMsg ==> unchanged(dialogueBox)
      ensures kind != SignTextMsg && kind != TagMsg ==> unchanged(gameLog)
      ensures TextHandledBy(kind, parts)
    {
      match kind
      case SignTextMsg => HandleSignText(parts);
      case TagMsg => HandleTag(parts);
      case DialogueMsg => HandleDialogue(parts);
      case DialogueChoiceMsg => HandleDialogueChoice(parts);
      case DialogueEndMsg => HandleDialogueEnd();
    }

    /** The battle messages; a move request is not part of this model and changes nothing. */
    method HandleBattleMessage(kind: MessageKind, parts: seq<string>) returns (r: Result<()>)
      requires BattleKind(kind) || kind == UnknownMsg
      modifies this`contextMenu, this`battle
      ensures contextMenu == NextContext(kind, old(contextMenu))
      ensures BattleHandledBy(kind, parts, r)
      ensures kind == UnknownMsg ==> r == Ok(()) && battle == old(battle)
    {
      match kind
      case BattleStartMsg =>
        contextMenu := BattleContext;
        battle := Some(BattleState(None, None));
        r := Ok(());
      case BattleStatusMsg => r := HandleBattleStatus(parts);
      case BattleEndMsg =>
        contextMenu := MapContext;
        battle := None;
        r := Ok(());
      case _ => r := Ok(());
    }
    // ----- `update` -----

    /** One held direction: the player steps `dist` that way, then faces it. */
    static method Press(p: Player, c: char, dir: Dir, dist: real)
      requires p.Valid()
      modifies p, p.Animations()
      ensures p.Valid() && p.moving && p.running == old(p.running)
      ensures p.pos == Add(old(p.pos), Step(c, dist)) && p.facing == dir
    {
      p.Move(Step(c, dist));
      p.facing := dir;
    }

    /**
     * The player, if there is one, walked with the keys held: moved by
     * `Walk`, turned by `FacingAfter`, moving when an arrow is held and
     * running when shift is held too.
     */
    twostate predicate PlayerWalked(dt: real)
      reads this, PlayerRepr()
    {
      var keys := old(pressedKeys);
      playerObj == old(playerObj) &&
      (old(playerObj).Some? ==>
        playerObj.value.pos == Walk(old(playerObj.value.pos), MoveString(keys), Distance(keys, dt)) &&
        playerObj.value.facing == FacingAfter(keys, old(playerObj.value.facing)) &&
        playerObj.value.moving == (MoveString(keys) != "") &&
        playerObj.value.running == (MoveString(keys) != "" && SHIFT in keys))
    }

    /**
     * What the map branch leaves: with no player nothing happens; otherwise
     * the player walked, the move letters and an interaction (Z) were sent,
     * and Z was consumed.
     */
    twostate predicate MapStepped(dt: real, sent: seq<string>)
      reads this, PlayerRepr()
    {
      var keys := old(pressedKeys);
      PlayerWalked(dt) &&
      (old(playerObj).None? ==> sent == [] && pressedKeys == keys) &&
      (old(playerObj).Some? ==>
        sent == MoveMessages(keys) + (if Z_KEY in keys then ["interact"] else []) && pressedKeys == keys - {Z_KEY})
    }

    /**
     * The map branch of `update`: each held arrow moves the player and turns
     * it, in the order left, right, up, down; a move sends the letters to
     * the server, running while shift is held, and animates the walk;
     * standing still stops it; Z interacts and is consumed.
     */
    method UpdateMap(dt: real) returns (sent: seq<string>)
      requires Valid()
      modifies this`pressedKeys, PlayerRepr()
      ensures Valid() && MapStepped(dt, sent)
    {
      if playerObj.None? {
        return [];
      }
      var p := playerObj.value;
      var keys := pressedKeys;
      sent := Move(p, keys, dt);
      assert Valid();
      if Z_KEY in pressedKeys {
        sent := sent + ["interact"];
        pressedKeys := pressedKeys - {Z_KEY};
      }
      assert sent == MoveMessages(keys) + (if Z_KEY in keys then ["interact"] else []);
    }

    /** The arrows held move and turn the player, and the move is sent and animated. */
    static method Move(p: Player, keys: set<int>, dt: real) returns (sent: seq<string>)
      requires p.Valid()
      modifies p, p.Animations()
      ensures p.Valid() && sent == MoveMessages(keys)
      ensures p.pos == Walk(old(p.pos), MoveString(keys), Distance(keys, dt))
      ensures p.facing == FacingAfter(keys, old(p.facing))
      ensures p.moving == (MoveString(keys) != "") && p.running == (MoveString(keys) != "" && SHIFT in keys)
    {
      var moveStr := Steer(p, keys, Distance(keys, dt));
      sent := Walked(p, keys, moveStr, dt);
    }

    /** The arrows held, in the order left, right, up, down: each moves the player and turns it. */
    static method Steer(p: Player, keys: set<int>, dist: real) returns (moveStr: string)
      requires p.Valid()
      modifies p, p.Animations()
      ensures p.Valid() && moveStr == MoveString(keys) && p.running == old(p.running)
      ensures p.pos == Walk(old(p.pos), moveStr, dist) && p.facing == FacingAfter(keys, old(p.facing))
      ensures moveStr != "" ==> p.moving
      ensures moveStr == "" ==> p.moving == old(p.moving)
    {
      ghost var start := p.pos;
      moveStr := "";
      assert Walk(start, moveStr, dist) == p.pos;
      moveStr := SteerOne(p, KEY_LEFT in keys, 'l', Left, dist, start, moveStr);
      moveStr := SteerOne(p, KEY_RIGHT in keys, 'r', Right, dist, start, moveStr);
      moveStr := SteerOne(p, KEY_UP in keys, 'u', Up, dist, start, moveStr);
      moveStr := SteerOne(p, KEY_DOWN in keys, 'd', Down, dist, start, moveStr);
    }

    /** One arrow: when held, its letter is added and the player steps and turns that way. */
    static method SteerOne(p: Player, held: bool, c: char, dir: Dir, dist: real, ghost start: Vec, moveStr: string)
      returns (moveStr': string)
      requires p.Valid() && p.pos == Walk(start, moveStr, dist)
      modifies p, p.Animations()
      ensures p.Valid() && moveStr' == moveStr + Letter(held, c) && p.running == old(p.running)
      ensures p.pos == Walk(start, moveStr', dist)
      ensures p.facing == (if held then dir else old(p.facing))
      ensures p.moving == (held || old(p.moving))
    {
      WalkAppend(start, moveStr, held, c, dist);
      moveStr' := moveStr + Letter(held, c);
      if held {
        Press(p, c, dir, dist);
      }
    }

    /** After the arrows: a move is sent and animated, running while shift is held; no move stops the walk. */
    static method Walked(p: Player, keys: set<int>, moveStr: string, dt: real) returns (sent: seq<string>)
      requires p.Valid() && moveStr == MoveString(keys) && (moveStr != "" ==> p.moving)
      modifies p, p.Animations()
      ensures p.Valid() && sent == MoveMessages(keys)
      ensures p.pos == old(p.pos) && p.facing == old(p.facing)
      ensures p.moving == (moveStr != "") && p.running == (moveStr != "" && SHIFT in keys)
    {
      if moveStr != "" {
        if SHIFT in keys {
          sent := ["fastmove|" + moveStr];
          p.running := true;
        } else {
          sent := ["move|" + moveStr];
          p.running := false;
        }
        p.Animate(dt);
      } else {
        sent := [];
        p.StopMoving();
      }
    }

    /**
     * What the log branch leaves: X cleared the log back to its help;
     * otherwise the arrows scrolled it; the three keys are consumed.
     */
    twostate predicate LogStepped()
      reads this, gameLog
    {
      var keys := old(pressedKeys);
      pressedKeys == keys - {KEY_UP, KEY_DOWN, X_KEY} &&
      (X_KEY in keys ==>
        gameLog.messageLog == [] && gameLog.lineStart == 0 && gameLog.wrappedText == Wrap(help.logHelp, measure, gameLog.width)) &&
      (X_KEY !in keys ==>
        gameLog.messageLog == old(gameLog.messageLog) && gameLog.wrappedText == old(gameLog.wrappedText) &&
        gameLog.lineStart == LogScroll(old(gameLog.lineStart), keys, |gameLog.wrappedText|))
    }

    /** The log branch of `update`: the arrows scroll, X clears the log; each key is consumed. */
    method UpdateLog()
      requires gameLog.Valid()
      modifies this`pressedKeys, gameLog
      ensures gameLog.Valid() && LogStepped()
    {
      if KEY_UP in pressedKeys {
        gameLog.ScrollUp();
        pressedKeys := pressedKeys - {KEY_UP};
      }
      if KEY_DOWN in pressedKeys {
        gameLog.ScrollDown();
        pressedKeys := pressedKeys - {KEY_DOWN};
      }
      if X_KEY in pressedKeys {
        gameLog.Clear(help.logHelp, measure);
        pressedKeys := pressedKeys - {X_KEY};
      }
    }

    /** What the menu branch leaves: the cursor moved by the arrows, wrapping around; both keys consumed. */
    twostate predicate MenuStepped()
      reads this, menu
    {
      var keys := old(pressedKeys);
      pressedKeys == keys - {KEY_UP, KEY_DOWN} && menu.items == old(menu.items) &&
      menu.currentlySelected == MenuCursor(old(menu.currentlySelected), keys, |menu.items|) &&
      (old(menu.InRange()) ==> menu.InRange()) &&
      (KEY_UP in keys || KEY_DOWN in keys ==> menu.wrappedText == Wrap(menu.FocusText(help.menuHelp), measure, menu.width))
    }

    /** The menu branch of `update`: the arrows move the cursor, wrapping around; each key is consumed. */
    method UpdateMenu()
      modifies this`pressedKeys, menu
      ensures MenuStepped()
    {
      if KEY_UP in pressedKeys {
        menu.CursorUp(help.menuHelp, measure);
        pressedKeys := pressedKeys - {KEY_UP};
      }
      if KEY_DOWN in pressedKeys {
        menu.CursorDown(help.menuHelp, measure);
        pressedKeys := pressedKeys - {KEY_DOWN};
      }
    }

    /**
     * What the dialogue branch leaves: the box shows the same dialogue;
     * with choices the arrows moved the cursor; Z sent the option chosen,
     * or asked for the next line; the three keys are consumed.
     */
    twostate predicate DialogueStepped(sent: seq<string>)
      reads this, dialogueBox
    {
      var keys := old(pressedKeys);
      dialogueBox.Valid() && pressedKeys == keys - {KEY_UP, KEY_DOWN, Z_KEY} &&
      dialogueBox.state == old(dialogueBox.state) && dialogueBox.options == old(dialogueBox.options) &&
      dialogueBox.entityUuid == old(dialogueBox.entityUuid) &&
      (Z_KEY !in keys ==> sent == []) &&
      (Z_KEY in keys && dialogueBox.state == Some(ChooseState) ==>
        sent == [ChooseMessage(dialogueBox.entityUuid, dialogueBox.currentlySelected)]) &&
      (Z_KEY in keys && dialogueBox.state != Some(ChooseState) ==> sent == ["interact"]) &&
      (dialogueBox.state == Some(ChooseState) ==>
        dialogueBox.currentlySelected == MenuCursor(old(dialogueBox.currentlySelected), keys, |dialogueBox.options.value|))
    }

    /**
     * The dialogue branch of `update`: the arrows scroll the text or move
     * the option cursor; Z sends the option chosen, or asks for the next
     * line of the dialogue; each key is consumed.
     */
    method UpdateDialogue() returns (sent: seq<string>)
      requires dialogueBox.Valid()
      modifies this`pressedKeys, dialogueBox
      ensures DialogueStepped(sent)
    {
      sent := [];
      if KEY_UP in pressedKeys {
        dialogueBox.OnUpArrow(measure);
        pressedKeys := pressedKeys - {KEY_UP};
      }
      if KEY_DOWN in pressedKeys {
        dialogueBox.OnDownArrow(measure);
        pressedKeys := pressedKeys - {KEY_DOWN};
      }
      if Z_KEY in pressedKeys {
        if dialogueBox.state == Some(ChooseState) {
          sent := [ChooseMessage(dialogueBox.entityUuid, dialogueBox.currentlySelected)];
        } else {
          sent := ["interact"];
        }
        pressedKeys := pressedKeys - {Z_KEY};
      }
    }

    /**
     * The end of `update`: outside a dialogue or a battle, A opens or closes
     * the log and C the menu (A first), focusing the box opened and
     * unfocusing the box closed; the key is consumed.
     */
    method Toggles()
      requires gameLog.Valid()
      modifies this`pressedKeys, this`contextMenu, gameLog, menu
      ensures gameLog.Valid()
      ensures contextMenu == ToggleContext(old(contextMenu), old(pressedKeys))
      ensures pressedKeys == old(pressedKeys) - ToggleKey(old(contextMenu), old(pressedKeys))
      ensures old(contextMenu) != LogContext && contextMenu == LogContext ==>
        gameLog.wrappedText == Wrap(gameLog.FocusText(help.logHelp), measure, gameLog.width)
      ensures old(contextMenu) == LogContext && contextMenu != LogContext ==>
        gameLog.wrappedText == Wrap(gameLog.UnfocusText(help.logOpen), measure, gameLog.width) && gameLog.lineStart == 0
      ensures old(contextMenu) != MenuContext && contextMenu == MenuContext ==>
        menu.wrappedText == Wrap(menu.FocusText(help.menuHelp), measure, menu.width)
      ensures old(contextMenu) == MenuContext && contextMenu != MenuContext ==>
        menu.wrappedText == Wrap(help.menuOpen, measure, menu.width)
      ensures (old(contextMenu) == LogContext) == (contextMenu == LogContext) ==> unchanged(gameLog)
      ensures (old(contextMenu) == MenuContext) == (contextMenu == MenuContext) ==> unchanged(menu)
      ensures gameLog.messageLog == old(gameLog.messageLog) && menu.items == old(menu.items)
      ensures menu.currentlySelected == old(menu.currentlySelected)
    {
      if contextMenu == DialogueContext || contextMenu == BattleContext {
        return;
      }
      if A_KEY in pressedKeys {
        if contextMenu == LogContext {
          contextMenu := MapContext;
          gameLog.Unfocus(help.logOpen, measure);
        } else {
          if contextMenu == MenuContext {
            menu.Unfocus(help.menuOpen, measure);
          }
          contextMenu := LogContext;
          gameLog.Focus(help.logHelp, measure);
        }
        pressedKeys := pressedKeys - {A_KEY};
      } else if C_KEY in pressedKeys {
        if contextMenu == MenuContext {
          contextMenu := MapContext;
          menu.Unfocus(help.menuOpen, measure);
        } else {
          if contextMenu == LogContext {
            gameLog.Unfocus(help.logOpen, measure);
          }
          contextMenu := MenuContext;
          menu.Focus(help.menuHelp, measure);
        }
        pressedKeys := pressedKeys - {C_KEY};
      }
    }

    /**
     * `update(dt)`: the keys go to the active context, then the toggles
     * are read; what is returned is what was sent to the server.
     */
    method Update(dt: real) returns (sent: seq<string>)
      requires Valid()
      modifies this`pressedKeys, this`contextMenu, PlayerRepr(), gameLog, menu, dialogueBox
      ensures Valid()
      ensures contextMenu == ToggleContext(old(contextMenu), old(pressedKeys))
      ensures old(contextMenu) == MapContext ==>
        sent == (if old(playerObj).None? then [] else
          MoveMessages(old(pressedKeys)) + (if Z_KEY in old(pressedKeys) then ["interact"] else []))
      ensures old(contextMenu) == MapContext ==> PlayerWalked(dt)
      ensures old(contextMenu) == DialogueContext ==> DialogueStepped(sent)
      ensures old(contextMenu) == LogContext ==>
        gameLog.messageLog == (if X_KEY in old(pressedKeys) then [] else old(gameLog.messageLog))
      ensures old(contextMenu) == MenuContext ==>
        menu.items == old(menu.items) &&
        menu.currentlySelected == MenuCursor(old(menu.currentlySelected), old(pressedKeys), |menu.items|)
      ensures old(contextMenu) == LogContext || old(contextMenu) == MenuContext || old(contextMenu) == BattleContext ==> sent == []
    {
      sent := UpdateContext(dt);
      Toggles();
    }

    /** The branch of `update` for the active context; it reads neither A nor C. */
    method UpdateContext(dt: real) returns (sent: seq<string>)
      requires Valid()
      modifies this`pressedKeys, PlayerRepr(), gameLog, menu, dialogueBox
      ensures Valid()
      ensures (A_KEY in pressedKeys <==> A_KEY in old(pressedKeys)) && (C_KEY in pressedKeys <==> C_KEY in old(pressedKeys))
      ensures contextMenu == MapContext ==> MapStepped(dt, sent)
      ensures contextMenu == LogContext ==> LogStepped() && sent == []
      ensures contextMenu == MenuContext ==> MenuStepped() && sent == []
      ensures contextMenu == DialogueContext ==> DialogueStepped(sent)
      ensures contextMenu == BattleContext ==> sent == [] && pressedKeys == old(pressedKeys)
    {
      sent := [];
      match contextMenu
      case MapContext =>
        sent := UpdateMap(dt);
      case LogContext =>
        UpdateLog();
        assert Valid();
      case MenuContext =>
        UpdateMenu();
        assert Valid();
      case DialogueContext =>
        sent := UpdateDialogue();
        assert Valid();
      case BattleContext =>
    }
  }
}
