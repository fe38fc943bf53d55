/**
 * The prototype server (main.py at the top of the repository). A world is
 * text, `<spawn x>|<spawn y>|<row>|<row>...` with one letter per cell; loading
 * it places grass and wild grass relative to the centre of the spawn cell.
 * Players live in a dictionary keyed by user name; a `move|<letter>` message
 * moves the sender by at most a tenth of a second's walk and answers with
 * `movedto|x|y`. The clock (`time.time()`) is the parameter `now`, and how
 * Python writes a float is `fmt`.
 */
module ProtoServer {
  import opened Wrappers
  import opened Text
  import opened Decimal
  import opened ServerGeometry
  import Messages

  const BLOCK_WIDTH: int := 16
  const PLAYER_SPEED: real := 48.0
  const MAX_MOVE_DT: real := 0.1
  /** `Worlds.STARTING_WORLD_NUM`. */
  const STARTING_WORLD_NUM: int := 1

  // ----- Python's int() of a string -----

  /** An optional sign and one or more decimal digits, nothing else. */
  function ParseSigned(t: string): Result<int>
  {
    var digits := Unsigned(t);
    if |digits| == 0 || DigitRun(digits) < |digits| then Err(ValueError)
    else
      var v: int := DigitsValue(digits);
      Ok(if Negative(t) then -v else v)
  }

  /** What follows the sign, if there is one. */
  function Unsigned(t: string): string
  {
    if |t| > 0 && (t[0] == '-' || t[0] == '+') then t[1..] else t
  }

  predicate Negative(t: string)
  {
    |t| > 0 && t[0] == '-'
  }

  /**
   * `int(s)`: white space around an optional sign and one or more decimal
   * digits; anything else raises ValueError.
   */
  function PyInt(s: string): Result<int>
  {
    ParseSigned(TrimEnd(TrimStart(s)))
  }

  lemma ParseDigits(d: string)
    requires |d| >= 1 && forall i :: 0 <= i < |d| ==> IsDigit(d[i])
    ensures ParseSigned(d) == Ok(DigitsValue(d))
  {
    DigitRunAll(d);
    assert IsDigit(d[0]);
    assert !Negative(d) && Unsigned(d) == d;
  }

  lemma ParseNegDigits(d: string)
    requires |d| >= 1 && forall i :: 0 <= i < |d| ==> IsDigit(d[i])
    ensures ParseSigned("-" + d) == Ok(-(DigitsValue(d) as int))
  {
    var t := "-" + d;
    assert t[1..] == d;
    assert Negative(t) && Unsigned(t) == d;
    DigitRunAll(d);
  }

  /** `int` reads back what `str` writes. */
  lemma PyIntRoundTrip(n: int)
    ensures PyInt(IntToString(n)) == Ok(n)
  {
    var m: nat := if n < 0 then -n else n;
    var d := NatToString(m);
    NatToStringValue(m);
    if n < 0 {
      ParseNegDigits(d);
      TrimNothing("-" + d);
    } else {
      ParseDigits(d);
      TrimNothing(d);
    }
  }

  /** Text that is empty or only white space is not a number. */
  lemma {:induction false} PyIntBlank(s: string)
    requires forall k :: 0 <= k < |s| ==> IsSpace(s[k])
    ensures PyInt(s) == Err(ValueError)
  {
    BlankTrims(s);
  }

  lemma {:induction false} BlankTrims(s: string)
    requires forall k :: 0 <= k < |s| ==> IsSpace(s[k])
    ensures TrimStart(s) == ""
    decreases |s|
  {
    if |s| > 0 {
      BlankTrims(s[1..]);
    }
  }

  // ----- loading a world -----

  datatype Kind = Grass | WildGrass

  /** A grass or wild grass object at a position relative to the spawn point. */
  datatype Obj = Obj(kind: Kind, pos: Vec)

  /** `World(gameObjs, spawnPos)`. */
  datatype World = World(gameObjs: seq<Obj>, spawnPos: Vec)

  /** g is grass and G is wild grass; every other letter places nothing. */
  function KindOf(c: char): Option<Kind>
  {
    if c == 'g' then Some(Grass) else if c == 'G' then Some(WildGrass) else None
  }

  /** The top-left corner of cell `i` of row `j`. */
  function CellPos(i: int, j: int): Vec
  {
    Vec((i * BLOCK_WIDTH) as real, (j * BLOCK_WIDTH) as real)
  }

  /** The centre of spawn cell `(x, y)`: `spawn * BLOCK_WIDTH + BLOCK_WIDTH / 2` on each axis. */
  function Origin(spawnX: int, spawnY: int): Vec
  {
    Vec((spawnX * BLOCK_WIDTH) as real + BLOCK_WIDTH as real / 2.0, (spawnY * BLOCK_WIDTH) as real + BLOCK_WIDTH as real / 2.0)
  }

  /** The objects of the first `n` letters of row `j`, left to right. */
  function LineObjs(line: string, j: int, n: nat, origin: Vec): seq<Obj>
    requires n <= |line|
  {
    if n == 0 then [] else LineObjs(line, j, n - 1, origin) + CellObj(line[n - 1], n - 1, j, origin)
  }

  /** What letter `c` at cell `(i, j)` places: one object or none. */
  function CellObj(c: char, i: int, j: int, origin: Vec): seq<Obj>
  {
    match KindOf(c)
    case None => []
    case Some(k) => [Obj(k, RelativeTo(CellPos(i, j), origin))]
  }

  lemma CellObjMembers(c: char, i: int, j: int, origin: Vec, k: Kind, i': int, j': int)
    ensures Obj(k, RelativeTo(CellPos(i', j'), origin)) in CellObj(c, i, j, origin) <==>
      i' == i && j' == j && KindOf(c) == Some(k)
  {
  }

  /** The objects of the first `m` rows, row after row. */
  function MapObjs(rows: seq<string>, m: nat, origin: Vec): seq<Obj>
    requires m <= |rows|
  {
    if m == 0 then [] else MapObjs(rows, m - 1, origin) + LineObjs(rows[m - 1], m - 1, |rows[m - 1]|, origin)
  }

  /**
   * What `load_world` makes of a world text: ValueError when a spawn
   * coordinate is not an integer, IndexError when there is no second piece.
   */
  function WorldOf(w: string): Result<World>
  {
    var parts := Split(w, '|');
    var spawnX :- PyInt(parts[0]);
    if |parts| < 2 then Err(IndexError)
    else
      var spawnY :- PyInt(parts[1]);
      var origin := Origin(spawnX, spawnY);
      Ok(World(MapObjs(parts[2..], |parts| - 2, origin), origin))
  }

  /** The objects of one row, left to right. */
  method LoadLine(line: string, j: int, origin: Vec) returns (objs: seq<Obj>)
    ensures objs == LineObjs(line, j, |line|, origin)
  {
    objs := [];
    var i := 0;
    while i < |line|
      invariant 0 <= i <= |line|
      invariant objs == LineObjs(line, j, i, origin)
    {
      var pos := RelativeTo(CellPos(i, j), origin);
      if line[i] == 'g' {
        objs := objs + [Obj(Grass, pos)];
      } else if line[i] == 'G' {
        objs := objs + [Obj(WildGrass, pos)];
      }
      i := i + 1;
    }
  }

  /** `load_world`: the spawn point from the first two pieces, then the objects of every row. */
  method LoadWorld(w: string) returns (r: Result<World>)
    ensures r == WorldOf(w)
  {
    var parts := Split(w, '|');
    var spawnX := PyInt(parts[0]);
    if spawnX.Err? {
      return Err(spawnX.error);
    }
    if |parts| < 2 {
      return Err(IndexError);
    }
    var spawnY := PyInt(parts[1]);
    if spawnY.Err? {
      return Err(spawnY.error);
    }
    var origin := Origin(spawnX.value, spawnY.value);
    var gameObjs := LoadRows(parts[2..], origin);
    return Ok(World(gameObjs, origin));
  }

  /** The objects of every row, row after row. */
  method LoadRows(worldMap: seq<string>, origin: Vec) returns (gameObjs: seq<Obj>)
    ensures gameObjs == MapObjs(worldMap, |worldMap|, origin)
  {
    gameObjs := [];
    var j := 0;
    while j < |worldMap|
      invariant 0 <= j <= |worldMap|
      invariant gameObjs == MapObjs(worldMap, j, origin)
    {
      var line := LoadLine(worldMap[j], j, origin);
      gameObjs := gameObjs + line;
      j := j + 1;
    }
  }

  /** A letter of row `jj` at column `i` places an object of kind `k` exactly when it is that kind's letter. */
  lemma {:induction false} LineObjsMembers(line: string, j: int, n: nat, origin: Vec, k: Kind, i: int, jj: int)
    requires n <= |line|
    ensures Obj(k, RelativeTo(CellPos(i, jj), origin)) in LineObjs(line, j, n, origin) <==>
      jj == j && 0 <= i < n && KindOf(line[i]) == Some(k)
  {
    if n > 0 {
      LineObjsMembers(line, j, n - 1, origin, k, i, jj);
      CellObjMembers(line[n - 1], n - 1, j, origin, k, i, jj);
    }
  }

  /**
   * A loaded world has an object of kind `k` at cell `(i, j)`, measured from
   * the spawn point, exactly when row `j` has that kind's letter at column `i`.
   */
  lemma {:induction false} MapObjsMembers(rows: seq<string>, m: nat, origin: Vec, k: Kind, i: int, j: int)
    requires m <= |rows|
    ensures Obj(k, RelativeTo(CellPos(i, j), origin)) in MapObjs(rows, m, origin) <==>
      0 <= j < m && 0 <= i < |rows[j]| && KindOf(rows[j][i]) == Some(k)
  {
    if m > 0 {
      var before := MapObjs(rows, m - 1, origin);
      var line := LineObjs(rows[m - 1], m - 1, |rows[m - 1]|, origin);
      assert MapObjs(rows, m, origin) == before + line;
      MapObjsMembers(rows, m - 1, origin, k, i, j);
      LineObjsMembers(rows[m - 1], m - 1, |rows[m - 1]|, origin, k, i, j);
    }
  }

  /** The spawn point is the centre of its cell: that cell's corner lies half a block up and left of it. */
  lemma OriginCentresSpawnCell(spawnX: int, spawnY: int)
    ensures RelativeTo(CellPos(spawnX, spawnY), Origin(spawnX, spawnY)) == Vec(-8.0, -8.0)
  {
  }

  /** A world text as the server keeps it: the spawn cell, then the rows, joined by `|`. */
  function WorldText(spawnX: int, spawnY: int, rows: seq<string>): string
  {
    Join([IntToString(spawnX), IntToString(spawnY)] + rows, "|")
  }

  /** Loading a world text gives back its spawn point and the objects of its rows. */
  lemma LoadWorldText(spawnX: int, spawnY: int, rows: seq<string>)
    requires forall j :: 0 <= j < |rows| ==> '|' !in rows[j]
    ensures WorldOf(WorldText(spawnX, spawnY, rows)) ==
      Ok(World(MapObjs(rows, |rows|, Origin(spawnX, spawnY)), Origin(spawnX, spawnY)))
  {
    var head := [IntToString(spawnX), IntToString(spawnY)];
    var parts := head + rows;
    forall j | 0 <= j < |parts|
      ensures '|' !in parts[j]
    {
      if j < 2 {
        assert parts[j] == head[j];
      } else {
        assert parts[j] == rows[j - 2];
      }
    }
    SplitJoin(parts, '|');
    assert parts[2..] == rows;
    PyIntRoundTrip(spawnX);
    PyIntRoundTrip(spawnY);
    WorldOfParts(WorldText(spawnX, spawnY, rows), parts, spawnX, spawnY);
  }

  lemma WorldOfParts(w: string, parts: seq<string>, spawnX: int, spawnY: int)
    requires Split(w, '|') == parts && |parts| >= 2
    requires PyInt(parts[0]) == Ok(spawnX) && PyInt(parts[1]) == Ok(spawnY)
    ensures WorldOf(w) == Ok(World(MapObjs(parts[2..], |parts| - 2, Origin(spawnX, spawnY)), Origin(spawnX, spawnY)))
  {
    var origin := Origin(spawnX, spawnY);
    var objs := MapObjs(parts[2..], |parts| - 2, origin);
    assert WorldOf(w) == Ok(World(objs, origin));
  }

  // ----- players and moves -----

  /** A connected player: where it is, the time of its last move, and its world. */
  class Player {
    var pos: Vec
    /** Despite its name, the clock reading at the last move (0 before the first). */
    var timeSinceLastMove: real
    const worldNum: int

    constructor (pos: Vec, worldNum: int)
      ensures this.pos == pos && timeSinceLastMove == 0.0 && this.worldNum == worldNum
    {
      this.pos := pos;
      timeSinceLastMove := 0.0;
      this.worldNum := worldNum;
    }

    /** `Entity.move`: `pos += offset`. */
    method Move(offset: Vec)
      modifies this`pos
      ensures pos == Add(old(pos), offset)
    {
      pos := Add(pos, offset);
    }
  }

  /** `min` of two reals. */
  function Min(a: real, b: real): real
  {
    if a <= b then a else b
  }

  /** The time a move is worth: the time since the last one, but never more than a tenth of a second. */
  function MoveTime(now: real, last: real): (dt: real)
    ensures dt <= MAX_MOVE_DT && dt <= now - last
    ensures dt == MAX_MOVE_DT || dt == now - last
  {
    Min(now - last, MAX_MOVE_DT)
  }

  /** The direction of a `move` message, if it names one of the four. */
  function MoveDirection(message: string): Option<Vec>
  {
    if StartsWith(message, "move|") then
      MovePieces(message);
      VecFromDirectionStr(Split(message, '|')[1])
    else None
  }

  /** A message that starts with `move|` splits into at least two pieces. */
  lemma MovePieces(message: string)
    requires StartsWith(message, "move|")
    ensures |Split(message, '|')| >= 2
  {
    var rest := message[5..];
    assert message == "move" + ['|'] + rest;
    SplitHead("move", '|', rest);
  }

  /** The game: the players by user name. */
  class Game {
    var playerObjs: map<string, Player>

    constructor ()
      ensures playerObjs == map[]
    {
      playerObjs := map[];
    }

    /** `get_player`: the player of that name, or None. */
    function GetPlayer(username: string): (r: Option<Player>)
      reads this
      ensures r.Some? <==> username in playerObjs
      ensures r.Some? ==> r.value == playerObjs[username]
    {
      if username in playerObjs then Some(playerObjs[username]) else None
    }

    function PlayerOf(username: string): set<object>
      reads this
    {
      if username in playerObjs then {playerObjs[username]} else {}
    }

    /** `set_player`: the name now maps to `p`; every other entry stays. */
    method SetPlayer(username: string, p: Player)
      modifies this`playerObjs
      ensures playerObjs == old(playerObjs)[username := p]
      ensures username in playerObjs && GetPlayer(username) == Some(p)
    {
      playerObjs := playerObjs[username := p];
    }

    /**
     * `move_player`: the player moves by `offset` and its new position is
     * returned; for an unknown name `p.move` is called on None.
     */
    method MovePlayer(username: string, offset: Vec) returns (r: Result<Vec>)
      modifies this`playerObjs, PlayerOf(username)
      ensures playerObjs == old(playerObjs)
      ensures username !in playerObjs ==> r == Err(AttributeError)
      ensures username in playerObjs ==>
        r == Ok(Add(old(playerObjs[username].pos), offset)) && playerObjs[username].pos == r.value &&
        playerObjs[username].timeSinceLastMove == old(playerObjs[username].timeSinceLastMove)
    {
      var p := GetPlayer(username);
      if p.None? {
        return Err(AttributeError);
      }
      p.value.Move(offset);
      SetPlayer(username, p.value);
      assert playerObjs == old(playerObjs);
      return Ok(p.value.pos);
    }

    /** What `run` does when a user connects: a new player at (0, 0) in the starting world. */
    method Connect(username: string)
      modifies this`playerObjs
      ensures username in playerObjs && fresh(playerObjs[username])
      ensures playerObjs[username].pos == Vec(0.0, 0.0) && playerObjs[username].timeSinceLastMove == 0.0
      ensures playerObjs[username].worldNum == STARTING_WORLD_NUM
      ensures forall u :: u in old(playerObjs) && u != username ==> u in playerObjs && playerObjs[u] == old(playerObjs)[u]
      ensures playerObjs.Keys == old(playerObjs).Keys + {username}
    {
      var p := new Player(Vec(0.0, 0.0), STARTING_WORLD_NUM);
      SetPlayer(username, p);
    }

    /**
     * `parseMessage`: a `move` in one of the four directions moves the
     * sender by `PLAYER_SPEED` times the time since its last move (at most
     * `MAX_MOVE_DT`) and answers with its new position; every other message is
     * ignored. A sender with no player raises AttributeError.
     */
    method ParseMessage(message: string, username: string, now: real, fmt: real -> string)
      returns (r: Result<seq<string>>)
      modifies this`playerObjs, PlayerOf(username)
      ensures playerObjs == old(playerObjs)
      ensures MoveDirection(message).None? ==> r == Ok([]) && unchanged(PlayerOf(username))
      ensures MoveDirection(message).Some? && username !in playerObjs ==> r == Err(AttributeError)
      ensures MoveDirection(message).Some? && username in playerObjs ==>
        var p := playerObjs[username];
        var dt := MoveTime(now, old(p.timeSinceLastMove));
        p.timeSinceLastMove == now &&
        p.pos == Add(old(p.pos), Scale(MoveDirection(message).value, PLAYER_SPEED * dt)) &&
        r == Ok([Messages.MovedTo(p.pos, fmt)])
    {
      if !StartsWith(message, "move|") {
        return Ok([]);
      }
      var parts := Split(message, '|');
      MovePieces(message);
      var direction := parts[1];
      var dirVec := VecFromDirectionStr(direction);
      if dirVec.None? {
        return Ok([]);
      }
      var player := GetPlayer(username);
      if player.None? {
        return Err(AttributeError);
      }
      var dt := Min(now - player.value.timeSinceLastMove, MAX_MOVE_DT);
      player.value.timeSinceLastMove := now;
      var moveDist := PLAYER_SPEED * dt;
      var offset := Scale(dirVec.value, moveDist);
      var newPos := MovePlayer(username, offset);
      return Ok([Messages.MovedTo(newPos.value, fmt)]);
    }
  }

  /**
   * A `move` message names its direction in the second piece: each of the
   * four letters is read as its unit vector, and anything longer, shorter or
   * different (as in a multi-letter move string) is ignored.
   */
  lemma MoveLetters(d: string)
    requires '|' !in d
    ensures MoveDirection("move|" + d) == VecFromDirectionStr(d)
    ensures MoveDirection("move|" + d).Some? <==> d in {"l", "r", "u", "d"}
    ensures |d| != 1 ==> MoveDirection("move|" + d).None?
  {
    SplitPrefixed("move", d);
    assert "move" + "|" + d == "move|" + d;
    SplitNoSeparator(d, '|');
    assert StartsWith("move|" + d, "move|");
  }

  /** One move carries the player at most `PLAYER_SPEED * MAX_MOVE_DT` along one axis. */
  lemma MoveBounded(d: string, now: real, last: real)
    requires VecFromDirectionStr(d).Some? && now >= last
    ensures var u := VecFromDirectionStr(d).value;
      var step := Scale(u, PLAYER_SPEED * MoveTime(now, last));
      (step.x == 0.0 || step.y == 0.0) &&
      -PLAYER_SPEED * MAX_MOVE_DT <= step.x <= PLAYER_SPEED * MAX_MOVE_DT &&
      -PLAYER_SPEED * MAX_MOVE_DT <= step.y <= PLAYER_SPEED * MAX_MOVE_DT
  {
  }
}
