/**
 * The first browser prototype (index.js at the top of the repository). The
 * world arrives as `world|<spawn x>|<spawn y>|<row>|<row>...` with one letter
 * per cell and becomes a flat list of map objects; `movedto|x|y` puts the
 * player where the server says; every frame the held arrows go out as one
 * move string. `parseInt` is a parameter from text to a real number, so
 * the NaN it gives for text without digits is not modelled, and what
 * `ws.send` sends is appended to `sent`.
 *
 * The character-grid reader (`RowObjs`/`MapObjs`) is shared with the second
 * prototype (play.js), which places only grass and measures positions from
 * the spawn point.
 */
module ProtoIndex {
  import opened Wrappers
  import opened Text
  import opened ClientGeometry
  import Session

  const BLOCK_WIDTH: int := 16
  const PLAYER_SPEED: real := 48.0
  const SPEED_MULTIPLIER: real := 2.0

  /** The map objects the prototypes draw. */
  datatype Kind = Grass | WildGrass | Wall | Portal

  /** A map object: what it is and where it stands. */
  datatype MapObj = MapObj(kind: Kind, pos: Vec)

  /** The `switch` of the world handler: g, G, w and p; any other letter places nothing. */
  function KindOf(c: char): (k: Option<Kind>)
    ensures k == Some(Grass) <==> c == 'g'
    ensures k == Some(WildGrass) <==> c == 'G'
    ensures k == Some(Wall) <==> c == 'w'
    ensures k == Some(Portal) <==> c == 'p'
  {
    if c == 'g' then Some(Grass)
    else if c == 'G' then Some(WildGrass)
    else if c == 'w' then Some(Wall)
    else if c == 'p' then Some(Portal)
    else None
  }

  /** The top-left corner of cell `i` of row `j`. */
  function CellPos(i: int, j: int): Vec
  {
    Vec((i * BLOCK_WIDTH) as real, (j * BLOCK_WIDTH) as real)
  }

  /** What one letter places: nothing, or one object at its cell seen from `origin`. */
  function CellObj(c: char, i: int, j: int, kindOf: char -> Option<Kind>, origin: Vec): seq<MapObj>
  {
    match kindOf(c)
    case None => []
    case Some(k) => [MapObj(k, RelativeTo(CellPos(i, j), origin))]
  }

  /** The objects the first `n` letters of row `j` place, left to right. */
  function RowObjs(row: string, j: int, n: nat, kindOf: char -> Option<Kind>, origin: Vec): seq<MapObj>
    requires n <= |row|
  {
    if n == 0 then [] else RowObjs(row, j, n - 1, kindOf, origin) + CellObj(row[n - 1], n - 1, j, kindOf, origin)
  }

  /** The objects the first `m` rows place, row after row. */
  function MapObjs(rows: seq<string>, m: nat, kindOf: char -> Option<Kind>, origin: Vec): seq<MapObj>
    requires m <= |rows|
  {
    if m == 0 then [] else MapObjs(rows, m - 1, kindOf, origin) + RowObjs(rows[m - 1], m - 1, |rows[m - 1]|, kindOf, origin)
  }

  /** An object of kind `k` stands at cell `i` of row `jj` exactly when that letter is read as `k`. */
  lemma {:induction false} RowObjsMembers(row: string, j: int, n: nat, kindOf: char -> Option<Kind>, origin: Vec,
                                          k: Kind, i: int, jj: int)
    requires n <= |row|
    ensures MapObj(k, RelativeTo(CellPos(i, jj), origin)) in RowObjs(row, j, n, kindOf, origin) <==>
      jj == j && 0 <= i < n && kindOf(row[i]) == Some(k)
  {
    if n > 0 {
      RowObjsMembers(row, j, n - 1, kindOf, origin, k, i, jj);
    }
  }

  /** Every object of row `j` stands in that row. */
  lemma {:induction false} RowObjsInRow(row: string, j: int, n: nat, kindOf: char -> Option<Kind>, origin: Vec)
    requires n <= |row|
    ensures forall t :: 0 <= t < |RowObjs(row, j, n, kindOf, origin)| ==>
      RowObjs(row, j, n, kindOf, origin)[t].pos.y == (j * BLOCK_WIDTH) as real - origin.y
  {
    if n > 0 {
      RowObjsInRow(row, j, n - 1, kindOf, origin);
    }
  }

  /**
   * The grid reader places an object of kind `k` at cell `(i, j)` exactly when
   * row `j` has at column `i` a letter read as `k`; nothing else is placed.
   */
  lemma {:induction false} MapObjsMembers(rows: seq<string>, m: nat, kindOf: char -> Option<Kind>, origin: Vec,
                                          k: Kind, i: int, j: int)
    requires m <= |rows|
    ensures MapObj(k, RelativeTo(CellPos(i, j), origin)) in MapObjs(rows, m, kindOf, origin) <==>
      0 <= j < m && 0 <= i < |rows[j]| && kindOf(rows[j][i]) == Some(k)
  {
    if m > 0 {
      MapObjsMembers(rows, m - 1, kindOf, origin, k, i, j);
      RowObjsMembers(rows[m - 1], m - 1, |rows[m - 1]|, kindOf, origin, k, i, j);
    }
  }

  /** What the reader places for a row of `n` letters none of which it reads: nothing. */
  lemma {:induction false} BlankRow(row: string, j: int, n: nat, kindOf: char -> Option<Kind>, origin: Vec)
    requires n <= |row|
    requires forall i :: 0 <= i < n ==> kindOf(row[i]).None?
    ensures RowObjs(row, j, n, kindOf, origin) == []
  {
    if n > 0 {
      BlankRow(row, j, n - 1, kindOf, origin);
    }
  }

  /** index.js places objects at their cells as they are, which is as seen from (0, 0). */
  const NO_OFFSET: Vec := Vec(0.0, 0.0)

  /** The rows of a `world` message: every piece after the spawn. */
  function Rows(parts: seq<string>): seq<string>
  {
    if |parts| >= 3 then parts[3..] else []
  }

  /** The spawn point of a `world` message, read by `parseInt`. */
  function Spawn(parts: seq<string>, parseInt: string -> real): Vec
  {
    Vec(parseInt(Session.Part(parts, 1)), parseInt(Session.Part(parts, 2)))
  }

  /** The move string of a frame: the held arrows in the order left, up, right, down. */
  function MoveStr(keys: set<int>): string
  {
    Session.Letter(Session.KEY_LEFT in keys, 'l') + Session.Letter(Session.KEY_UP in keys, 'u') +
    Session.Letter(Session.KEY_RIGHT in keys, 'r') + Session.Letter(Session.KEY_DOWN in keys, 'd')
  }

  /** The arrow key a move letter stands for. */
  function ArrowKey(c: char): int
  {
    if c == 'l' then Session.KEY_LEFT
    else if c == 'u' then Session.KEY_UP
    else if c == 'r' then Session.KEY_RIGHT
    else Session.KEY_DOWN
  }

  /** The letters of `order` whose arrows are held, in the order they come in `order`. */
  function HeldLetters(order: string, keys: set<int>): string
  {
    if |order| == 0 then ""
    else HeldLetters(order[..|order| - 1], keys) + Session.Letter(ArrowKey(order[|order| - 1]) in keys, order[|order| - 1])
  }

  lemma HeldFour(a: char, b: char, c: char, d: char, keys: set<int>)
    ensures HeldLetters([a, b, c, d], keys) ==
      Session.Letter(ArrowKey(a) in keys, a) + Session.Letter(ArrowKey(b) in keys, b) +
      Session.Letter(ArrowKey(c) in keys, c) + Session.Letter(ArrowKey(d) in keys, d)
  {
    var la, lb, lc, ld := Session.Letter(ArrowKey(a) in keys, a), Session.Letter(ArrowKey(b) in keys, b),
      Session.Letter(ArrowKey(c) in keys, c), Session.Letter(ArrowKey(d) in keys, d);
    assert [a][..0] == [];
    assert HeldLetters([a], keys) == "" + la == la;
    assert [a, b][..1] == [a];
    assert HeldLetters([a, b], keys) == la + lb;
    assert [a, b, c][..2] == [a, b];
    assert HeldLetters([a, b, c], keys) == la + lb + lc;
    assert [a, b, c, d][..3] == [a, b, c];
  }

  /**
   * The move string is the held arrows in the order left, up, right, down;
   * the current client's is the same letters in the order left, right, up, down.
   */
  lemma MoveStrOrder(keys: set<int>)
    ensures MoveStr(keys) == HeldLetters("lurd", keys)
    ensures Session.MoveString(keys) == HeldLetters("lrud", keys)
  {
    HeldFour('l', 'u', 'r', 'd', keys);
    HeldFour('l', 'r', 'u', 'd', keys);
  }

  /** A letter is in the move string exactly when its arrow is held. */
  lemma MoveStrLetters(keys: set<int>)
    ensures var s := MoveStr(keys);
      ('l' in s <==> Session.KEY_LEFT in keys) && ('u' in s <==> Session.KEY_UP in keys) &&
      ('r' in s <==> Session.KEY_RIGHT in keys) && ('d' in s <==> Session.KEY_DOWN in keys)
  {
    var l, u, r, d := Session.Letter(Session.KEY_LEFT in keys, 'l'), Session.Letter(Session.KEY_UP in keys, 'u'),
      Session.Letter(Session.KEY_RIGHT in keys, 'r'), Session.Letter(Session.KEY_DOWN in keys, 'd');
    assert MoveStr(keys) == l + u + r + d;
  }

  /** The distance a frame of `dt` seconds walks per held arrow: doubled while shift is held. */
  function Distance(keys: set<int>, dt: real): real
  {
    PLAYER_SPEED * dt * (if Session.SHIFT in keys then SPEED_MULTIPLIER else 1.0)
  }

  /** The message a frame sends: `fastmove|` while shift is held, else `move|`; none without arrows. */
  function MoveMessages(keys: set<int>): (msgs: seq<string>)
    ensures |msgs| <= 1 && (|msgs| == 1 <==> MoveStr(keys) != "")
  {
    if MoveStr(keys) == "" then []
    else [(if Session.SHIFT in keys then "fastmove|" else "move|") + MoveStr(keys)]
  }

  lemma WalkLetters(p: Vec, left: bool, up: bool, right: bool, down: bool, dist: real)
    ensures var w := Session.Walk(p, Session.Letter(left, 'l') + Session.Letter(up, 'u') +
        Session.Letter(right, 'r') + Session.Letter(down, 'd'), dist);
      w.x == p.x + (if right then dist else 0.0) - (if left then dist else 0.0) &&
      w.y == p.y + (if down then dist else 0.0) - (if up then dist else 0.0)
  {
    var l, u, r := Session.Letter(left, 'l'), Session.Letter(up, 'u'), Session.Letter(right, 'r');
    assert Session.Walk(p, "", dist) == p;
    assert "" + l == l;
    Session.WalkAppend(p, "", left, 'l', dist);
    Session.WalkAppend(p, l, up, 'u', dist);
    Session.WalkAppend(p, l + u, right, 'r', dist);
    Session.WalkAppend(p, l + u + r, down, 'd', dist);
  }

  /**
   * In a frame the player walks `dist` along each held arrow: opposite arrows
   * cancel, and it ends where the current client's order of letters takes it.
   */
  lemma WalkNet(p: Vec, keys: set<int>, dist: real)
    ensures var w := Session.Walk(p, MoveStr(keys), dist);
      w.x == p.x + (if Session.KEY_RIGHT in keys then dist else 0.0) - (if Session.KEY_LEFT in keys then dist else 0.0) &&
      w.y == p.y + (if Session.KEY_DOWN in keys then dist else 0.0) - (if Session.KEY_UP in keys then dist else 0.0)
    ensures Session.Walk(p, MoveStr(keys), dist) == Session.Walk(p, Session.MoveString(keys), dist)
  {
    WalkLetters(p, Session.KEY_LEFT in keys, Session.KEY_UP in keys, Session.KEY_RIGHT in keys, Session.KEY_DOWN in keys, dist);
    Session.WalkOffset(p, keys, dist);
  }

  /** The player of the prototypes: a position that moves and jumps. */
  class Player {
    var pos: Vec

    constructor (pos: Vec)
      ensures this.pos == pos
    {
      this.pos := pos;
    }

    /** `move`: by `offset`. */
    method Move(offset: Vec)
      modifies this
      ensures pos == Add(old(pos), offset)
    {
      pos := Add(pos, offset);
    }

    /** `moveTo`: to `p`. */
    method MoveTo(p: Vec)
      modifies this
      ensures pos == p
    {
      pos := p;
    }
  }

  /** The game object of index.js. */
  class Game {
    var pressedKeys: set<int>
    var playerObj: Option<Player>
    var gameObjs: seq<MapObj>
    /** What the game has sent to the server, oldest first. */
    var sent: seq<string>

    /** `new Game(ws, username)`: no keys, no player, no objects. */
    constructor ()
      ensures pressedKeys == {} && playerObj == None && gameObjs == [] && sent == []
    {
      pressedKeys := {};
      playerObj := None;
      gameObjs := [];
      sent := [];
    }

    function PlayerSet(): set<object>
      reads this
    {
      if playerObj.Some? then {playerObj.value} else {}
    }

    /** The `keydown` listener: the key is held. */
    method KeyDown(code: int)
      modifies this`pressedKeys
      ensures pressedKeys == old(pressedKeys) + {code}
    {
      pressedKeys := pressedKeys + {code};
    }

    /** The `keyup` listener: the key is no longer held. */
    method KeyUp(code: int)
      modifies this`pressedKeys
      ensures pressedKeys == old(pressedKeys) - {code}
    {
      pressedKeys := pressedKeys - {code};
    }

    /** The inner loop of the `world` handler: the objects of row `j`, appended to `gameObjs`. */
    method ReadRow(row: string, j: int)
      modifies this`gameObjs
      ensures gameObjs == old(gameObjs) + RowObjs(row, j, |row|, KindOf, NO_OFFSET)
    {
      var i := 0;
      while i < |row|
        invariant 0 <= i <= |row|
        invariant gameObjs == old(gameObjs) + RowObjs(row, j, i, KindOf, NO_OFFSET)
      {
        var pos := CellPos(i, j);
        match KindOf(row[i]) {
          case Some(k) =>
            gameObjs := gameObjs + [MapObj(k, pos)];
          case None =>
        }
        i := i + 1;
      }
    }

    /** The outer loop of the `world` handler: the objects of every row, appended to `gameObjs`. */
    method ReadRows(rows: seq<string>)
      modifies this`gameObjs
      ensures gameObjs == old(gameObjs) + MapObjs(rows, |rows|, KindOf, NO_OFFSET)
    {
      var j := 0;
      while j < |rows|
        invariant 0 <= j <= |rows|
        invariant gameObjs == old(gameObjs) + MapObjs(rows, j, KindOf, NO_OFFSET)
      {
        ghost var before := gameObjs;
        ReadRow(rows[j], j);
        assert MapObjs(rows, j + 1, KindOf, NO_OFFSET) == MapObjs(rows, j, KindOf, NO_OFFSET) + RowObjs(rows[j], j, |rows[j]|, KindOf, NO_OFFSET);
        assert gameObjs == old(gameObjs) + (MapObjs(rows, j, KindOf, NO_OFFSET) + RowObjs(rows[j], j, |rows[j]|, KindOf, NO_OFFSET));
        j := j + 1;
      }
    }

    /**
     * The `world` handler: the objects are rebuilt from the rows, and the
     * player is created at the spawn point, or moved there if it exists.
     */
    method HandleWorld(parts: seq<string>, parseInt: string -> real)
      modifies this`gameObjs, this`playerObj, PlayerSet()
      ensures gameObjs == MapObjs(Rows(parts), |Rows(parts)|, KindOf, NO_OFFSET)
      ensures playerObj.Some? && playerObj.value.pos == Spawn(parts, parseInt)
      ensures old(playerObj).Some? ==> playerObj == old(playerObj)
      ensures old(playerObj).None? ==> fresh(playerObj.value)
    {
      var origin := Spawn(parts, parseInt);
      gameObjs := [];
      ReadRows(Rows(parts));
      if playerObj.Some? {
        playerObj.value.pos := origin;
      } else {
        var p := new Player(origin);
        playerObj := Some(p);
      }
    }

    /** The `movedto` handler: the player jumps to the position; with no player it throws. */
    method HandleMovedTo(parts: seq<string>, parseInt: string -> real) returns (r: Result<()>)
      modifies PlayerSet()
      ensures r.Err? <==> playerObj.None?
      ensures r.Err? ==> r.error == TypeError
      ensures r.Ok? ==> playerObj.value.pos == Spawn(parts, parseInt)
    {
      if playerObj.None? {
        return Err(TypeError);
      }
      playerObj.value.MoveTo(Spawn(parts, parseInt));
      return Ok(());
    }

    /** `handleWSMessage`: `world` and `movedto` are handled; every other message is ignored. */
    method HandleWSMessage(data: string, parseInt: string -> real) returns (r: Result<()>)
      modifies this`gameObjs, this`playerObj, PlayerSet()
      ensures StartsWith(data, "world|") ==>
        r.Ok? && playerObj.Some? &&
        gameObjs == MapObjs(Rows(Split(data, '|')), |Rows(Split(data, '|'))|, KindOf, NO_OFFSET) &&
        playerObj.value.pos == Spawn(Split(data, '|'), parseInt)
      ensures StartsWith(data, "movedto|") ==>
        gameObjs == old(gameObjs) && playerObj == old(playerObj) &&
        (r.Err? <==> playerObj.None?) && (r.Ok? ==> playerObj.value.pos == Spawn(Split(data, '|'), parseInt))
      ensures !StartsWith(data, "world|") && !StartsWith(data, "movedto|") ==>
        r.Ok? && gameObjs == old(gameObjs) && playerObj == old(playerObj) && unchanged(PlayerSet())
    {
      if StartsWith(data, "world|") {
        HandleWorld(Split(data, '|'), parseInt);
        r := Ok(());
      } else if StartsWith(data, "movedto|") {
        r := HandleMovedTo(Split(data, '|'), parseInt);
      } else {
        r := Ok(());
      }
    }

    /**
     * `update`: the player walks one step per held arrow in the order left, up,
     * right, down, and the frame's move string goes to the server; with no
     * player the first held arrow throws before anything is sent.
     */
    method Update(dt: real) returns (r: Result<()>)
      modifies this`sent, PlayerSet()
      ensures playerObj.None? ==> sent == old(sent) && (r.Err? <==> MoveStr(pressedKeys) != "") && (r.Err? ==> r.error == TypeError)
      ensures playerObj.Some? ==>
        r.Ok? && sent == old(sent) + MoveMessages(pressedKeys) &&
        playerObj.value.pos == Session.Walk(old(playerObj.value.pos), MoveStr(pressedKeys), Distance(pressedKeys, dt))
    {
      var keys := pressedKeys;
      var multiplier := 1.0;
      var fastmove := false;
      if Session.SHIFT in keys {
        multiplier := SPEED_MULTIPLIER;
        fastmove := true;
      }
      var dist := PLAYER_SPEED * dt * multiplier;
      assert dist == Distance(keys, dt);
      var moveStr;
      r, moveStr := WalkArrows(keys, dist);
      if r.Err? {
        return;
      }
      if moveStr != "" {
        if fastmove {
          sent := sent + ["fastmove|" + moveStr];
        } else {
          sent := sent + ["move|" + moveStr];
        }
      }
    }

    /** The four arrows of `update` in turn, building the move string. */
    method WalkArrows(keys: set<int>, dist: real) returns (r: Result<()>, moveStr: string)
      modifies PlayerSet()
      ensures r.Err? <==> playerObj.None? && MoveStr(keys) != ""
      ensures r.Err? ==> r.error == TypeError
      ensures r.Ok? ==> moveStr == MoveStr(keys)
      ensures playerObj.Some? ==> playerObj.value.pos == Session.Walk(old(playerObj.value.pos), MoveStr(keys), dist)
    {
      moveStr := "";
      ghost var start := if playerObj.Some? then playerObj.value.pos else NO_OFFSET;
      assert "" + Session.Letter(Session.KEY_LEFT in keys, 'l') == Session.Letter(Session.KEY_LEFT in keys, 'l');
      r, moveStr := Arrow(Session.KEY_LEFT in keys, 'l', Vec(-dist, 0.0), moveStr, start, dist);
      if r.Err? {
        return;
      }
      r, moveStr := Arrow(Session.KEY_UP in keys, 'u', Vec(0.0, -dist), moveStr, start, dist);
      if r.Err? {
        return;
      }
      r, moveStr := Arrow(Session.KEY_RIGHT in keys, 'r', Vec(dist, 0.0), moveStr, start, dist);
      if r.Err? {
        return;
      }
      r, moveStr := Arrow(Session.KEY_DOWN in keys, 'd', Vec(0.0, dist), moveStr, start, dist);
    }

    /**
     * One arrow of `update`: when held, its letter joins the move string and
     * the player moves by `offset`, the step of that letter; with no player
     * that throws.
     */
    method Arrow(held: bool, letter: char, offset: Vec, moveStr: string, ghost start: Vec, ghost dist: real)
      returns (r: Result<()>, moveStr': string)
      requires offset == Session.Step(letter, dist)
      requires playerObj.Some? ==> playerObj.value.pos == Session.Walk(start, moveStr, dist)
      requires playerObj.None? ==> moveStr == ""
      modifies PlayerSet()
      ensures moveStr' == moveStr + Session.Letter(held, letter)
      ensures r.Err? <==> held && playerObj.None?
      ensures r.Err? ==> r.error == TypeError
      ensures playerObj.Some? ==> playerObj.value.pos == Session.Walk(start, moveStr', dist)
    {
      Session.WalkAppend(start, moveStr, held, letter, dist);
      moveStr' := moveStr + Session.Letter(held, letter);
      if held {
        if playerObj.None? {
          return Err(TypeError), moveStr';
        }
        playerObj.value.Move(offset);
      }
      r := Ok(());
    }
  }
}
