/**
 * The second browser prototype (play.js at the top of the repository), the
 * client of the prototype server. A `world` message places only grass, each
 * blade seen from the centre of the spawn cell; `movedto|x|y` puts the player
 * where the server says; every frame each held arrow sends its own
 * `move|<letter>` and moves the player at once. `parseInt` is a parameter and
 * what `ws.send` sends is appended to `sent`.
 */
module ProtoPlay {
  import opened Wrappers
  import opened Text
  import opened ClientGeometry
  import Session
  import ProtoIndex
  import ProtoServer
  import ServerGeometry

  const PLAYER_SPEED: real := 20.0

  /** The `switch` of the world handler: only g places anything, and it places grass. */
  function GrassOnly(c: char): (k: Option<ProtoIndex.Kind>)
    ensures k.Some? <==> c == 'g'
    ensures k.Some? ==> k.value == ProtoIndex.Grass
  {
    if c == 'g' then Some(ProtoIndex.Grass) else None
  }

  /** The centre of the spawn cell of a `world` message: `spawn * BLOCK_WIDTH + BLOCK_WIDTH / 2` on each axis. */
  function Origin(parts: seq<string>, parseInt: string -> real): Vec
  {
    Vec(parseInt(Session.Part(parts, 1)) * 16.0 + 8.0, parseInt(Session.Part(parts, 2)) * 16.0 + 8.0)
  }

  /** The objects a `world` message places. */
  function WorldObjs(parts: seq<string>, parseInt: string -> real): seq<ProtoIndex.MapObj>
  {
    var rows := ProtoIndex.Rows(parts);
    ProtoIndex.MapObjs(rows, |rows|, GrassOnly, Origin(parts, parseInt))
  }

  /**
   * The world handler places grass at cell `(i, j)`, measured from the spawn
   * point, exactly when row `j` has a g at column `i`, and nothing else.
   */
  lemma WorldObjsMembers(parts: seq<string>, parseInt: string -> real, k: ProtoIndex.Kind, i: int, j: int)
    ensures var rows := ProtoIndex.Rows(parts);
      ProtoIndex.MapObj(k, RelativeTo(ProtoIndex.CellPos(i, j), Origin(parts, parseInt))) in WorldObjs(parts, parseInt) <==>
      k == ProtoIndex.Grass && 0 <= j < |rows| && 0 <= i < |rows[j]| && rows[j][i] == 'g'
  {
    var rows := ProtoIndex.Rows(parts);
    ProtoIndex.MapObjsMembers(rows, |rows|, GrassOnly, Origin(parts, parseInt), k, i, j);
  }

  /** The spawn cell's own corner lies half a block up and left of the origin. */
  lemma OriginCentresSpawnCell(parts: seq<string>, parseInt: string -> real, sx: int, sy: int)
    requires parseInt(Session.Part(parts, 1)) == sx as real && parseInt(Session.Part(parts, 2)) == sy as real
    ensures RelativeTo(ProtoIndex.CellPos(sx, sy), Origin(parts, parseInt)) == Vec(-8.0, -8.0)
  {
  }

  /** The message one held arrow sends. */
  function MoveMessage(c: char): string
  {
    "move|" + [c]
  }

  /** The messages of a frame's arrows: one `move|<letter>` per letter, in order. */
  function MoveMessages(letters: string): (msgs: seq<string>)
    ensures |msgs| == |letters|
  {
    if |letters| == 0 then []
    else MoveMessages(letters[..|letters| - 1]) + [MoveMessage(letters[|letters| - 1])]
  }

  /** Message `k` of a frame names letter `k`. */
  lemma {:induction false} MoveMessagesAt(letters: string, k: int)
    requires 0 <= k < |letters|
    ensures MoveMessages(letters)[k] == MoveMessage(letters[k])
    decreases |letters|
  {
    if k < |letters| - 1 {
      MoveMessagesAt(letters[..|letters| - 1], k);
    }
  }

  lemma MoveMessagesAppend(letters: string, held: bool, c: char)
    ensures MoveMessages(letters + Session.Letter(held, c)) ==
      MoveMessages(letters) + (if held then [MoveMessage(c)] else [])
  {
    if held {
      assert (letters + [c])[..|letters|] == letters;
    } else {
      assert letters + Session.Letter(held, c) == letters;
    }
  }

  /** The letters of a frame are among l, u, r and d. */
  lemma MoveStrAlphabet(keys: set<int>, k: int)
    requires 0 <= k < |ProtoIndex.MoveStr(keys)|
    ensures ProtoIndex.MoveStr(keys)[k] in "lurd"
  {
    var l, u, r, d := Session.Letter(Session.KEY_LEFT in keys, 'l'), Session.Letter(Session.KEY_UP in keys, 'u'),
      Session.Letter(Session.KEY_RIGHT in keys, 'r'), Session.Letter(Session.KEY_DOWN in keys, 'd');
    var s := ProtoIndex.MoveStr(keys);
    assert s == l + u + r + d;
    if k < |l| {
      assert s[k] == l[k];
    } else if k < |l + u| {
      assert s[k] == u[k - |l|];
    } else if k < |l + u + r| {
      assert s[k] == r[k - |l + u|];
    } else {
      assert s[k] == d[k - |l + u + r|];
    }
  }

  /** A server vector as the client's. */
  function ClientVec(v: ServerGeometry.Vec): Vec
  {
    Vec(v.x, v.y)
  }

  /**
   * The prototype server understands every message of a frame: each names a
   * direction, and the client stepped along it by the frame's distance.
   */
  lemma ServerReadsFrame(keys: set<int>, dt: real, k: int)
    requires 0 <= k < |ProtoIndex.MoveStr(keys)|
    ensures var dir := ProtoServer.MoveDirection(MoveMessages(ProtoIndex.MoveStr(keys))[k]);
      dir.Some? &&
      Session.Step(ProtoIndex.MoveStr(keys)[k], PLAYER_SPEED * dt) == ClientVec(ServerGeometry.Scale(dir.value, PLAYER_SPEED * dt))
  {
    MoveStrAlphabet(keys, k);
    ServerReadsLetters(ProtoIndex.MoveStr(keys), PLAYER_SPEED * dt, k);
  }

  /** Message `k` of any letters sent is read as the direction of letter `k`. */
  lemma ServerReadsLetters(s: string, dist: real, k: int)
    requires 0 <= k < |s| && s[k] in "lurd"
    ensures var dir := ProtoServer.MoveDirection(MoveMessages(s)[k]);
      dir.Some? && Session.Step(s[k], dist) == ClientVec(ServerGeometry.Scale(dir.value, dist))
  {
    MoveMessagesAt(s, k);
    LetterDirection(s[k], dist);
  }

  /** The server reads the client's message for one letter as the direction the client stepped in. */
  lemma LetterDirection(c: char, dist: real)
    requires c in "lurd"
    ensures var dir := ProtoServer.MoveDirection(MoveMessage(c));
      dir.Some? && Session.Step(c, dist) == ClientVec(ServerGeometry.Scale(dir.value, dist))
  {
    ProtoServer.MoveLetters([c]);
  }

  /** The game object of play.js. */
  class Game {
    var pressedKeys: set<int>
    var playerObj: Option<ProtoIndex.Player>
    var gameObjs: seq<ProtoIndex.MapObj>
    /** What the game has sent to the server, oldest first. */
    var sent: seq<string>

    /** `new Game(ws, username)`: no keys, no player, no objects. */
    constructor ()
      ensures pressedKeys == {} && playerObj == None && gameObjs == [] && sent == []
    {
      pressedKeys := {};
      playerObj := None;
      gameObjs := [];
      sent := [];
    }

    function PlayerSet(): set<object>
      reads this
    {
      if playerObj.Some? then {playerObj.value} else {}
    }

    /** The `keydown` listener: the key is held. */
    method KeyDown(code: int)
      modifies this`pressedKeys
      ensures pressedKeys == old(pressedKeys) + {code}
    {
      pressedKeys := pressedKeys + {code};
    }

    /** The `keyup` listener: the key is no longer held. */
    method KeyUp(code: int)
      modifies this`pressedKeys
      ensures pressedKeys == old(pressedKeys) - {code}
    {
      pressedKeys := pressedKeys - {code};
    }

    /** `initialize`: a new player at (0, 0). */
    method Initialize()
      modifies this`playerObj
      ensures playerObj.Some? && fresh(playerObj.value) && playerObj.value.pos == Vec(0.0, 0.0)
    {
      var p := new ProtoIndex.Player(Vec(0.0, 0.0));
      playerObj := Some(p);
    }

    /** The inner loop of the `world` handler: the grass of row `j`, appended to `gameObjs`. */
    method ReadRow(row: string, j: int, origin: Vec)
      modifies this`gameObjs
      ensures gameObjs == old(gameObjs) + ProtoIndex.RowObjs(row, j, |row|, GrassOnly, origin)
    {
      var i := 0;
      while i < |row|
        invariant 0 <= i <= |row|
        invariant gameObjs == old(gameObjs) + ProtoIndex.RowObjs(row, j, i, GrassOnly, origin)
      {
        ghost var cell := ProtoIndex.CellObj(row[i], i, j, GrassOnly, origin);
        ghost var before := ProtoIndex.RowObjs(row, j, i, GrassOnly, origin);
        assert ProtoIndex.RowObjs(row, j, i + 1, GrassOnly, origin) == before + cell;
        if row[i] == 'g' {
          var pos := ProtoIndex.CellPos(i, j);
          pos := RelativeTo(pos, origin);
          gameObjs := gameObjs + [ProtoIndex.MapObj(ProtoIndex.Grass, pos)];
          assert cell == [ProtoIndex.MapObj(ProtoIndex.Grass, pos)];
        } else {
          assert cell == [];
        }
        assert gameObjs == old(gameObjs) + before + cell;
        i := i + 1;
      }
    }

    /** The outer loop of the `world` handler: the grass of every row, appended to `gameObjs`. */
    method ReadRows(rows: seq<string>, origin: Vec)
      modifies this`gameObjs
      ensures gameObjs == old(gameObjs) + ProtoIndex.MapObjs(rows, |rows|, GrassOnly, origin)
    {
      var j := 0;
      while j < |rows|
        invariant 0 <= j <= |rows|
        invariant gameObjs == old(gameObjs) + ProtoIndex.MapObjs(rows, j, GrassOnly, origin)
      {
        ReadRow(rows[j], j, origin);
        assert ProtoIndex.MapObjs(rows, j + 1, GrassOnly, origin) ==
          ProtoIndex.MapObjs(rows, j, GrassOnly, origin) + ProtoIndex.RowObjs(rows[j], j, |rows[j]|, GrassOnly, origin);
        assert gameObjs == old(gameObjs) +
          (ProtoIndex.MapObjs(rows, j, GrassOnly, origin) + ProtoIndex.RowObjs(rows[j], j, |rows[j]|, GrassOnly, origin));
        j := j + 1;
      }
    }

    /** The `world` handler: the objects are rebuilt from the rows; the player is left where it is. */
    method HandleWorld(parts: seq<string>, parseInt: string -> real)
      modifies this`gameObjs
      ensures gameObjs == WorldObjs(parts, parseInt)
    {
      var origin := Origin(parts, parseInt);
      gameObjs := [];
      ReadRows(ProtoIndex.Rows(parts), origin);
    }

    /** The `movedto` handler: the player jumps to the position; with no player it throws. */
    method HandleMovedTo(parts: seq<string>, parseInt: string -> real) returns (r: Result<()>)
      modifies PlayerSet()
      ensures r.Err? <==> playerObj.None?
      ensures r.Err? ==> r.error == TypeError
      ensures r.Ok? ==> playerObj.value.pos == ProtoIndex.Spawn(parts, parseInt)
    {
      if playerObj.None? {
        return Err(TypeError);
      }
      playerObj.value.MoveTo(ProtoIndex.Spawn(parts, parseInt));
      return Ok(());
    }

    /** `handleWSMessage`: `world` and `movedto` are handled; every other message is ignored. */
    method HandleWSMessage(data: string, parseInt: string -> real) returns (r: Result<()>)
      modifies this`gameObjs, PlayerSet()
      ensures StartsWith(data, "world|") ==>
        r.Ok? && gameObjs == WorldObjs(Split(data, '|'), parseInt) && unchanged(PlayerSet())
      ensures StartsWith(data, "movedto|") ==>
        gameObjs == old(gameObjs) &&
        (r.Err? <==> playerObj.None?) && (r.Ok? ==> playerObj.value.pos == ProtoIndex.Spawn(Split(data, '|'), parseInt))
      ensures !StartsWith(data, "world|") && !StartsWith(data, "movedto|") ==>
        r.Ok? && gameObjs == old(gameObjs) && unchanged(PlayerSet())
    {
      if StartsWith(data, "world|") {
        HandleWorld(Split(data, '|'), parseInt);
        r := Ok(());
      } else if StartsWith(data, "movedto|") {
        r := HandleMovedTo(Split(data, '|'), parseInt);
      } else {
        r := Ok(());
      }
    }

    /**
     * `update`: for each held arrow in the order left, up, right, down, its
     * `move` message is sent and then the player steps `PLAYER_SPEED * dt`
     * that way; with no player the first held arrow's message goes out and
     * the step throws.
     */
    method Update(dt: real) returns (r: Result<()>)
      modifies this`sent, PlayerSet()
      ensures var s := ProtoIndex.MoveStr(pressedKeys);
        playerObj.None? ==>
          (r.Err? <==> s != "") && (r.Err? ==> r.error == TypeError) &&
          sent == old(sent) + MoveMessages(s[..if s == "" then 0 else 1])
      ensures playerObj.Some? ==>
        r.Ok? && sent == old(sent) + MoveMessages(ProtoIndex.MoveStr(pressedKeys)) &&
        playerObj.value.pos == Session.Walk(old(playerObj.value.pos), ProtoIndex.MoveStr(pressedKeys), PLAYER_SPEED * dt)
    {
      var keys := pressedKeys;
      var dist := PLAYER_SPEED * dt;
      ghost var start := if playerObj.Some? then playerObj.value.pos else Vec(0.0, 0.0);
      ghost var letters := "";
      assert MoveMessages(letters) == [];
      assert "" + Session.Letter(Session.KEY_LEFT in keys, 'l') == Session.Letter(Session.KEY_LEFT in keys, 'l');
      r, letters := Arrow(Session.KEY_LEFT in keys, 'l', Vec(-dist, 0.0), letters, start, dist, old(sent));
      if r.Err? {
        return;
      }
      r, letters := Arrow(Session.KEY_UP in keys, 'u', Vec(0.0, -dist), letters, start, dist, old(sent));
      if r.Err? {
        return;
      }
      r, letters := Arrow(Session.KEY_RIGHT in keys, 'r', Vec(dist, 0.0), letters, start, dist, old(sent));
      if r.Err? {
        return;
      }
      r, letters := Arrow(Session.KEY_DOWN in keys, 'd', Vec(0.0, dist), letters, start, dist, old(sent));
      assert letters == ProtoIndex.MoveStr(keys);
    }

    /**
     * One arrow of `update`: when held, its message is sent and the player
     * moves by `offset`, the step of that letter; with no player the move
     * throws after the send. `letters` are the held arrows so far.
     */
    method Arrow(held: bool, letter: char, offset: Vec, ghost letters: string, ghost start: Vec, ghost dist: real,
                 ghost sent0: seq<string>)
      returns (r: Result<()>, ghost letters': string)
      requires offset == Session.Step(letter, dist)
      requires sent == sent0 + MoveMessages(letters)
      requires playerObj.Some? ==> playerObj.value.pos == Session.Walk(start, letters, dist)
      requires playerObj.None? ==> letters == ""
      modifies this`sent, PlayerSet()
      ensures letters' == letters + Session.Letter(held, letter)
      ensures sent == old(sent) + (if held then [MoveMessage(letter)] else [])
      ensures sent == sent0 + MoveMessages(letters')
      ensures r.Err? <==> held && playerObj.None?
      ensures r.Err? ==> r.error == TypeError
      ensures playerObj.Some? ==> playerObj.value.pos == Session.Walk(start, letters', dist)
    {
      Session.WalkAppend(start, letters, held, letter, dist);
      MoveMessagesAppend(letters, held, letter);
      letters' := letters + Session.Letter(held, letter);
      if held {
        sent := sent + ["move|" + [letter]];
        if playerObj.None? {
          return Err(TypeError), letters';
        }
        playerObj.value.Move(offset);
      }
      r := Ok(());
    }
  }
}
