/**
 * The messages the server sends to a client (server/util.py). Every message
 * is a pipe-separated string whose first piece names it. How Python writes a
 * float (`fmt`) and how `json.dumps` writes an object (`dumps`) are
 * parameters; integers are written by `Decimal.IntToString`.
 */
module Messages {
  import opened Wrappers
  import opened Text
  import opened Decimal
  import opened Json
  import opened Uuids
  import opened ServerGeometry
  import opened Entities
  import opened Battle
  import opened ServerGame

  /** Nothing `fmt` writes contains the separator. */
  ghost predicate PipeFree(fmt: real -> string)
  {
    forall r :: '|' !in fmt(r)
  }

  /** No piece contains the separator. */
  predicate PiecesPipeFree(pieces: seq<string>)
  {
    forall i :: 0 <= i < |pieces| ==> '|' !in pieces[i]
  }

  /** `send_world`: the client form of the world, serialised by the caller. */
  function WorldMessage(worldJson: string): string
  {
    "world" + "|" + worldJson
  }

  /** A client splitting a `world` message finds the world's JSON after the first pipe. */
  lemma WorldFraming(worldJson: string)
    ensures Split(WorldMessage(worldJson), '|')[0] == "world"
    ensures Join(Split(WorldMessage(worldJson), '|')[1..], "|") == worldJson
  {
    SplitAfterPrefix("world", '|', worldJson);
  }

  /** `send_moved_to`: `movedto|x|y`. */
  function MovedTo(pos: Vec, fmt: real -> string): string
  {
    "movedto" + "|" + fmt(pos.x) + "|" + fmt(pos.y)
  }

  /** A client splitting a `movedto` message gets the two coordinates as written. */
  lemma MovedToFraming(pos: Vec, fmt: real -> string)
    requires PipeFree(fmt)
    ensures Split(MovedTo(pos, fmt), '|') == ["movedto", fmt(pos.x), fmt(pos.y)]
  {
    Join3("movedto", fmt(pos.x), fmt(pos.y), "|");
    SplitJoin(["movedto", fmt(pos.x), fmt(pos.y)], '|');
  }

  /** `send_sign`: `signtext|` then the sign's text. */
  function SignText(text: string): string
  {
    "signtext" + "|" + text
  }

  /** The sign's text, pipes and all, is what follows the first pipe. */
  lemma SignTextFraming(text: string)
    ensures Split(SignText(text), '|')[0] == "signtext"
    ensures Join(Split(SignText(text), '|')[1..], "|") == text
  {
    SplitAfterPrefix("signtext", '|', text);
  }

  /** The players `send_players` lists: those in world `worldId` other than `me`, in game order. */
  function Others(players: seq<Player>, me: string, worldId: string): (r: seq<Player>)
    reads set p | p in players
    ensures forall i :: 0 <= i < |r| ==> r[i] in players && r[i].worldId == worldId && r[i].username != me
    ensures forall i :: 0 <= i < |players| && players[i].worldId == worldId && players[i].username != me ==>
      players[i] in r
  {
    if |players| == 0 then []
    else
      var rest := Others(players[1..], me, worldId);
      assert forall i :: 1 <= i < |players| ==> players[i] == players[1..][i - 1];
      if players[0].worldId == worldId && players[0].username != me then [players[0]] + rest else rest
  }

  /**
   * `Others` keeps the game's order: a player added at the end of the
   * game's list comes last in the listing when it is in the world and is
   * not the sender, and is left out otherwise.
   */
  lemma {:induction false} OthersAppend(players: seq<Player>, p: Player, me: string, worldId: string)
    ensures Others(players + [p], me, worldId) ==
      Others(players, me, worldId) + (if p.worldId == worldId && p.username != me then [p] else [])
    decreases |players|
  {
    if |players| == 0 {
      assert players + [p] == [p];
      assert [p][1..] == [];
    } else {
      assert (players + [p])[1..] == players[1..] + [p];
      OthersAppend(players[1..], p, me, worldId);
    }
  }

  /** Each listed player's username and position. */
  function Listed(ps: seq<Player>): (r: seq<(string, Vec)>)
    reads set p | p in ps :: p.body
    ensures |r| == |ps|
    ensures forall i :: 0 <= i < |ps| ==> r[i] == (ps[i].username, ps[i].body.pos)
  {
    seq(|ps|, i requires 0 <= i < |ps| reads set p | p in ps :: p.body => (ps[i].username, ps[i].body.pos))
  }

  /** `name|x|y` for each listed player. */
  function Triples(entries: seq<(string, Vec)>, fmt: real -> string): (r: seq<string>)
    ensures |r| == |entries|
  {
    if |entries| == 0 then []
    else [entries[0].0 + "|" + fmt(entries[0].1.x) + "|" + fmt(entries[0].1.y)] + Triples(entries[1..], fmt)
  }

  /** The pieces a client sees after the `players` piece: name, x, y for each player in turn. */
  function PlayerFields(entries: seq<(string, Vec)>, fmt: real -> string): (r: seq<string>)
    ensures |r| == 3 * |entries|
  {
    if |entries| == 0 then []
    else [entries[0].0, fmt(entries[0].1.x), fmt(entries[0].1.y)] + PlayerFields(entries[1..], fmt)
  }

  /** `send_players`: `players|` then the other players of the world as `name|x|y`, joined by pipes. */
  function PlayersMessage(players: seq<Player>, me: string, worldId: string, fmt: real -> string): string
    reads set p | p in players, set p | p in players :: p.body
  {
    "players" + "|" + Join(Triples(Listed(Others(players, me, worldId)), fmt), "|")
  }

  lemma {:induction false} TriplesJoin(entries: seq<(string, Vec)>, fmt: real -> string)
    requires |entries| >= 1
    ensures Join(Triples(entries, fmt), "|") == Join(PlayerFields(entries, fmt), "|")
    decreases |entries|
  {
    var e := entries[0];
    var head := [e.0, fmt(e.1.x), fmt(e.1.y)];
    Join3(e.0, fmt(e.1.x), fmt(e.1.y), "|");
    if |entries| > 1 {
      TriplesJoin(entries[1..], fmt);
      JoinAppend(head, PlayerFields(entries[1..], fmt), "|");
    } else {
      assert PlayerFields(entries, fmt) == head;
    }
  }

  lemma {:induction false} FieldsPipeFree(entries: seq<(string, Vec)>, fmt: real -> string, i: nat)
    requires PipeFree(fmt)
    requires forall k :: 0 <= k < |entries| ==> '|' !in entries[k].0
    requires i < |PlayerFields(entries, fmt)|
    ensures '|' !in PlayerFields(entries, fmt)[i]
    decreases |entries|
  {
    if i >= 3 {
      FieldsPipeFree(entries[1..], fmt, i - 3);
    }
  }

  /**
   * A client splitting a `players` message gets the name, x and y of each
   * other player in the world, in order, or a single empty piece when there
   * is nobody to list; as long as no name and no number contains a pipe.
   */
  lemma PlayersFraming(players: seq<Player>, me: string, worldId: string, fmt: real -> string)
    requires PipeFree(fmt)
    requires forall p :: p in players ==> '|' !in p.username
    ensures var listed := Listed(Others(players, me, worldId));
      Split(PlayersMessage(players, me, worldId, fmt), '|') ==
        ["players"] + (if |listed| == 0 then [""] else PlayerFields(listed, fmt))
  {
    var listed := Listed(Others(players, me, worldId));
    var body := Join(Triples(listed, fmt), "|");
    SplitPrefixed("players", body);
    if |listed| > 0 {
      TriplesJoin(listed, fmt);
      var fields := PlayerFields(listed, fmt);
      forall i | 0 <= i < |fields|
        ensures '|' !in fields[i]
      {
        FieldsPipeFree(listed, fmt, i);
      }
      SplitJoin(fields, '|');
    }
  }

  /** `e.to_json(True)` for each entity, stopping at the first that fails. */
  function EntityJsons(reg: seq<(string, EntityClass)>, es: seq<Entity>): (r: Result<seq<Json>>)
    reads set e | e in es
    ensures r.Ok? <==> forall i :: 0 <= i < |es| ==> es[i].ToJson(reg).Ok?
    ensures r.Ok? ==> |r.value| == |es| && forall i :: 0 <= i < |es| ==> r.value[i] == es[i].ToJson(reg).value
  {
    if |es| == 0 then Ok([])
    else
      var j :- es[0].ToJson(reg);
      var rest :- EntityJsons(reg, es[1..]);
      assert forall i :: 1 <= i < |es| ==> es[i] == es[1..][i - 1];
      Ok([j] + rest)
  }

  /** `json.dumps` of each object. */
  function Dumps(js: seq<Json>, dumps: Json -> string): (texts: seq<string>)
    ensures |texts| == |js| && forall i :: 0 <= i < |js| ==> texts[i] == dumps(js[i])
  {
    seq(|js|, i requires 0 <= i < |js| => dumps(js[i]))
  }

  /** `send_entities`: `entities|` then each entity's compact JSON, joined by pipes. */
  function EntitiesMessage(reg: seq<(string, EntityClass)>, es: seq<Entity>, dumps: Json -> string): (r: Result<string>)
    reads set e | e in es
    ensures r.Ok? <==> EntityJsons(reg, es).Ok?
  {
    var js :- EntityJsons(reg, es);
    Ok("entities" + "|" + Join(Dumps(js, dumps), "|"))
  }

  /**
   * A client splitting an `entities` message gets each entity's JSON in
   * world order (a single empty piece for no entities), provided no JSON
   * text contains a pipe.
   */
  lemma EntitiesFraming(reg: seq<(string, EntityClass)>, es: seq<Entity>, dumps: Json -> string)
    requires EntityJsons(reg, es).Ok?
    requires PiecesPipeFree(Dumps(EntityJsons(reg, es).value, dumps))
    ensures var texts := Dumps(EntityJsons(reg, es).value, dumps);
      Split(EntitiesMessage(reg, es, dumps).value, '|') == ["entities"] + (if |es| == 0 then [""] else texts)
  {
    var texts := Dumps(EntityJsons(reg, es).value, dumps);
    SplitPrefixed("entities", Join(texts, "|"));
    if |texts| > 0 {
      SplitJoin(texts, '|');
    }
  }

  /** `send_dialogue`: `dialogue|<uuid hex>|text`. */
  function Dialogue(u: Uuid, text: string): string
  {
    "dialogue" + "|" + Hex(u) + "|" + text
  }

  /** A client finds the speaker's UUID in the second piece and re-joins the rest into the text. */
  lemma DialogueFraming(u: Uuid, text: string)
    ensures var parts := Split(Dialogue(u, text), '|');
      |parts| >= 3 && parts[0] == "dialogue" && parts[1] == Hex(u) && Join(parts[2..], "|") == text
  {
    assert Dialogue(u, text) == "dialogue" + "|" + (Hex(u) + "|" + text);
    SplitPrefixed("dialogue", Hex(u) + "|" + text);
    SplitPrefixed(Hex(u), text);
    JoinSplit(text, '|');
    assert Split(Dialogue(u, text), '|')[2..] == Split(text, '|');
  }

  /** `send_dialogue_choices`: `dialoguechoice|<uuid hex>|` then the choices joined by pipes. */
  function DialogueChoices(u: Uuid, lines: seq<string>): string
  {
    "dialoguechoice" + "|" + Hex(u) + "|" + Join(lines, "|")
  }

  /** A client splitting a `dialoguechoice` message gets the UUID and then each choice. */
  lemma DialogueChoicesFraming(u: Uuid, lines: seq<string>)
    requires |lines| >= 1 && PiecesPipeFree(lines)
    ensures Split(DialogueChoices(u, lines), '|') == ["dialoguechoice", Hex(u)] + lines
  {
    assert DialogueChoices(u, lines) == "dialoguechoice" + "|" + (Hex(u) + "|" + Join(lines, "|"));
    SplitPrefixed("dialoguechoice", Hex(u) + "|" + Join(lines, "|"));
    SplitPrefixed(Hex(u), Join(lines, "|"));
    SplitJoin(lines, '|');
  }

  /** `send_dialogue_end`: `dialogueend|<uuid hex>`. */
  function DialogueEnd(u: Uuid): string
  {
    "dialogueend" + "|" + Hex(u)
  }

  /** The second piece of a `dialogueend` message parses back to the speaker's UUID. */
  lemma DialogueEndFraming(u: Uuid)
    ensures Split(DialogueEnd(u), '|') == ["dialogueend", Hex(u)]
    ensures ParseUuid(JStr(Split(DialogueEnd(u), '|')[1])) == Ok(u)
  {
    SplitPrefixed("dialogueend", Hex(u));
    SplitNoSeparator(Hex(u), '|');
    HexRoundTrip(u);
  }

  /** What `send_tag` does: the message, who received it, and the failure that stopped it, if any. */
  datatype TagOutcome = TagOutcome(message: string, recipients: seq<Player>, failure: Option<Failure>)

  /**
   * `send_tag`: the same `tag|tagger|tagged` message goes to the tagger,
   * then to the tagged player; a closed connection (`closed`) is skipped
   * silently, but a username with no player raises ValueError, after the
   * tagger's copy may already have been sent.
   */
  function SendTag(players: seq<Player>, tagger: string, tagged: string, closed: Player -> bool): (r: TagOutcome)
    ensures r.message == "tag|" + tagger + "|" + tagged
    ensures forall p :: p in r.recipients ==> !closed(p) && (p.username == tagger || p.username == tagged)
    ensures FindPlayer(players, tagger).Err? ==> r == TagOutcome(r.message, [], Some(ValueError))
    ensures FindPlayer(players, tagger).Ok? && FindPlayer(players, tagged).Err? ==>
      r.failure == Some(ValueError) && |r.recipients| <= 1
    ensures FindPlayer(players, tagger).Ok? && FindPlayer(players, tagged).Ok? ==> r.failure.None?
    ensures (FindPlayer(players, tagger).Ok? && FindPlayer(players, tagged).Ok? &&
             !closed(FindPlayer(players, tagger).value) && !closed(FindPlayer(players, tagged).value)) ==>
      r.recipients == [FindPlayer(players, tagger).value, FindPlayer(players, tagged).value]
  {
    var message := "tag|" + tagger + "|" + tagged;
    match FindPlayer(players, tagger)
    case Err(e) => TagOutcome(message, [], Some(e))
    case Ok(p1) =>
      var first := if closed(p1) then [] else [p1];
      match FindPlayer(players, tagged)
      case Err(e) => TagOutcome(message, first, Some(e))
      case Ok(p2) => TagOutcome(message, first + (if closed(p2) then [] else [p2]), None)
  }

  const BATTLE_START: string := "battlestart"
  const BATTLE_END: string := "battleend"

  /** The names of the moves, in order. */
  function MoveNames(moves: seq<Move>): (names: seq<string>)
    ensures |names| == |moves|
    ensures forall i :: 0 <= i < |moves| ==> names[i] == moves[i].name
  {
    seq(|moves|, i requires 0 <= i < |moves| => moves[i].name)
  }

  /** `send_move_request`: `battlemovereq|` then the move names joined by pipes. */
  function MoveRequest(moves: seq<Move>): string
  {
    "battlemovereq" + "|" + Join(MoveNames(moves), "|")
  }

  /** A client splitting a move request gets the move names in order (one empty piece for none). */
  lemma MoveRequestFraming(moves: seq<Move>)
    requires PiecesPipeFree(MoveNames(moves))
    ensures Split(MoveRequest(moves), '|') == ["battlemovereq"] + (if |moves| == 0 then [""] else MoveNames(moves))
  {
    SplitPrefixed("battlemovereq", Join(MoveNames(moves), "|"));
    if |moves| > 0 {
      SplitJoin(MoveNames(moves), '|');
    }
  }

  /** `send_battle_status`: `battlestatus|<player hp>|<enemy hp>`. */
  function BattleStatus(playerHp: int, enemyHp: int): string
  {
    "battlestatus" + "|" + IntToString(playerHp) + "|" + IntToString(enemyHp)
  }

  /** `parseInt` of the second and third pieces gives back both hit-point counts. */
  lemma BattleStatusFraming(playerHp: int, enemyHp: int)
    ensures var parts := Split(BattleStatus(playerHp, enemyHp), '|');
      |parts| == 3 && parts[0] == "battlestatus" &&
      JsParseInt(parts[1]) == Some(playerHp) && JsParseInt(parts[2]) == Some(enemyHp)
  {
    Join3("battlestatus", IntToString(playerHp), IntToString(enemyHp), "|");
    SplitJoin(["battlestatus", IntToString(playerHp), IntToString(enemyHp)], '|');
    IntToStringRoundTrip(playerHp);
    IntToStringRoundTrip(enemyHp);
  }
}
