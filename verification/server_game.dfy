/**
 * The connected players (server/game.py, and the state server/player.py
 * gives each player).
 */
module ServerGame {
  import opened Wrappers
  import opened ServerGeometry
  import opened Entities
  import opened Battle

  /**
   * A connected player. In the source a Player is at once an Entity (its
   * body, which has no UUID) and a Combatant (which knows its username).
   */
  class Player {
    const username: string
    var worldId: string
    const body: Entity
    const combatant: Combatant
    var timeOfLastMove: real

    ghost predicate Valid()
      reads this, body
    {
      body.cls == PlayerClass && body.uuid.None? && combatant.username == Some(username)
    }

    /**
     * `Player.__init__`: an entity whose drawn UUID is deleted again, a
     * combatant with the default statistics, and no move made yet.
     */
    constructor (username: string, pos: Vec, velocity: Vec, facing: Direction, worldId: string)
      ensures Valid() && fresh(body) && fresh(combatant)
      ensures this.username == username && this.worldId == worldId && timeOfLastMove == 0.0
      ensures body.pos == pos && body.velocity == velocity && body.facing == facing
      ensures combatant.hp == DEFAULT_HP && combatant.moves == DEFAULT_MOVES && combatant.speed == DEFAULT_SPEED
    {
      this.username := username;
      this.worldId := worldId;
      var b := new Entity(PlayerClass, pos, velocity, facing, 0, 0.0);
      b.uuid := None;
      body := b;
      combatant := new Combatant(Some(username));
      timeOfLastMove := 0.0;
    }
  }

  /** The first player in `players` named `username`, or ValueError. */
  function FindPlayer(players: seq<Player>, username: string): (r: Result<Player>)
    ensures r.Ok? <==> exists i :: 0 <= i < |players| && players[i].username == username
    ensures r.Ok? ==> exists i :: 0 <= i < |players| && players[i] == r.value && r.value.username == username &&
                        forall k :: 0 <= k < i ==> players[k].username != username
    ensures r.Err? ==> r.error == ValueError
  {
    if |players| == 0 then Err(ValueError)
    else if players[0].username == username then Ok(players[0])
    else
      var r := FindPlayer(players[1..], username);
      if r.Ok? then
        var i :| 0 <= i < |players[1..]| && players[1..][i] == r.value && r.value.username == username &&
                 forall k :: 0 <= k < i ==> players[1..][k].username != username;
        assert players[i + 1] == r.value;
        r
      else
        r
  }

  /**
   * Appending a player makes its username findable, and a player added
   * earlier under the same username still wins the lookup (there is no
   * deduplication).
   */
  lemma {:induction false} FindAfterAppend(players: seq<Player>, p: Player, name: string)
    ensures FindPlayer(players + [p], p.username).Ok?
    ensures FindPlayer(players, name).Ok? ==> FindPlayer(players + [p], name) == FindPlayer(players, name)
    ensures FindPlayer(players, name).Err? && name == p.username ==> FindPlayer(players + [p], name) == Ok(p)
  {
    if |players| == 0 {
      assert players + [p] == [p];
    } else {
      assert (players + [p])[1..] == players[1..] + [p];
      FindAfterAppend(players[1..], p, name);
    }
  }

  /** The game: the list of every player who has logged in. */
  class Game {
    var players: seq<Player>

    /** There are no players at first. */
    constructor ()
      ensures players == []
    {
      players := [];
    }

    /** `get_player`. */
    function GetPlayer(username: string): (r: Result<Player>)
      reads this
      ensures r == FindPlayer(players, username)
    {
      FindPlayer(players, username)
    }

    /** `add_player`: append, without checking for a duplicate username. */
    method AddPlayer(p: Player)
      modifies this
      ensures players == old(players) + [p]
      ensures GetPlayer(p.username).Ok?
    {
      FindAfterAppend(players, p, p.username);
      players := players + [p];
    }
  }
}
