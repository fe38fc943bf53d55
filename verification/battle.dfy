/**
 * Turn-based battles between a player and an AI (server/battle.py). Each
 * round the faster combatant strikes first; the slower one strikes back only
 * while nobody's hit points have dropped to zero.
 */
module Battle {
  import opened Wrappers

  /** The `Move` namedtuple. */
  datatype Move = Move(name: string, damage: int)

  /** The three moves every new combatant knows. */
  const DEFAULT_MOVES: seq<Move> := [Move("Hit", 1), Move("Hithit", 2), Move("Hithithit", 3)]

  const DEFAULT_HP: int := 20
  const DEFAULT_SPEED: int := 20

  datatype BattleState = ONGOING | PLAYER_WIN | AI_WIN
  datatype BattleCombatant = PLAYER | AI

  /**
   * A combatant. A Player is also a Combatant, and battles find a player's
   * battle through its username; an AI combatant has none.
   */
  class Combatant {
    var hp: int
    var moves: seq<Move>
    var speed: int
    const username: Option<string>

    /** `Combatant.__init__`. */
    constructor (username: Option<string>)
      ensures hp == DEFAULT_HP && moves == DEFAULT_MOVES && speed == DEFAULT_SPEED
      ensures this.username == username
    {
      hp := DEFAULT_HP;
      moves := DEFAULT_MOVES;
      speed := DEFAULT_SPEED;
      this.username := username;
    }

    /** `is_faster_than`: strictly greater speed. */
    predicate IsFasterThan(other: Combatant)
      reads this, other
    {
      speed > other.speed
    }
  }

  /** Being faster is a strict order: never both ways, never against oneself. */
  lemma FasterIsStrict(a: Combatant, b: Combatant)
    ensures a.IsFasterThan(b) ==> !b.IsFasterThan(a)
    ensures !a.IsFasterThan(a)
    ensures a.speed == b.speed <==> !a.IsFasterThan(b) && !b.IsFasterThan(a)
  {
  }

  /** The hit points of the player's and the AI's combatant. */
  datatype Hps = Hps(player: int, ai: int)

  /**
   * `get_battle_state` on given hit points: the player's defeat is checked
   * before the AI's, so a double knock-out is an AI win.
   */
  function StateOf(h: Hps): (s: BattleState)
    ensures s == AI_WIN <==> h.player <= 0
    ensures s == PLAYER_WIN <==> h.player > 0 && h.ai <= 0
    ensures s == ONGOING <==> h.player > 0 && h.ai > 0
  {
    if h.player <= 0 then AI_WIN
    else if h.ai <= 0 then PLAYER_WIN
    else ONGOING
  }

  /** `process_move` on hit points: the mover's opponent loses the move's damage. */
  function Strike(who: BattleCombatant, move: Move, h: Hps): (r: Hps)
    ensures who == PLAYER ==> r.player == h.player && r.ai == h.ai - move.damage
    ensures who == AI ==> r.ai == h.ai && r.player == h.player - move.damage
  {
    if who == PLAYER then h.(ai := h.ai - move.damage) else h.(player := h.player - move.damage)
  }

  /**
   * Whether the player strikes first: when strictly faster, or on equal
   * speed when the random draw came out below one half (`coinLow`).
   */
  function PlayerFirst(playerSpeed: int, aiSpeed: int, coinLow: bool): (first: bool)
    ensures playerSpeed > aiSpeed ==> first
    ensures playerSpeed < aiSpeed ==> !first
    ensures playerSpeed == aiSpeed ==> (first <==> coinLow)
  {
    playerSpeed > aiSpeed || (playerSpeed == aiSpeed && coinLow)
  }

  /** One round of `process_moves` on hit points. */
  function Round(h: Hps, playerMove: Move, aiMove: Move, playerFirst: bool): Hps
  {
    var first := if playerFirst then PLAYER else AI;
    var second := if playerFirst then AI else PLAYER;
    var h1 := Strike(first, if playerFirst then playerMove else aiMove, h);
    if StateOf(h1) == ONGOING then Strike(second, if playerFirst then aiMove else playerMove, h1)
    else h1
  }

  /**
   * The slower combatant does not strike back once the first strike has
   * ended the battle: a first strike by the player that knocks out the AI
   * leaves the player's hit points alone, and the other way round.
   */
  lemma {:induction false} KnockOutStopsReply(h: Hps, playerMove: Move, aiMove: Move, playerFirst: bool)
    requires h.player > 0 && h.ai > 0
    ensures playerFirst && h.ai - playerMove.damage <= 0 ==>
      Round(h, playerMove, aiMove, playerFirst) == Hps(h.player, h.ai - playerMove.damage) &&
      StateOf(Round(h, playerMove, aiMove, playerFirst)) == PLAYER_WIN
    ensures !playerFirst && h.player - aiMove.damage <= 0 ==>
      Round(h, playerMove, aiMove, playerFirst) == Hps(h.player - aiMove.damage, h.ai) &&
      StateOf(Round(h, playerMove, aiMove, playerFirst)) == AI_WIN
  {
    if playerFirst {
      assert StateOf(Strike(PLAYER, playerMove, h)).PLAYER_WIN? <== h.ai - playerMove.damage <= 0;
    } else {
      assert StateOf(Strike(AI, aiMove, h)).AI_WIN? <== h.player - aiMove.damage <= 0;
    }
  }

  /**
   * When the first strike does not end the battle, both moves land and the
   * order does not matter: each side loses exactly the other's damage.
   */
  lemma {:induction false} OrderMattersOnlyOnKnockOut(h: Hps, playerMove: Move, aiMove: Move)
    requires h.player - aiMove.damage > 0 && h.ai - playerMove.damage > 0
    requires h.player > 0 && h.ai > 0
    ensures Round(h, playerMove, aiMove, true) == Round(h, playerMove, aiMove, false)
    ensures Round(h, playerMove, aiMove, true) == Hps(h.player - aiMove.damage, h.ai - playerMove.damage)
  {
    assert StateOf(Strike(PLAYER, playerMove, h)) == ONGOING;
    assert StateOf(Strike(AI, aiMove, h)) == ONGOING;
  }

  /**
   * Each combatant is struck at most once per round: with non-negative
   * damage no one gains hit points, and each loses at most its opponent's
   * move damage.
   */
  lemma {:induction false} RoundDamageBounds(h: Hps, playerMove: Move, aiMove: Move, playerFirst: bool)
    requires playerMove.damage >= 0 && aiMove.damage >= 0
    ensures var r := Round(h, playerMove, aiMove, playerFirst);
      (r.player == h.player || r.player == h.player - aiMove.damage) &&
      (r.ai == h.ai || r.ai == h.ai - playerMove.damage)
    ensures var r := Round(h, playerMove, aiMove, playerFirst);
      playerFirst ==> r.ai == h.ai - playerMove.damage
    ensures var r := Round(h, playerMove, aiMove, playerFirst);
      !playerFirst ==> r.player == h.player - aiMove.damage
  {
    var first := if playerFirst then PLAYER else AI;
    var h1 := Strike(first, if playerFirst then playerMove else aiMove, h);
    if StateOf(h1) == ONGOING {
      var second := if playerFirst then AI else PLAYER;
      assert Round(h, playerMove, aiMove, playerFirst) == Strike(second, if playerFirst then aiMove else playerMove, h1);
    }
  }

  /** `RandomMoveAICombatant.next_move`: the move the random draw `pick` selects. */
  function RandomMove(moves: seq<Move>, pick: nat): (r: Result<Move>)
    ensures r.Ok? <==> |moves| > 0
    ensures r.Ok? ==> r.value in moves
    ensures r.Err? ==> r.error == IndexError
  {
    if |moves| == 0 then Err(IndexError) else Ok(moves[pick % |moves|])
  }

  /** A battle between a player's combatant and an AI combatant, which are two different objects. */
  class PlayerAIBattle {
    const playerCombatant: Combatant
    const aiCombatant: Combatant

    ghost predicate Valid()
    {
      playerCombatant != aiCombatant
    }

    constructor (playerCombatant: Combatant, aiCombatant: Combatant)
      requires playerCombatant != aiCombatant
      ensures Valid()
      ensures this.playerCombatant == playerCombatant && this.aiCombatant == aiCombatant
    {
      this.playerCombatant := playerCombatant;
      this.aiCombatant := aiCombatant;
    }

    /** The two combatants' hit points. */
    function Hp(): Hps
      reads playerCombatant, aiCombatant
    {
      Hps(playerCombatant.hp, aiCombatant.hp)
    }

    /** `get_battle_state`. */
    function GetBattleState(): (s: BattleState)
      reads playerCombatant, aiCombatant
      ensures s == AI_WIN <==> playerCombatant.hp <= 0
      ensures s == PLAYER_WIN <==> playerCombatant.hp > 0 && aiCombatant.hp <= 0
      ensures s == ONGOING <==> playerCombatant.hp > 0 && aiCombatant.hp > 0
    {
      StateOf(Hp())
    }

    /** `process_move`: only the opponent of `who` loses hit points. */
    method ProcessMove(who: BattleCombatant, move: Move) returns (s: BattleState)
      requires Valid()
      modifies playerCombatant`hp, aiCombatant`hp
      ensures Hp() == Strike(who, move, old(Hp()))
      ensures s == GetBattleState()
    {
      if who == PLAYER {
        aiCombatant.hp := aiCombatant.hp - move.damage;
      } else {
        playerCombatant.hp := playerCombatant.hp - move.damage;
      }
      s := GetBattleState();
    }

    /**
     * `process_moves`: the faster combatant moves first (a speed tie is
     * decided by `coinLow`, the draw `random.random() < 0.5`), and the
     * slower one only if the battle is still going.
     */
    method ProcessMoves(playerMove: Move, aiMove: Move, coinLow: bool) returns (s: BattleState)
      requires Valid()
      modifies playerCombatant`hp, aiCombatant`hp
      ensures Hp() == Round(old(Hp()), playerMove, aiMove,
                            PlayerFirst(playerCombatant.speed, aiCombatant.speed, coinLow))
      ensures s == GetBattleState()
    {
      var fasterCombatant, fasterMove, slowerCombatant, slowerMove;
      if playerCombatant.IsFasterThan(aiCombatant)
        || (playerCombatant.speed == aiCombatant.speed && coinLow) {
        fasterCombatant, fasterMove := PLAYER, playerMove;
        slowerCombatant, slowerMove := AI, aiMove;
      } else {
        fasterCombatant, fasterMove := AI, aiMove;
        slowerCombatant, slowerMove := PLAYER, playerMove;
      }
      s := ProcessMove(fasterCombatant, fasterMove);
      if s == ONGOING {
        s := ProcessMove(slowerCombatant, slowerMove);
      }
    }

    /** `process_player_move`, with the AI's random move chosen by `pick`. */
    method ProcessPlayerMove(playerMove: Move, pick: nat, coinLow: bool) returns (r: Result<BattleState>)
      requires Valid()
      modifies playerCombatant`hp, aiCombatant`hp
      ensures RandomMove(aiCombatant.moves, pick).Err? ==> r == Err(IndexError) && Hp() == old(Hp())
      ensures RandomMove(aiCombatant.moves, pick).Ok? ==>
        Hp() == Round(old(Hp()), playerMove, RandomMove(aiCombatant.moves, pick).value,
                      PlayerFirst(playerCombatant.speed, aiCombatant.speed, coinLow)) &&
        r == Ok(GetBattleState())
    {
      var aiMove := RandomMove(aiCombatant.moves, pick);
      if aiMove.Err? {
        return Err(IndexError);
      }
      var s := ProcessMoves(playerMove, aiMove.value, coinLow);
      r := Ok(s);
    }
  }
}
