/**
 * The client's battle screen (js/index/battle.mjs): the combatants it reads
 * from the server's battle state, and the menu with its five tabs, the move
 * cursor, and the move-description page. The texts drawn on each tab are
 * not modelled; `redraw` keeps the tab labels and the number of moves the
 * cursor runs over, and throws where the source would.
 */
module BattleMenus {
  import opened Wrappers
  import opened Json
  import opened AssocLists
  import opened Text
  import opened Decimal
  import opened Cursors

  /** A species: its display name and the sprites for the left and right side of the field. */
  datatype Species = Species(displayName: string, leftSprite: string, rightSprite: string)

  /**
   * The species `Species` declares, by ID, in declaration order. The
   * display name of the pouffle is the text its file's bytes decode to as
   * UTF-8: an "e" with an acute accent saved twice over, which reads as
   * "Pouffl" followed by U+00C3 and U+00A9.
   */
  const SPECIES: seq<(string, Species)> := [
    ("human", Species("Human", "char-right-still.png", "char-left-still.png")),
    ("scarpfall", Species("Scarpfall", "terrekin/scarpfall-left.png", "terrekin/scarpfall-right.png")),
    ("orelick", Species("Orelick", "terrekin/orelick-left.png", "terrekin/orelick-right.png")),
    ("aquanima", Species("Aquanima", "terrekin/aquanima-left.png", "terrekin/aquanima-right.png")),
    ("pouffle", Species("Pouffl\U{c3}\U{a9}", "terrekin/pouffle-left.png", "terrekin/pouffle-right.png")),
    ("lavadorey", Species("Lavadorey", "terrekin/lavadorey-left.png", "terrekin/lavadorey-right.png")),
    ("donnerlo", Species("Donnerlo", "terrekin/donnerlo-left.png", "terrekin/donnerlo-right.png")),
    ("vinelette", Species("Vinelette", "terrekin/vinelette-left.png", "terrekin/vinelette-right.png")),
    ("caldergrub", Species("Caldergrub", "terrekin/caldergrub-left.png", "terrekin/caldergrub-right.png")),
    ("cazadare", Species("Cazadare", "terrekin/cazadare-left.png", "terrekin/cazadare-right.png")),
    ("whirlybird", Species("Whirlybird", "terrekin/whirlybird-left.png", "terrekin/whirlybird-right.png")),
    ("queenfisher", Species("Queenfisher", "terrekin/queenfisher-left.png", "terrekin/queenfisher-right.png")),
    ("drissengan", Species("Drissengan", "terrekin/drissengan-left.png", "terrekin/drissengan-right.png")),
    ("leideblade", Species("Leideblade", "terrekin/leideblade-left.png", "terrekin/leideblade-right.png")),
    ("nailist", Species("Nailist", "terrekin/nailist-left.png", "terrekin/nailist-right.png")),
    ("oilly", Species("Oilly", "terrekin/oilly-left.png", "terrekin/oilly-right.png")),
    ("terrepin", Species("Terrepin", "terrekin/terrepin-left.png", "terrekin/terrepin-right.png"))
  ]

  /** The elements `TerrekinElement` declares: ID and display name. */
  const ELEMENTS: seq<(string, string)> := [
    ("untyped", "Untyped"), ("earth", "Earth"), ("metal", "Metal"), ("water", "Water"),
    ("air", "Air"), ("fire", "Fire"), ("lightning", "Lightning"), ("plant", "Plant")
  ]

  /** The move types `MoveType` declares: ID and display name. */
  const MOVE_TYPES: seq<(string, string)> := [
    ("physical", "Physical"), ("magic", "Magic"), ("non_attacking", "Non-attacking")
  ]

  /**
   * The `getById` scans: the first declared entry whose ID is `===` to the
   * value read from the JSON, or undefined (None).
   */
  function ById<V>(table: seq<(string, V)>, id: Option<Json>): (r: Option<V>)
    ensures r.Some? ==> id.Some? && id.value.JStr? && Find(table, id.value.s) == r
    ensures r.None? ==> !(id.Some? && id.value.JStr? && Find(table, id.value.s).Some?)
  {
    if id.Some? && id.value.JStr? then Find(table, id.value.s) else None
  }

  /** No two species share an ID. */
  lemma SpeciesIdsUnique()
    ensures UniqueKeys(SPECIES)
  {
    forall i, j | 0 <= i < j < |SPECIES| ensures SPECIES[i].0 != SPECIES[j].0 {
      assert SPECIES[i].0[0] != SPECIES[j].0[0] || SPECIES[i].0[1] != SPECIES[j].0[1] ||
        SPECIES[i].0[2] != SPECIES[j].0[2];
    }
  }

  /** No two elements, and no two move types, share an ID. */
  lemma ElementAndTypeIdsUnique()
    ensures UniqueKeys(ELEMENTS) && UniqueKeys(MOVE_TYPES)
  {
    assert UniqueKeys(ELEMENTS) by {
      forall i, j | 0 <= i < j < |ELEMENTS| ensures ELEMENTS[i].0 != ELEMENTS[j].0 {
        assert ELEMENTS[i].0[0] != ELEMENTS[j].0[0] || |ELEMENTS[i].0| != |ELEMENTS[j].0|;
      }
    }
    assert |"physical"| == 8 && |"magic"| == 5 && |"non_attacking"| == 13;
  }

  /** Every declared species is found again by its own ID. */
  lemma SpeciesByOwnId(i: int)
    requires 0 <= i < |SPECIES|
    ensures ById(SPECIES, Some(JStr(SPECIES[i].0))) == Some(SPECIES[i].1)
  {
    SpeciesIdsUnique();
    FindEntry(SPECIES, i);
  }

  /** `Stats.fromJSON(o)`: nine fields, each whatever the object holds (or undefined). */
  datatype Stats = Stats(hp: Option<Json>, attack: Option<Json>, defense: Option<Json>,
                         mattack: Option<Json>, mdefense: Option<Json>, speed: Option<Json>,
                         charisma: Option<Json>, dex: Option<Json>, stam: Option<Json>)

  /** `Move.fromJSON(o)`: the element and type looked up by ID, the rest read as is. */
  datatype Move = Move(displayName: Option<Json>, element: Option<string>, moveType: Option<string>,
                       staminaDraw: Option<Json>, power: Option<Json>, moveTime: Option<Json>,
                       accuracy: Option<Json>, description: Option<Json>)

  datatype Combatant =
    | Full(species: Option<Species>, level: Option<Json>, stats: Stats, maxHP: Option<Json>, moves: seq<Move>)
    | Partial(species: Option<Species>, level: Option<Json>, hpProportion: Option<Json>)

  /** `o[key]` on a value that may itself be undefined: reading from undefined or null throws. */
  function Prop(o: Option<Json>, key: string): (r: Result<Option<Json>>)
    ensures r.Err? <==> o.None? || o.value.JNull?
    ensures r.Ok? ==> r == JsGet(o.value, key)
  {
    if o.None? then Err(TypeError) else JsGet(o.value, key)
  }

  function StatsFromJson(o: Option<Json>): (r: Result<Stats>)
    ensures r.Err? <==> o.None? || o.value.JNull?
    ensures r.Ok? ==> r.value.hp == JsGet(o.value, "hp").value && r.value.stam == JsGet(o.value, "stam").value
  {
    if o.None? || o.value.JNull? then Err(TypeError)
    else
      var j := o.value;
      Ok(Stats(JsGet(j, "hp").value, JsGet(j, "attack").value, JsGet(j, "defense").value,
               JsGet(j, "mattack").value, JsGet(j, "mdefense").value, JsGet(j, "speed").value,
               JsGet(j, "charisma").value, JsGet(j, "dex").value, JsGet(j, "stam").value))
  }

  function MoveFromJson(o: Json): (r: Result<Move>)
    ensures r.Err? <==> o.JNull?
    ensures r.Ok? ==> r.value.element == ById(ELEMENTS, JsGet(o, "element").value)
    ensures r.Ok? ==> r.value.moveType == ById(MOVE_TYPES, JsGet(o, "type").value)
  {
    if o.JNull? then Err(TypeError)
    else
      Ok(Move(JsGet(o, "name").value, ById(ELEMENTS, JsGet(o, "element").value),
              ById(MOVE_TYPES, JsGet(o, "type").value), JsGet(o, "stamina_draw").value,
              JsGet(o, "power").value, JsGet(o, "move_time").value, JsGet(o, "accuracy").value,
              JsGet(o, "description").value))
  }

  /** `o["moves"].map(Move.fromJSON)`: the array's moves in order; a null move throws. */
  function MovesFromJson(items: seq<Json>): (r: Result<seq<Move>>)
    ensures r.Err? <==> exists i :: 0 <= i < |items| && items[i].JNull?
    ensures r.Ok? ==> |r.value| == |items| && forall i :: 0 <= i < |items| ==> MoveFromJson(items[i]) == Ok(r.value[i])
  {
    if |items| == 0 then Ok([])
    else if items[0].JNull? then Err(TypeError)
    else
      var rest := MovesFromJson(items[1..]);
      NullInTail(items);
      if rest.Err? then Err(rest.error)
      else Ok([MoveFromJson(items[0]).value] + rest.value)
  }

  /** Past a first item that is not null, a null item is one of the tail's. */
  lemma NullInTail(items: seq<Json>)
    requires |items| > 0 && !items[0].JNull?
    ensures forall i :: 1 <= i < |items| ==> items[i] == items[1..][i - 1]
    ensures (exists i :: 0 <= i < |items| && items[i].JNull?) <==> (exists i :: 0 <= i < |items[1..]| && items[1..][i].JNull?)
  {
    assert forall i :: 1 <= i < |items| ==> items[i] == items[1..][i - 1];
  }

  /** `o["moves"]` is an array whose moves all read. */
  predicate MovesReadable(moves: Option<Json>)
  {
    moves.Some? && moves.value.JArr? && MovesFromJson(moves.value.items).Ok?
  }

  /**
   * `Combatant.fromJSON(o)`: a full combatant (the player's own side) when
   * the object has a "stats" property, otherwise a partial one.
   */
  function CombatantFromJson(o: Json): (r: Result<Combatant>)
    ensures o.JNull? ==> r == Err(TypeError)
    ensures r.Ok? ==> (r.value.Full? <==> HasKey(o, "stats"))
    ensures !o.JNull? && !HasKey(o, "stats") ==> r.Ok? && r.value.Partial?
    ensures HasKey(o, "stats") ==>
      (r.Ok? <==> !JsGet(o, "stats").value.value.JNull? && MovesReadable(JsGet(o, "moves").value))
  {
    if o.JNull? then Err(TypeError)
    else if HasKey(o, "stats") then
      var stats :- StatsFromJson(JsGet(o, "stats").value);
      var moves := JsGet(o, "moves").value;
      if moves.None? || !moves.value.JArr? then Err(TypeError)
      else
        var ms :- MovesFromJson(moves.value.items);
        Ok(Full(ById(SPECIES, JsGet(o, "species").value), JsGet(o, "level").value, stats,
                JsGet(o, "max_hp").value, ms))
    else
      Ok(Partial(ById(SPECIES, JsGet(o, "species").value), JsGet(o, "level").value,
                 JsGet(o, "hp_proportion").value))
  }
  /** `BattleMenu.otherSide(s)`: "side2" for "side1", and "side1" for anything else. */
  function OtherSide(s: string): (r: string)
    ensures r == "side1" || r == "side2"
    ensures r == "side2" <==> s == "side1"
  {
    if s == "side1" then "side2" else "side1"
  }

  /** The two sides are each other's other side. */
  lemma OtherSideInvolution(s: string)
    requires s == "side1" || s == "side2"
    ensures OtherSide(OtherSide(s)) == s && OtherSide(s) != s
  {
    assert "side1"[4] != "side2"[4];
  }

  datatype Tab = Overview | Attack | MoveTab | Item | Run | MoveDescription

  function DisplayName(t: Tab): string
  {
    match t
    case Overview => "Overview"
    case Attack => "Attack"
    case MoveTab => "Move"
    case Item => "Item"
    case Run => "Run"
    case MoveDescription => "Move Description"
  }

  /** `BattleMenuTab.TABS`: the tab bar in order. */
  const TABS: seq<Tab> := [Overview, Attack, MoveTab, Item, Run]

  /** The tab `tabLeft` opens; the move-description page stays put. */
  function TabLeft(t: Tab): (r: Tab)
    ensures r == MoveDescription <==> t == MoveDescription
  {
    match t
    case Overview => Run
    case Attack => Overview
    case MoveTab => Attack
    case Item => MoveTab
    case Run => Item
    case MoveDescription => MoveDescription
  }

  /** The tab `tabRight` opens; the move-description page stays put. */
  function TabRight(t: Tab): (r: Tab)
    ensures r == MoveDescription <==> t == MoveDescription
  {
    match t
    case Overview => Attack
    case Attack => MoveTab
    case MoveTab => Item
    case Item => Run
    case Run => Overview
    case MoveDescription => MoveDescription
  }

  /**
   * On the tab bar, `tabRight` moves one place right and `tabLeft` one place
   * left, each wrapping around, so each undoes the other.
   */
  lemma TabCycle(i: int)
    requires 0 <= i < |TABS|
    ensures TabRight(TABS[i]) == TABS[WrapDown(i, |TABS|)]
    ensures TabLeft(TABS[i]) == TABS[WrapUp(i, |TABS|)]
    ensures TabLeft(TabRight(TABS[i])) == TABS[i] && TabRight(TabLeft(TABS[i])) == TABS[i]
  {
  }

  /** Five presses of `tabRight` come back to the tab they started from. */
  lemma TabRightFiveTimes(t: Tab)
    ensures TabRight(TabRight(TabRight(TabRight(TabRight(t))))) == t
  {
  }

  /** `tabs.map(tab => tab === openTab ? ">" + name : name)`: the tab bar with the open tab marked. */
  function TabLabels(tabs: seq<Tab>, open: Tab): (labels: seq<string>)
    ensures |labels| == |tabs|
    ensures forall i :: 0 <= i < |tabs| ==>
      labels[i] == if tabs[i] == open then ">" + DisplayName(tabs[i]) else DisplayName(tabs[i])
  {
    if |tabs| == 0 then []
    else [if tabs[0] == open then ">" + DisplayName(tabs[0]) else DisplayName(tabs[0])] + TabLabels(tabs[1..], open)
  }

  /** Indexed entries `["0", v0], ["1", v1], …` of an array or string. */
  function Indexed(items: seq<Json>, from: nat): (r: seq<(string, Json)>)
    ensures |r| == |items|
    ensures forall i :: 0 <= i < |items| ==> r[i] == (NatToString(from + i), items[i])
  {
    if |items| == 0 then [] else [(NatToString(from), items[0])] + Indexed(items[1..], from + 1)
  }

  /**
   * `Object.entries(v)`: an object's properties in order; an array's or a
   * string's elements by index; nothing for a number or a boolean; and a
   * TypeError for undefined or null.
   */
  function Entries(v: Option<Json>): (r: Result<seq<(string, Json)>>)
    ensures r.Err? <==> v.None? || v.value.JNull?
    ensures r.Ok? && v.value.JObj? ==> r.value == v.value.fields
  {
    if v.None? then Err(TypeError)
    else match v.value
      case JNull => Err(TypeError)
      case JObj(fields) => Ok(fields)
      case JArr(items) => Ok(Indexed(items, 0))
      case JStr(s) => Ok(Indexed(seq(|s|, k requires 0 <= k < |s| => JStr([s[k]])), 0))
      case _ => Ok([])
  }

  /**
   * The `for … of Object.entries(…)` loop of `setBattle`: each value is
   * read (`Combatant.fromJSON`) and `set` under its key; the first one that
   * cannot be read ends the loop with its error, leaving the map as far as
   * it got.
   */
  function FillFrom<C>(read: Json -> Result<C>, m: seq<(string, C)>, entries: seq<(string, Json)>):
    (r: (seq<(string, C)>, Option<Failure>))
    ensures r.1.Some? <==> exists i :: 0 <= i < |entries| && read(entries[i].1).Err?
    decreases |entries|
  {
    if |entries| == 0 then (m, None)
    else
      var c := read(entries[0].1);
      assert forall i :: 1 <= i < |entries| ==> entries[i] == entries[1..][i - 1];
      if c.Err? then (m, Some(c.error))
      else FillFrom(read, Put(m, entries[0].0, c.value), entries[1..])
  }

  /** The values read from `entries`, in order. */
  function ReadAll<C>(read: Json -> Result<C>, entries: seq<(string, Json)>): (r: seq<(string, C)>)
    requires forall i :: 0 <= i < |entries| ==> read(entries[i].1).Ok?
    ensures |r| == |entries|
    ensures forall i :: 0 <= i < |entries| ==> r[i] == (entries[i].0, read(entries[i].1).value)
  {
    if |entries| == 0 then []
    else [(entries[0].0, read(entries[0].1).value)] + ReadAll(read, entries[1..])
  }

  /**
   * When every value reads and the keys are new and distinct, the loop
   * appends one map entry per value, in the server's order.
   */
  lemma {:induction false} FillFromFresh<C>(read: Json -> Result<C>, m: seq<(string, C)>, entries: seq<(string, Json)>)
    requires UniqueKeys(entries)
    requires forall i :: 0 <= i < |entries| ==> read(entries[i].1).Ok?
    requires forall i :: 0 <= i < |entries| ==> Find(m, entries[i].0).None?
    ensures FillFrom(read, m, entries) == (m + ReadAll(read, entries), None)
    decreases |entries|
  {
    if |entries| > 0 {
      var k := entries[0].0;
      var c := read(entries[0].1).value;
      var m' := m + [(k, c)];
      FreshTail(read, m, entries);
      FillFromFresh(read, m', entries[1..]);
      assert FillFrom(read, m, entries) == FillFrom(read, m', entries[1..]);
      var rest := ReadAll(read, entries[1..]);
      assert ReadAll(read, entries) == [(k, c)] + rest;
      AppendOne(m, (k, c), rest);
    } else {
      assert m + ReadAll(read, entries) == m;
    }
  }

  /** Appending one entry and then the rest is appending both. */
  lemma AppendOne<T>(m: seq<T>, x: T, rest: seq<T>)
    ensures (m + [x]) + rest == m + ([x] + rest)
  {
  }

  /** One step of `FillFromFresh`: the tail meets its requirements for the grown map. */
  lemma FreshTail<C>(read: Json -> Result<C>, m: seq<(string, C)>, entries: seq<(string, Json)>)
    requires |entries| > 0
    requires UniqueKeys(entries)
    requires forall i :: 0 <= i < |entries| ==> read(entries[i].1).Ok?
    requires forall i :: 0 <= i < |entries| ==> Find(m, entries[i].0).None?
    ensures Put(m, entries[0].0, read(entries[0].1).value) == m + [(entries[0].0, read(entries[0].1).value)]
    ensures UniqueKeys(entries[1..])
    ensures forall i :: 0 <= i < |entries[1..]| ==> read(entries[1..][i].1).Ok?
    ensures forall i :: 0 <= i < |entries[1..]| ==>
      Find(m + [(entries[0].0, read(entries[0].1).value)], entries[1..][i].0).None?
  {
    var k := entries[0].0;
    var c := read(entries[0].1).value;
    assert Find(m, k).None?;
    forall i | 0 <= i < |entries[1..]| ensures Find(m + [(k, c)], entries[1..][i].0).None? {
      assert entries[1..][i] == entries[i + 1];
      FindAfterAppend(m, k, c, entries[i + 1].0);
    }
    forall a, b | 0 <= a < b < |entries| - 1 ensures entries[1..][a].0 != entries[1..][b].0 {
      assert entries[1..][a] == entries[a + 1] && entries[1..][b] == entries[b + 1];
    }
  }

  /** The loop itself: `map.set(uuid, Combatant.fromJSON(combatant))` for each entry. */
  method FillMap(m: seq<(string, Combatant)>, entries: seq<(string, Json)>)
    returns (filled: seq<(string, Combatant)>, failure: Option<Failure>)
    ensures (filled, failure) == FillFrom(CombatantFromJson, m, entries)
  {
    filled := m;
    var i := 0;
    while i < |entries|
      invariant 0 <= i <= |entries|
      invariant FillFrom(CombatantFromJson, filled, entries[i..]) == FillFrom(CombatantFromJson, m, entries)
    {
      assert entries[i..][1..] == entries[i + 1..];
      var c := CombatantFromJson(entries[i].1);
      if c.Err? {
        return filled, Some(c.error);
      }
      filled := Put(filled, entries[i].0, c.value);
      i := i + 1;
    }
    failure := None;
  }

  /** A combatant selected for a move is truthy: a non-empty UUID. */
  predicate Selected(uuid: Option<string>)
  {
    uuid.Some? && uuid.value != ""
  }

  /** Every ally is a full combatant of a known species, and every enemy is of a known species. */
  predicate OverviewReadable(users: seq<(string, Combatant)>, opponents: seq<(string, Combatant)>)
  {
    (forall i :: 0 <= i < |users| ==> users[i].1.Full? && users[i].1.species.Some?) &&
    (forall i :: 0 <= i < |opponents| ==> opponents[i].1.species.Some?)
  }

  /**
   * The throw `redraw` can end with. The overview reads each ally's species
   * name and stats, and each enemy's species name; the attack tab reads the
   * selected ally's moves.
   */
  function RedrawFailure(open: Tab, uuid: Option<string>, users: seq<(string, Combatant)>,
                         opponents: seq<(string, Combatant)>): (r: Option<Failure>)
    ensures r.Some? ==> r.value == TypeError
    ensures open == Attack ==>
      (r.Some? <==> Selected(uuid) && !(Find(users, uuid.value).Some? && Find(users, uuid.value).value.Full?))
    ensures open != Overview && open != Attack ==> r.None?
  {
    if open == Overview then
      if OverviewReadable(users, opponents) then None else Some(TypeError)
    else if open == Attack && Selected(uuid) then
      var c := Find(users, uuid.value);
      if c.Some? && c.value.Full? then None else Some(TypeError)
    else None
  }

  /**
   * The throw `redraw` ends with as written: the attack tab with an ally
   * selected, and the description tab with a move to describe, build their
   * help text by `game.keyBinding.getKeyBindPretty`, and no key binding has
   * that method (the current client never sets `game.keyBinding` at all),
   * so both throw a TypeError. The overview is as in `RedrawFailure`.
   */
  function RedrawFailureAsWritten(open: Tab, uuid: Option<string>, users: seq<(string, Combatant)>,
                                  opponents: seq<(string, Combatant)>, describing: Option<Move>): (r: Option<Failure>)
    ensures r.Some? ==> r.value == TypeError
    ensures open == Attack ==> (r.Some? <==> Selected(uuid))
    ensures open == MoveDescription ==> (r.Some? <==> describing.Some?)
    ensures open == Overview ==> r == RedrawFailure(open, uuid, users, opponents)
  {
    if open == Attack && Selected(uuid) then Some(TypeError)
    else if open == MoveDescription && describing.Some? then Some(TypeError)
    else RedrawFailure(open, uuid, users, opponents)
  }

  /**
   * As written, the attack tab with a full ally selected throws, where with
   * its help text built `redraw` succeeds and the cursor runs over the
   * ally's moves.
   */
  lemma AttackRedrawAsWrittenThrows(uuid: string, users: seq<(string, Combatant)>, opponents: seq<(string, Combatant)>,
                                    describing: Option<Move>)
    requires uuid != [] && Find(users, uuid).Some? && Find(users, uuid).value.Full?
    ensures RedrawFailureAsWritten(Attack, Some(uuid), users, opponents, describing) == Some(TypeError)
    ensures RedrawFailure(Attack, Some(uuid), users, opponents).None?
    ensures RedrawItems(Attack, Some(uuid), users, 0) == |Find(users, uuid).value.moves|
  {
  }

  /** The names `js/index/battle.mjs` exports. */
  const BattleExports: seq<string> := ["BattleMenu"]

  /**
   * Linking an ES module: every name imported from another module must be
   * one it exports, or the importing module fails to load with a
   * SyntaxError before any of it runs.
   */
  function Link(imports: seq<string>, exports: seq<string>): (r: Result<()>)
    ensures r.Ok? <==> forall i :: 0 <= i < |imports| ==> imports[i] in exports
    ensures r.Err? ==> r.error == SyntaxError
  {
    if forall i :: 0 <= i < |imports| ==> imports[i] in exports then Ok(()) else Err(SyntaxError)
  }

  /**
   * As written the current client imports `Battle` and `BattleMenu`, and
   * only `BattleMenu` is exported (no `Battle` class is defined anywhere),
   * so the client does not load.
   */
  lemma ClientImportAsWrittenFails()
    ensures Link(["Battle", "BattleMenu"], BattleExports) == Err(SyntaxError)
  {
    assert ["Battle", "BattleMenu"][0] !in BattleExports by {
      assert "Battle" != "BattleMenu" by { assert |"Battle"| != |"BattleMenu"|; }
    }
  }

  /** Importing `BattleMenu` alone links, and the rest of the model of the client takes it so. */
  lemma ClientImportIntendedLinks()
    ensures Link(["BattleMenu"], BattleExports) == Ok(())
  {
  }

  /** The number of items the cursor runs over after `redraw`: the selected ally's moves on the attack tab. */
  function RedrawItems(open: Tab, uuid: Option<string>, users: seq<(string, Combatant)>, items: int): int
  {
    if open == Attack && Selected(uuid) && Find(users, uuid.value).Some? && Find(users, uuid.value).value.Full?
    then |Find(users, uuid.value).value.moves|
    else items
  }

  /** The state of the command bar of a battle, for the player on `side`. */
  class BattleMenu {
    const side: string
    const oppositeSide: string
    var userCombatants: seq<(string, Combatant)>
    var opponentCombatants: seq<(string, Combatant)>
    var openTab: Tab
    var tabs: seq<Tab>
    var tabText: seq<string>
    var currentlySelected: int
    var itemsLength: int
    var combatantUuidToAttack: Option<string>
    var moveToDescribe: Option<Move>

    /** `new BattleMenu(side)`: no combatants, the overview open, nothing selected. */
    constructor (side: string)
      ensures this.side == side && oppositeSide == OtherSide(side)
      ensures userCombatants == [] && opponentCombatants == []
      ensures openTab == Overview && tabs == TABS && tabText == []
      ensures currentlySelected == 0 && itemsLength == 0
      ensures combatantUuidToAttack.None? && moveToDescribe.None?
    {
      this.side := side;
      oppositeSide := OtherSide(side);
      userCombatants := [];
      opponentCombatants := [];
      openTab := Overview;
      tabs := TABS;
      tabText := [];
      currentlySelected := 0;
      itemsLength := 0;
      combatantUuidToAttack := None;
      moveToDescribe := None;
    }

    /**
     * `redraw`: the tab bar is relabelled; on the attack tab with an ally
     * selected, the cursor runs over that ally's moves. Throws as
     * `RedrawFailure` says, after relabelling.
     */
    method Redraw() returns (r: Result<()>)
      modifies this`tabText, this`itemsLength
      ensures tabText == TabLabels(tabs, openTab)
      ensures r.Err? <==> RedrawFailure(openTab, combatantUuidToAttack, userCombatants, opponentCombatants).Some?
      ensures r.Err? ==> r.error == TypeError && itemsLength == old(itemsLength)
      ensures r.Ok? ==> itemsLength == RedrawItems(openTab, combatantUuidToAttack, userCombatants, old(itemsLength))
    {
      tabText := TabLabels(tabs, openTab);
      var failure := RedrawFailure(openTab, combatantUuidToAttack, userCombatants, opponentCombatants);
      if failure.Some? {
        return Err(failure.value);
      }
      itemsLength := RedrawItems(openTab, combatantUuidToAttack, userCombatants, itemsLength);
      r := Ok(());
    }

    /** `handleMoveRequest`: the server asks for a move by the ally `uuid`. */
    method HandleMoveRequest(uuid: string) returns (r: Result<()>)
      modifies this`combatantUuidToAttack, this`tabText, this`itemsLength
      ensures combatantUuidToAttack == Some(uuid) && tabText == TabLabels(tabs, openTab)
      ensures r.Err? <==> RedrawFailure(openTab, Some(uuid), userCombatants, opponentCombatants).Some?
      ensures r.Ok? ==> itemsLength == RedrawItems(openTab, Some(uuid), userCombatants, old(itemsLength))
    {
      combatantUuidToAttack := Some(uuid);
      r := Redraw();
    }

    /**
     * `setBattle`: both maps are cleared, then filled from the battle
     * state's entries for this side and for the other side, in that order.
     */
    method SetBattle(battle: Json) returns (r: Result<()>)
      modifies this`userCombatants, this`opponentCombatants, this`tabText, this`itemsLength
      ensures battle.JNull? ==> r == Err(TypeError) && userCombatants == [] && opponentCombatants == []
      ensures !battle.JNull? && Entries(JsGet(battle, side).value).Err? ==>
        r == Err(TypeError) && userCombatants == [] && opponentCombatants == []
      ensures !battle.JNull? && Entries(JsGet(battle, side).value).Ok? ==>
        userCombatants == FillFrom(CombatantFromJson, [], Entries(JsGet(battle, side).value).value).0
      ensures r.Ok? ==> !battle.JNull? && FillFrom(CombatantFromJson, [], Entries(JsGet(battle, side).value).value).1.None?
      ensures r.Ok? ==>
        Entries(JsGet(battle, oppositeSide).value).Ok? &&
        opponentCombatants == FillFrom(CombatantFromJson, [], Entries(JsGet(battle, oppositeSide).value).value).0 &&
        FillFrom(CombatantFromJson, [], Entries(JsGet(battle, oppositeSide).value).value).1.None?
      ensures r.Ok? ==> tabText == TabLabels(tabs, openTab)
    {
      userCombatants := [];
      opponentCombatants := [];
      if battle.JNull? {
        return Err(TypeError);
      }
      var mine := Entries(JsGet(battle, side).value);
      if mine.Err? {
        return Err(mine.error);
      }
      var failure;
      userCombatants, failure := FillMap([], mine.value);
      if failure.Some? {
        return Err(failure.value);
      }
      var theirs := Entries(JsGet(battle, oppositeSide).value);
      if theirs.Err? {
        return Err(theirs.error);
      }
      opponentCombatants, failure := FillMap([], theirs.value);
      if failure.Some? {
        return Err(failure.value);
      }
      r := Redraw();
    }

    /** `tabLeft`: the tab to the left opens and the cursor starts over. */
    method TabLeftPress() returns (r: Result<()>)
      modifies this`openTab, this`currentlySelected, this`tabText, this`itemsLength
      ensures openTab == TabLeft(old(openTab)) && currentlySelected == 0 && tabText == TabLabels(tabs, openTab)
      ensures r.Err? <==> RedrawFailure(openTab, combatantUuidToAttack, userCombatants, opponentCombatants).Some?
      ensures r.Err? ==> itemsLength == 0
      ensures r.Ok? ==> itemsLength == RedrawItems(openTab, combatantUuidToAttack, userCombatants, 0)
    {
      openTab := TabLeft(openTab);
      currentlySelected := 0;
      itemsLength := 0;
      r := Redraw();
    }

    /** `tabRight`: the tab to the right opens and the cursor starts over. */
    method TabRightPress() returns (r: Result<()>)
      modifies this`openTab, this`currentlySelected, this`tabText, this`itemsLength
      ensures openTab == TabRight(old(openTab)) && currentlySelected == 0 && tabText == TabLabels(tabs, openTab)
      ensures r.Err? <==> RedrawFailure(openTab, combatantUuidToAttack, userCombatants, opponentCombatants).Some?
      ensures r.Err? ==> itemsLength == 0
      ensures r.Ok? ==> itemsLength == RedrawItems(openTab, combatantUuidToAttack, userCombatants, 0)
    {
      openTab := TabRight(openTab);
      currentlySelected := 0;
      itemsLength := 0;
      r := Redraw();
    }

    /** `cursorUp`: one move up, wrapping by `itemsLength`. */
    method CursorUp() returns (r: Result<()>)
      modifies this`currentlySelected, this`tabText, this`itemsLength
      ensures currentlySelected == WrapUp(old(currentlySelected), old(itemsLength))
      ensures old(itemsLength) > 0 && 0 <= old(currentlySelected) < old(itemsLength) ==>
        0 <= currentlySelected < old(itemsLength)
      ensures r.Err? <==> RedrawFailure(openTab, combatantUuidToAttack, userCombatants, opponentCombatants).Some?
      ensures r.Ok? ==> itemsLength == RedrawItems(openTab, combatantUuidToAttack, userCombatants, old(itemsLength))
    {
      currentlySelected := currentlySelected - 1;
      if currentlySelected < 0 {
        currentlySelected := currentlySelected + itemsLength;
      }
      r := Redraw();
    }

    /** `cursorDown`: one move down, wrapping by `itemsLength`. */
    method CursorDown() returns (r: Result<()>)
      modifies this`currentlySelected, this`tabText, this`itemsLength
      ensures currentlySelected == WrapDown(old(currentlySelected), old(itemsLength))
      ensures old(itemsLength) > 0 && 0 <= old(currentlySelected) < old(itemsLength) ==>
        0 <= currentlySelected < old(itemsLength)
      ensures r.Err? <==> RedrawFailure(openTab, combatantUuidToAttack, userCombatants, opponentCombatants).Some?
      ensures r.Ok? ==> itemsLength == RedrawItems(openTab, combatantUuidToAttack, userCombatants, old(itemsLength))
    {
      currentlySelected := currentlySelected + 1;
      if currentlySelected >= itemsLength {
        currentlySelected := currentlySelected - itemsLength;
      }
      r := Redraw();
    }

    /**
     * `handleEnter`: on the attack tab, the chosen move is sent and the
     * selection is cleared; on any other tab nothing happens.
     */
    method HandleEnter() returns (sent: seq<string>)
      modifies this`currentlySelected, this`combatantUuidToAttack, this`itemsLength, this`tabText
      ensures old(openTab) != Attack ==> sent == [] && unchanged(this)
      ensures old(openTab) == Attack ==>
        sent == [BattleMoveMessage(old(combatantUuidToAttack), old(currentlySelected), opponentCombatants)] &&
        currentlySelected == 0 && combatantUuidToAttack.None? && itemsLength == 0 && tabText == TabLabels(tabs, openTab)
    {
      if openTab != Attack {
        return [];
      }
      sent := [BattleMoveMessage(combatantUuidToAttack, currentlySelected, opponentCombatants)];
      currentlySelected := 0;
      combatantUuidToAttack := None;
      itemsLength := 0;
      var _ := Redraw();
    }

    /**
     * `handleSecondaryEnter`: from the attack tab, the description of the
     * move under the cursor opens as the only tab; from the description, the
     * attack tab and the full tab bar come back. The cursor starts over
     * either way. Reading the moves of an ally that is not there throws,
     * after the tab has already switched.
     */
    method HandleSecondaryEnter() returns (r: Result<()>)
      modifies this`openTab, this`tabs, this`moveToDescribe, this`currentlySelected, this`itemsLength, this`tabText
      ensures (openTab, tabs) == SecondaryToggle(old(openTab), old(tabs))
      ensures old(openTab) == Attack ==> (r.Ok? <==> MoveOwner(combatantUuidToAttack, userCombatants).Some?)
      ensures old(openTab) == Attack && r.Ok? ==>
        moveToDescribe == MoveAt(MoveOwner(combatantUuidToAttack, userCombatants).value.moves, old(currentlySelected))
      ensures old(openTab) != Attack ==>
        (r.Err? <==> RedrawFailure(openTab, combatantUuidToAttack, userCombatants, opponentCombatants).Some?)
      ensures old(openTab) == MoveDescription ==> moveToDescribe.None?
      ensures r.Ok? ==> currentlySelected == 0 && tabText == TabLabels(tabs, openTab)
    {
      r := ToggleDescription();
      if r.Err? {
        return;
      }
      assert old(openTab) == Attack ==> openTab == MoveDescription;
      currentlySelected := 0;
      itemsLength := 0;
      r := Redraw();
    }

    /** The tab switch `handleSecondaryEnter` makes before it redraws. */
    method ToggleDescription() returns (r: Result<()>)
      modifies this`openTab, this`tabs, this`moveToDescribe
      ensures (openTab, tabs) == SecondaryToggle(old(openTab), old(tabs))
      ensures old(openTab) == Attack ==> (r.Ok? <==> MoveOwner(combatantUuidToAttack, userCombatants).Some?)
      ensures old(openTab) == Attack && r.Ok? ==>
        moveToDescribe == MoveAt(MoveOwner(combatantUuidToAttack, userCombatants).value.moves, currentlySelected)
      ensures old(openTab) == MoveDescription ==> moveToDescribe.None?
      ensures old(openTab) != Attack ==> r.Ok?
    {
      r := Ok(());
      if openTab == Attack {
        openTab := MoveDescription;
        tabs := [MoveDescription];
        var owner := MoveOwner(combatantUuidToAttack, userCombatants);
        if owner.None? {
          return Err(TypeError);
        }
        moveToDescribe := MoveAt(owner.value.moves, currentlySelected);
      } else if openTab == MoveDescription {
        openTab := Attack;
        tabs := TABS;
        moveToDescribe := None;
      }
    }
  }

  /** `userCombatants.get(uuid)` when it is a full combatant, whose moves can be read. */
  function MoveOwner(uuid: Option<string>, users: seq<(string, Combatant)>): (r: Option<Combatant>)
    ensures r.Some? ==> r.value.Full? && uuid.Some? && Find(users, uuid.value) == r
  {
    if uuid.Some? && Find(users, uuid.value).Some? && Find(users, uuid.value).value.Full?
    then Find(users, uuid.value) else None
  }

  /** `moves[i]`: undefined (None) off the end of the list. */
  function MoveAt(moves: seq<Move>, i: int): (r: Option<Move>)
    ensures r.Some? <==> 0 <= i < |moves|
  {
    if 0 <= i < |moves| then Some(moves[i]) else None
  }

  /** Where `handleSecondaryEnter` leaves the open tab and the tab bar. */
  function SecondaryToggle(open: Tab, tabs: seq<Tab>): (r: (Tab, seq<Tab>))
    ensures open == Attack ==> r == (MoveDescription, [MoveDescription])
    ensures open == MoveDescription ==> r == (Attack, TABS)
    ensures open != Attack && open != MoveDescription ==> r == (open, tabs)
  {
    if open == Attack then (MoveDescription, [MoveDescription])
    else if open == MoveDescription then (Attack, TABS)
    else (open, tabs)
  }

  /** Pressing the secondary key twice on the attack tab comes back to it with the full tab bar. */
  lemma SecondaryTwice(tabs: seq<Tab>)
    ensures var (open, bar) := SecondaryToggle(Attack, tabs);
      SecondaryToggle(open, bar) == (Attack, TABS)
  {
  }

  /** How a JavaScript string concatenation writes a UUID that may be null. */
  function UuidText(uuid: Option<string>): string
  {
    if uuid.Some? then uuid.value else "null"
  }

  /** The key of the first enemy, or "undefined" when there is none. */
  function FirstOpponent(opponents: seq<(string, Combatant)>): string
  {
    if |opponents| > 0 then opponents[0].0 else "undefined"
  }

  /** `battlemove|<ally>|<move index>|<first enemy>`, the move `handleEnter` sends. */
  function BattleMoveMessage(uuid: Option<string>, selected: int, opponents: seq<(string, Combatant)>): string
  {
    "battlemove|" + UuidText(uuid) + "|" + IntToString(selected) + "|" + FirstOpponent(opponents)
  }

  /**
   * The move message splits back into its four fields when the UUIDs hold
   * no "|", and the move index reads back with `parseInt`.
   */
  lemma BattleMoveMessageParses(uuid: string, selected: int, opponents: seq<(string, Combatant)>)
    requires '|' !in uuid && '|' !in FirstOpponent(opponents)
    ensures Split(BattleMoveMessage(Some(uuid), selected, opponents), '|') ==
      ["battlemove", uuid, IntToString(selected), FirstOpponent(opponents)]
    ensures JsParseInt(Split(BattleMoveMessage(Some(uuid), selected, opponents), '|')[2]) == Some(selected)
  {
    var parts := ["battlemove", uuid, IntToString(selected), FirstOpponent(opponents)];
    assert Join(parts, "|") == BattleMoveMessage(Some(uuid), selected, opponents) by {
      Join3(uuid, IntToString(selected), FirstOpponent(opponents), "|");
      assert parts[1..] == [uuid, IntToString(selected), FirstOpponent(opponents)];
      assert "battlemove|" == "battlemove" + "|";
    }
    SplitJoin(parts, '|');
    IntToStringRoundTrip(selected);
  }
}
