/**
 * The scripted steps of a cutscene (js/index/cutscene.mjs): a registry from
 * scene type to scene class, and three scenes that the game updates once a
 * frame until they report that they are over: a wait, a move of one entity
 * to a destination in a given time, and a line of dialogue that lasts until
 * the primary key is pressed.
 */
module Cutscenes {
  import opened Wrappers
  import opened Json
  import opened JsText
  import opened AssocLists
  import opened Registries
  import opened ClientGeometry
  import opened ClientJson
  import opened KeyBindings
  import opened TextBoxes
  import LegacyEntities

  datatype SceneKind = WaitKind | MoveKind | DialogueKind

  /** The registrations the module makes when it loads, in order. */
  const STANDARD_SCENES: seq<(string, SceneKind)> := [("wait", WaitKind), ("move", MoveKind), ("dialogue", DialogueKind)]

  /**
   * `Cutscene.register`: a scene type already in use throws and changes
   * nothing; otherwise the class is stored under the type.
   */
  method Register(reg: Registry<SceneKind>, sceneType: string, kind: SceneKind) returns (r: Result<()>)
    requires reg.Valid()
    modifies reg
    ensures reg.Valid()
    ensures r.Err? <==> Find(old(reg.entries), sceneType).Some?
    ensures r.Err? ==> r.error == Thrown("Scene type " + sceneType + " is already in use.") && reg.entries == old(reg.entries)
    ensures r.Ok? ==> reg.entries == old(reg.entries) + [(sceneType, kind)]
    ensures r.Ok? ==> Find(reg.entries, sceneType) == Some(kind)
  {
    var ok := reg.Register(sceneType, kind);
    r := if ok then Ok(()) else Err(Thrown("Scene type " + sceneType + " is already in use."));
  }

  /** Loading the module registers the three scenes, none of which clashes. */
  method RegisterStandard() returns (reg: Registry<SceneKind>)
    ensures fresh(reg) && reg.Valid() && reg.entries == STANDARD_SCENES
  {
    reg := new Registry<SceneKind>();
    var r := Register(reg, "wait", WaitKind);
    assert "move"[0] != "wait"[0];
    r := Register(reg, "move", MoveKind);
    assert "dialogue"[0] != "wait"[0] && "dialogue"[0] != "move"[0];
    r := Register(reg, "dialogue", DialogueKind);
  }

  /**
   * `Cutscene.getByType`: the class registered under the type. The Map's
   * keys are strings, so any other value (or `undefined`) is not found.
   */
  function GetByType(reg: seq<(string, SceneKind)>, sceneType: Option<Json>): (r: Result<SceneKind>)
    ensures r.Ok? <==> sceneType.Some? && sceneType.value.JStr? && Find(reg, sceneType.value.s).Some?
    ensures r.Ok? ==> Find(reg, sceneType.value.s) == Some(r.value)
    ensures r.Err? ==> r.error == Thrown(Interpolated("Scene type ", sceneType, " not found."))
  {
    if sceneType.Some? && sceneType.value.JStr? && Find(reg, sceneType.value.s).Some? then
      Ok(Find(reg, sceneType.value.s).value)
    else
      Err(Thrown(Interpolated("Scene type ", sceneType, " not found.")))
  }

  /** The three scene types are found under their own names. */
  lemma StandardScenesFound()
    ensures GetByType(STANDARD_SCENES, Some(JStr("wait"))) == Ok(WaitKind)
    ensures GetByType(STANDARD_SCENES, Some(JStr("move"))) == Ok(MoveKind)
    ensures GetByType(STANDARD_SCENES, Some(JStr("dialogue"))) == Ok(DialogueKind)
  {
    assert "move"[0] != "wait"[0];
    assert "dialogue"[0] != "wait"[0] && "dialogue"[0] != "move"[0];
    assert STANDARD_SCENES[1..] == [("move", MoveKind), ("dialogue", DialogueKind)];
    assert STANDARD_SCENES[1..][1..] == [("dialogue", DialogueKind)];
  }

  /** What a scene's constructor reads from its JSON. */
  datatype SceneData =
    | WaitData(sceneType: string, waitDuration: real)
    | MoveData(sceneType: string, uuid: Option<Json>, moveDestination: Vec, moveDuration: real)
    | DialogueData(sceneType: string, speaker: string, dialogue: string)

  function KindOf(d: SceneData): SceneKind
  {
    match d
    case WaitData(_, _) => WaitKind
    case MoveData(_, _, _, _) => MoveKind
    case DialogueData(_, _, _) => DialogueKind
  }

  /** A number field: durations are JavaScript numbers. */
  function NumField(obj: Json, key: string): (r: Result<real>)
    requires !obj.JNull?
    ensures r.Ok? <==> JsGet(obj, key).value.Some? && JsGet(obj, key).value.value.JNum?
    ensures r.Ok? ==> JsGet(obj, key) == Ok(Some(JNum(r.value)))
    ensures r.Err? ==> r.error == TypeError
  {
    var v := JsGet(obj, key).value;
    if v.Some? && v.value.JNum? then Ok(v.value.n) else Err(TypeError)
  }

  /** A string field, as the dialogue box's `setText` needs its text and UUID. */
  function StrField(obj: Json, key: string): (r: Result<string>)
    requires !obj.JNull?
    ensures r.Ok? <==> JsGet(obj, key).value.Some? && JsGet(obj, key).value.value.JStr?
    ensures r.Ok? ==> JsGet(obj, key) == Ok(Some(JStr(r.value)))
    ensures r.Err? ==> r.error == TypeError
  {
    var v := JsGet(obj, key).value;
    if v.Some? && v.value.JStr? then Ok(v.value.s) else Err(TypeError)
  }

  /**
   * `Cutscene.fromJSON`, with the move destination read as `new Vec(o.x,
   * o.y)`: the class registered under `scene_type`, then the fields its
   * constructor reads.
   */
  function ParseScene(reg: seq<(string, SceneKind)>, obj: Json): (r: Result<SceneData>)
    ensures obj.JNull? ==> r == Err(TypeError)
    ensures r.Ok? ==> GetByType(reg, JsGet(obj, "scene_type").value) == Ok(KindOf(r.value))
    ensures r.Ok? ==> JsGet(obj, "scene_type") == Ok(Some(JStr(r.value.sceneType)))
    ensures r.Ok? && r.value.WaitData? ==> JsGet(obj, "wait_duration") == Ok(Some(JNum(r.value.waitDuration)))
    ensures r.Ok? && r.value.MoveData? ==>
      JsGet(obj, "uuid") == Ok(r.value.uuid) && VecField(obj, "move_destination") == Ok(r.value.moveDestination) &&
      JsGet(obj, "move_duration") == Ok(Some(JNum(r.value.moveDuration)))
    ensures r.Ok? && r.value.DialogueData? ==>
      JsGet(obj, "uuid") == Ok(Some(JStr(r.value.speaker))) && JsGet(obj, "dialogue") == Ok(Some(JStr(r.value.dialogue)))
  {
    var t :- JsGet(obj, "scene_type");
    var kind :- GetByType(reg, t);
    var sceneType := t.value.s;
    match kind
    case WaitKind =>
      var d :- NumField(obj, "wait_duration");
      Ok(WaitData(sceneType, d))
    case MoveKind =>
      var dest :- VecField(obj, "move_destination");
      var d :- NumField(obj, "move_duration");
      Ok(MoveData(sceneType, JsGet(obj, "uuid").value, dest, d))
    case DialogueKind =>
      var uuid :- StrField(obj, "uuid");
      var dialogue :- StrField(obj, "dialogue");
      Ok(DialogueData(sceneType, uuid, dialogue))
  }

  /**
   * `Cutscene.fromJSON` as written: a move scene's constructor calls
   * `Vec.fromJSON`, which the client's Vec class (js/index/geometry.mjs)
   * does not define, so it throws a TypeError; the other scenes load.
   */
  function ParseSceneAsWritten(reg: seq<(string, SceneKind)>, obj: Json): (r: Result<SceneData>)
    ensures r.Ok? ==> r == ParseScene(reg, obj) && !r.value.MoveData?
    ensures ParseScene(reg, obj).Ok? && !ParseScene(reg, obj).value.MoveData? ==> r == ParseScene(reg, obj)
  {
    var t :- JsGet(obj, "scene_type");
    var kind :- GetByType(reg, t);
    if kind == MoveKind then Err(TypeError) else ParseScene(reg, obj)
  }

  /** The JSON a scene arrives as. */
  function SceneJson(d: SceneData): Json
  {
    match d
    case WaitData(t, w) => JObj([("scene_type", JStr(t)), ("wait_duration", JNum(w))])
    case MoveData(t, u, dest, m) =>
      if u.Some? then
        JObj([("scene_type", JStr(t)), ("uuid", u.value), ("move_destination", VecJson(dest)), ("move_duration", JNum(m))])
      else
        JObj([("scene_type", JStr(t)), ("move_destination", VecJson(dest)), ("move_duration", JNum(m))])
    case DialogueData(t, u, text) => JObj([("scene_type", JStr(t)), ("uuid", JStr(u)), ("dialogue", JStr(text))])
  }

  lemma WaitJsonFields(t: string, w: real)
    ensures JsGet(SceneJson(WaitData(t, w)), "scene_type") == Ok(Some(JStr(t)))
    ensures JsGet(SceneJson(WaitData(t, w)), "wait_duration") == Ok(Some(JNum(w)))
  {
    var fields := SceneJson(WaitData(t, w)).fields;
    assert UniqueKeys(fields) by {
      assert |"scene_type"| == 10 && |"wait_duration"| == 13;
    }
    FindEntry(fields, 0);
    FindEntry(fields, 1);
  }

  lemma MoveJsonFields(t: string, u: Option<Json>, dest: Vec, m: real)
    ensures JsGet(SceneJson(MoveData(t, u, dest, m)), "scene_type") == Ok(Some(JStr(t)))
    ensures JsGet(SceneJson(MoveData(t, u, dest, m)), "move_destination") == Ok(Some(VecJson(dest)))
    ensures JsGet(SceneJson(MoveData(t, u, dest, m)), "move_duration") == Ok(Some(JNum(m)))
    ensures JsGet(SceneJson(MoveData(t, u, dest, m)), "uuid") == Ok(u)
  {
    if u.Some? {
      MoveJsonFieldsWithUuid(t, u.value, dest, m);
    } else {
      MoveJsonFieldsNoUuid(t, dest, m);
    }
  }

  lemma MoveJsonFieldsWithUuid(t: string, u: Json, dest: Vec, m: real)
    ensures var j := SceneJson(MoveData(t, Some(u), dest, m));
      JsGet(j, "scene_type") == Ok(Some(JStr(t))) && JsGet(j, "uuid") == Ok(Some(u)) &&
      JsGet(j, "move_destination") == Ok(Some(VecJson(dest))) && JsGet(j, "move_duration") == Ok(Some(JNum(m)))
  {
    var fields := [("scene_type", JStr(t)), ("uuid", u), ("move_destination", VecJson(dest)), ("move_duration", JNum(m))];
    assert SceneJson(MoveData(t, Some(u), dest, m)) == JObj(fields);
    assert UniqueKeys(fields) by {
      assert |"scene_type"| == 10 && |"uuid"| == 4 && |"move_destination"| == 16 && |"move_duration"| == 13;
    }
    FindEntry(fields, 0);
    FindEntry(fields, 1);
    FindEntry(fields, 2);
    FindEntry(fields, 3);
  }

  lemma MoveJsonFieldsNoUuid(t: string, dest: Vec, m: real)
    ensures var j := SceneJson(MoveData(t, None, dest, m));
      JsGet(j, "scene_type") == Ok(Some(JStr(t))) && JsGet(j, "uuid") == Ok(None) &&
      JsGet(j, "move_destination") == Ok(Some(VecJson(dest))) && JsGet(j, "move_duration") == Ok(Some(JNum(m)))
  {
    var fields := [("scene_type", JStr(t)), ("move_destination", VecJson(dest)), ("move_duration", JNum(m))];
    assert SceneJson(MoveData(t, None, dest, m)) == JObj(fields);
    assert UniqueKeys(fields) by {
      assert |"scene_type"| == 10 && |"move_destination"| == 16 && |"move_duration"| == 13;
    }
    FindEntry(fields, 0);
    FindEntry(fields, 1);
    FindEntry(fields, 2);
    assert |"uuid"| == 4;
    KeyAbsent(fields, "uuid");
  }

  /** A key that no field carries is not found. */
  lemma {:induction false} KeyAbsent<V>(fields: seq<(string, V)>, key: string)
    requires forall i :: 0 <= i < |fields| ==> fields[i].0 != key
    ensures Find(fields, key).None?
  {
    if |fields| > 0 {
      assert fields[0].0 != key;
      KeyAbsent(fields[1..], key);
    }
  }

  lemma DialogueJsonFields(t: string, u: string, text: string)
    ensures JsGet(SceneJson(DialogueData(t, u, text)), "scene_type") == Ok(Some(JStr(t)))
    ensures JsGet(SceneJson(DialogueData(t, u, text)), "uuid") == Ok(Some(JStr(u)))
    ensures JsGet(SceneJson(DialogueData(t, u, text)), "dialogue") == Ok(Some(JStr(text)))
  {
    var fields := SceneJson(DialogueData(t, u, text)).fields;
    assert UniqueKeys(fields) by {
      assert |"scene_type"| == 10 && |"uuid"| == 4 && |"dialogue"| == 8;
    }
    FindEntry(fields, 0);
    FindEntry(fields, 1);
    FindEntry(fields, 2);
  }

  lemma ParseMoveFrom(reg: seq<(string, SceneKind)>, j: Json, d: SceneData)
    requires d.MoveData? && Find(reg, d.sceneType) == Some(MoveKind)
    requires JsGet(j, "scene_type") == Ok(Some(JStr(d.sceneType))) && JsGet(j, "uuid") == Ok(d.uuid)
    requires VecField(j, "move_destination") == Ok(d.moveDestination)
    requires JsGet(j, "move_duration") == Ok(Some(JNum(d.moveDuration)))
    ensures ParseScene(reg, j) == Ok(d)
  {
    assert !j.JNull?;
    assert GetByType(reg, Some(JStr(d.sceneType))) == Ok(MoveKind);
  }

  lemma ParseDialogueFrom(reg: seq<(string, SceneKind)>, j: Json, d: SceneData)
    requires d.DialogueData? && Find(reg, d.sceneType) == Some(DialogueKind)
    requires JsGet(j, "scene_type") == Ok(Some(JStr(d.sceneType)))
    requires JsGet(j, "uuid") == Ok(Some(JStr(d.speaker))) && JsGet(j, "dialogue") == Ok(Some(JStr(d.dialogue)))
    ensures ParseScene(reg, j) == Ok(d)
  {
    assert !j.JNull?;
    assert GetByType(reg, Some(JStr(d.sceneType))) == Ok(DialogueKind);
  }

  /** A scene sent with a registered type is rebuilt with the fields it was sent with. */
  lemma ParseSceneRoundTrip(reg: seq<(string, SceneKind)>, d: SceneData)
    requires Find(reg, d.sceneType) == Some(KindOf(d))
    ensures ParseScene(reg, SceneJson(d)) == Ok(d)
  {
    var j := SceneJson(d);
    match d
    case WaitData(t, w) =>
      WaitJsonFields(t, w);
      assert !j.JNull?;
      assert GetByType(reg, Some(JStr(t))) == Ok(WaitKind);
    case MoveData(t, u, dest, m) =>
      MoveJsonFields(t, u, dest, m);
      VecFieldOf(j, "move_destination", dest);
      ParseMoveFrom(reg, j, d);
    case DialogueData(t, u, text) =>
      DialogueJsonFields(t, u, text);
      ParseDialogueFrom(reg, j, d);
  }

  /** As written, no move scene the server can send is ever loaded. */
  lemma MoveSceneNeverLoads(reg: seq<(string, SceneKind)>, d: SceneData)
    requires d.MoveData? && Find(reg, d.sceneType) == Some(MoveKind)
    ensures ParseScene(reg, SceneJson(d)) == Ok(d)
    ensures ParseSceneAsWritten(reg, SceneJson(d)) == Err(TypeError)
  {
    ParseSceneRoundTrip(reg, d);
  }

  /** `div`: each coordinate divided by `k`. */
  function Div(v: Vec, k: real): Vec
    requires k != 0.0
  {
    Vec(v.x / k, v.y / k)
  }

  /** `mul`: each coordinate multiplied by `k`. */
  function Mul(v: Vec, k: real): Vec
  {
    Vec(v.x * k, v.y * k)
  }

  /** A wait of a fixed number of seconds. */
  class WaitScene {
    const sceneType: string
    var waitDuration: real

    constructor (sceneType: string, waitDuration: real)
      ensures this.sceneType == sceneType && this.waitDuration == waitDuration
    {
      this.sceneType := sceneType;
      this.waitDuration := waitDuration;
    }

    /** `update(game, dt)`: `dt` seconds pass; the wait goes on while time remains. */
    method Update(dt: real) returns (running: bool)
      modifies this
      ensures waitDuration == old(waitDuration) - dt
      ensures running <==> waitDuration > 0.0
    {
      waitDuration := waitDuration - dt;
      running := waitDuration > 0.0;
    }
  }

  /** The seconds the frames `dts` take together. */
  function Elapsed(dts: seq<real>): real
  {
    if |dts| == 0 then 0.0 else dts[0] + Elapsed(dts[1..])
  }

  /**
   * The time left and the last report of a scene whose duration `d` is
   * counted down by the frames `dts`, one `update` each.
   */
  function Countdown(d: real, dts: seq<real>): (real, bool)
    requires |dts| >= 1
    decreases |dts|
  {
    var left := d - dts[0];
    if |dts| == 1 then (left, left > 0.0) else Countdown(left, dts[1..])
  }

  /**
   * A wait (or the duration of a move) of `d` seconds, updated frame after
   * frame, reports that it is still running exactly while less than `d`
   * seconds have passed in all.
   */
  lemma {:induction false} CountdownElapsed(d: real, dts: seq<real>)
    requires |dts| >= 1
    decreases |dts|
    ensures Countdown(d, dts) == (d - Elapsed(dts), Elapsed(dts) < d)
  {
    if |dts| > 1 {
      CountdownElapsed(d - dts[0], dts[1..]);
    } else {
      assert Elapsed(dts[1..]) == 0.0;
    }
  }

  /** An entity moved by `velocity * dt` for each frame `dt`. */
  function Travel(pos: Vec, velocity: Vec, dts: seq<real>): Vec
    decreases |dts|
  {
    if |dts| == 0 then pos else Travel(Add(pos, Mul(velocity, dts[0])), velocity, dts[1..])
  }

  /** Moving frame by frame at a fixed velocity covers `velocity` times the time elapsed. */
  lemma {:induction false} TravelElapsed(pos: Vec, velocity: Vec, dts: seq<real>)
    decreases |dts|
    ensures Travel(pos, velocity, dts) == Add(pos, Mul(velocity, Elapsed(dts)))
  {
    if |dts| > 0 {
      var rest := Elapsed(dts[1..]);
      TravelElapsed(Add(pos, Mul(velocity, dts[0])), velocity, dts[1..]);
      assert velocity.x * dts[0] + velocity.x * rest == velocity.x * (dts[0] + rest);
      assert velocity.y * dts[0] + velocity.y * rest == velocity.y * (dts[0] + rest);
    }
  }

  /**
   * A move of `duration` seconds from `start` that is updated until exactly
   * that time has passed ends at its destination: the velocity it fixes on
   * its first update is the displacement divided by the duration.
   */
  lemma MoveArrives(start: Vec, destination: Vec, duration: real, dts: seq<real>)
    requires duration != 0.0 && Elapsed(dts) == duration
    ensures Travel(start, Div(RelativeTo(destination, start), duration), dts) == destination
  {
    var v := Div(RelativeTo(destination, start), duration);
    TravelElapsed(start, v, dts);
    assert v.x * duration == destination.x - start.x;
    assert v.y * duration == destination.y - start.y;
  }

  /** JavaScript's `===` between two property values parsed from different messages. */
  predicate StrictEquals(a: Option<Json>, b: Option<Json>)
  {
    (a.None? && b.None?) ||
    (a.Some? && b.Some? && !a.value.JArr? && !a.value.JObj? && a.value == b.value)
  }

  /** `entities.find(e => e.uuid === uuid)`: the first entity whose UUID matches. */
  function FindByUuid(entities: seq<LegacyEntities.Entity>, uuid: Option<Json>, from: nat): (r: Option<nat>)
    requires from <= |entities|
    decreases |entities| - from
    ensures r.Some? ==> from <= r.value < |entities| && StrictEquals(entities[r.value].uuid, uuid)
    ensures r.Some? ==> forall j :: from <= j < r.value ==> !StrictEquals(entities[j].uuid, uuid)
    ensures r.None? ==> forall j :: from <= j < |entities| ==> !StrictEquals(entities[j].uuid, uuid)
  {
    if from == |entities| then None
    else if StrictEquals(entities[from].uuid, uuid) then Some(from)
    else FindByUuid(entities, uuid, from + 1)
  }

  /** A move of one entity, found by UUID, to a destination in a given time. */
  class MoveScene {
    const sceneType: string
    const uuid: Option<Json>
    const moveDestination: Vec
    var moveDuration: real
    /** `null` until the first update that finds the entity. */
    var velocity: Option<Vec>

    constructor (sceneType: string, uuid: Option<Json>, moveDestination: Vec, moveDuration: real)
      ensures this.sceneType == sceneType && this.uuid == uuid && this.moveDestination == moveDestination
      ensures this.moveDuration == moveDuration && velocity.None?
    {
      this.sceneType := sceneType;
      this.uuid := uuid;
      this.moveDestination := moveDestination;
      this.moveDuration := moveDuration;
      velocity := None;
    }

    /**
     * `update(game, dt)`. With no entity of the scene's UUID it returns
     * `undefined` (None) and changes nothing. Otherwise the first such
     * update fixes the velocity that reaches the destination in the
     * remaining time; every update moves the entity by `velocity * dt`,
     * counts `dt` off the duration and reports whether time remains.
     */
    method Update(entities: seq<LegacyEntities.Entity>, dt: real) returns (r: Option<bool>)
      requires velocity.Some? || moveDuration != 0.0
      modifies this, entities
      ensures FindByUuid(entities, uuid, 0).None? ==>
        r.None? && moveDuration == old(moveDuration) && velocity == old(velocity) &&
        forall e :: e in entities ==> e.pos == old(e.pos)
      ensures FindByUuid(entities, uuid, 0).Some? ==>
        var ent := entities[FindByUuid(entities, uuid, 0).value];
        velocity == (if old(velocity).Some? then old(velocity)
                     else Some(Div(RelativeTo(moveDestination, old(ent.pos)), old(moveDuration)))) &&
        ent.pos == Add(old(ent.pos), Mul(velocity.value, dt)) &&
        moveDuration == old(moveDuration) - dt && r == Some(moveDuration > 0.0) &&
        forall e :: e in entities && e != ent ==> e.pos == old(e.pos)
      ensures forall e :: e in entities ==> e.velocity == old(e.velocity) && e.facing == old(e.facing)
    {
      var found := FindByUuid(entities, uuid, 0);
      if found.None? {
        return None;
      }
      var ent := entities[found.value];
      if velocity.None? {
        velocity := Some(Div(RelativeTo(moveDestination, ent.pos), moveDuration));
      }
      ent.Move(Mul(velocity.value, dt));
      moveDuration := moveDuration - dt;
      r := Some(moveDuration > 0.0);
    }
  }

  /** A line of dialogue from one entity, shown until the primary key is pressed. */
  class DialogueScene {
    const sceneType: string
    const uuid: string
    const dialogue: string
    var activated: bool

    constructor (sceneType: string, uuid: string, dialogue: string)
      ensures this.sceneType == sceneType && this.uuid == uuid && this.dialogue == dialogue && !activated
    {
      this.sceneType := sceneType;
      this.uuid := uuid;
      this.dialogue := dialogue;
      activated := false;
    }

    /**
     * `update(game, dt)`: a press of the primary key is consumed and ends
     * both the dialogue and the scene. Otherwise the scene goes on, and its
     * first such update puts its text in the dialogue box; later ones leave
     * the box alone.
     */
    method Update(keys: KeyBinding, box: DialogueBox, measure: string -> real) returns (running: bool)
      modifies this, keys, box
      ensures keys.keyBinds == old(keys.keyBinds)
      ensures old(keys.CheckIfPressed("primarykey")) ==>
        !running && keys.pressedKeys == old(keys.pressedKeys) - {keys.keyBinds["primarykey"]} &&
        box.Valid() && box.state.None? && box.text.None? && box.options.None? &&
        box.entityUuid == old(box.entityUuid) && activated == old(activated)
      ensures !old(keys.CheckIfPressed("primarykey")) ==>
        running && activated && keys.pressedKeys == old(keys.pressedKeys)
      ensures !old(keys.CheckIfPressed("primarykey")) && old(activated) ==> unchanged(box)
      ensures !old(keys.CheckIfPressed("primarykey")) && !old(activated) ==>
        box.Valid() && box.state == Some(TextState) && box.text == Some(dialogue) &&
        box.entityUuid == Some(uuid) && box.lineStart == 0 && box.wrappedText == Wrap(dialogue, measure, box.width)
    {
      if keys.CheckIfPressed("primarykey") {
        keys.Consume("primarykey");
        box.EndDialogue();
        return false;
      }
      if !activated {
        box.SetText(dialogue, uuid, measure);
        activated := true;
      }
      running := true;
    }
  }

  /** A loaded scene. */
  datatype Scene = Wait(w: WaitScene) | Move(m: MoveScene) | Dialogue(d: DialogueScene)

  /** `Cutscene.fromJSON`: parse, then construct the registered class. */
  method FromJson(reg: seq<(string, SceneKind)>, obj: Json) returns (r: Result<Scene>)
    ensures r.Ok? <==> ParseScene(reg, obj).Ok?
    ensures r.Err? ==> r.error == ParseScene(reg, obj).error
    ensures r.Ok? ==> match ParseScene(reg, obj).value
      case WaitData(t, w) => r.value.Wait? && fresh(r.value.w) && r.value.w.sceneType == t && r.value.w.waitDuration == w
      case MoveData(t, u, dest, m) =>
        r.value.Move? && fresh(r.value.m) && r.value.m.sceneType == t && r.value.m.uuid == u &&
        r.value.m.moveDestination == dest && r.value.m.moveDuration == m && r.value.m.velocity.None?
      case DialogueData(t, u, text) =>
        r.value.Dialogue? && fresh(r.value.d) && r.value.d.sceneType == t && r.value.d.uuid == u &&
        r.value.d.dialogue == text && !r.value.d.activated
  {
    var data := ParseScene(reg, obj);
    if data.Err? {
      return Err(data.error);
    }
    match data.value
    case WaitData(t, w) =>
      var s := new WaitScene(t, w);
      r := Ok(Wait(s));
    case MoveData(t, u, dest, m) =>
      var s := new MoveScene(t, u, dest, m);
      r := Ok(Move(s));
    case DialogueData(t, u, text) =>
      var s := new DialogueScene(t, u, text);
      r := Ok(Dialogue(s));
  }
}
