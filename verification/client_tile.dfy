/**
 * The browser client's tiles (js/index/tile.mjs): the tile classes and
 * their ID registry, building a tile from the JSON the server sends, the
 * sprite a tile draws, its draw-list entries, and the portal animation.
 */
module ClientTiles {
  import opened Wrappers
  import opened Json
  import opened JsText
  import opened AssocLists
  import opened Registries
  import opened ClientGeometry
  import opened Rendering

  datatype TileKind =
    | Empty | Grass | WildGrass | Wall | Portal | Sign
    | DeepWater | ShallowWater | Dirt | Desert | Lava | Floor | IndoorWall | Barrier

  /** `hasMetadata`: the `TilePlus` classes, whose JSON carries `tile_data`. */
  predicate HasMetadata(k: TileKind)
  {
    k == Portal || k == Sign
  }

  /** A class's `_sprite`: null, one image, or images to pick from at random. */
  datatype SpriteSpec = NoSprite | Single(name: string) | Choice(names: seq<string>)

  /** What `register` records for an ID: the class, its sprite and its fill style. */
  datatype TileClassEntry = TileClassEntry(kind: TileKind, sprite: SpriteSpec, fillStyle: string)

  /** The registrations made when the module loads, in order. */
  const STANDARD_TILES: seq<(string, TileClassEntry)> := [
    ("empty", TileClassEntry(Empty, NoSprite, "rgb(0, 0, 0)")),
    ("grass", TileClassEntry(Grass, Single("grass.png"), "rgb(0, 255, 0)")),
    ("wild_grass", TileClassEntry(WildGrass, Single("wild-grass.png"), "rgb(0, 180, 0)")),
    ("wall", TileClassEntry(Wall, Single("wall.png"), "rgb(210, 105, 30)")),
    ("portal", TileClassEntry(Portal, NoSprite, "rgb(0, 0, 0)")),
    ("sign", TileClassEntry(Sign, Single("sign.png"), "rgb(255, 255, 0)")),
    ("deep_water", TileClassEntry(DeepWater, Single("deep-water.png"), "rgb(0, 10, 190)")),
    ("shallow_water", TileClassEntry(ShallowWater, Single("shallow-water.png"), "rgb(0, 90, 120)")),
    ("dirt", TileClassEntry(Dirt, Single("dirt.png"), "rgb(100, 90, 40)")),
    ("desert", TileClassEntry(Desert, Single("desert.png"), "rgb(190, 170, 70)")),
    ("lava", TileClassEntry(Lava, Single("lava.png"), "rgb(255, 150, 0)")),
    ("floor", TileClassEntry(Floor, Choice(["floor1.png", "floor2.png"]), "rgb(140, 100, 60)")),
    ("indoor_wall", TileClassEntry(IndoorWall, Single("indoor_wall.png"), "rgb(0, 50, 0)")),
    ("barrier", TileClassEntry(Barrier, NoSprite, "rgb(0, 0, 0)"))
  ]

  /** How far below a sign's position its overlay is sorted. */
  const SIGN_HEIGHT: real := 27.0

  /** The portal animation: four frames of 0.28 seconds, each falling back to the first image. */
  const PORTAL_FRAMES: seq<Frame> := [
    Frame(0.28, ["portal-1.png"]),
    Frame(0.28, ["portal-2.png", "portal-1.png"]),
    Frame(0.28, ["portal-3.png", "portal-1.png"]),
    Frame(0.28, ["portal-4.png", "portal-1.png"])
  ]

  /**
   * `Tile.register`: a second registration of an ID throws and changes
   * nothing; otherwise the class is stored with its sprite and fill style.
   */
  method Register(reg: Registry<TileClassEntry>, tileId: string, kind: TileKind, sprite: SpriteSpec, fillStyle: string)
    returns (r: Result<()>)
    requires reg.Valid()
    modifies reg
    ensures reg.Valid()
    ensures r.Err? <==> Find(old(reg.entries), tileId).Some?
    ensures r.Err? ==> r.error == Thrown("Tile ID " + tileId + " is already in use.") && reg.entries == old(reg.entries)
    ensures r.Ok? ==> reg.entries == old(reg.entries) + [(tileId, TileClassEntry(kind, sprite, fillStyle))]
    ensures r.Ok? ==> Find(reg.entries, tileId) == Some(TileClassEntry(kind, sprite, fillStyle))
  {
    var ok := reg.Register(tileId, TileClassEntry(kind, sprite, fillStyle));
    r := if ok then Ok(()) else Err(Thrown("Tile ID " + tileId + " is already in use."));
  }

  /** `Tile.getById`: the class registered under a string ID; anything else throws. */
  function GetById(reg: seq<(string, TileClassEntry)>, tileId: Option<Json>): (r: Result<TileClassEntry>)
    ensures r.Ok? <==> tileId.Some? && tileId.value.JStr? && Find(reg, tileId.value.s).Some?
    ensures r.Ok? ==> Find(reg, tileId.value.s) == Some(r.value)
    ensures r.Err? ==> r.error == Thrown(Interpolated("Tile ID ", tileId, " not found."))
  {
    if tileId.Some? && tileId.value.JStr? && Find(reg, tileId.value.s).Some? then
      Ok(Find(reg, tileId.value.s).value)
    else
      Err(Thrown(Interpolated("Tile ID ", tileId, " not found.")))
  }

  /** A tile as `fromJSON` builds it: its class, its position, and the tile under it. */
  datatype TileShape = TileShape(entry: TileClassEntry, pos: Vec, ground: Option<TileShape>)

  /** Every tile of the shape is at `pos`, and exactly the metadata classes have a ground tile. */
  predicate ShapeAt(t: TileShape, pos: Vec)
  {
    t.pos == pos && (t.ground.Some? <==> HasMetadata(t.entry.kind)) &&
    (t.ground.Some? ==> ShapeAt(t.ground.value, pos))
  }

  /**
   * `Tile.fromJSON(obj, pos)`: the class named by `tile_id`, and for a
   * portal or sign the ground tile parsed from `tile_data.ground_tile` at
   * the same position. A null object, or missing `tile_data` or
   * `ground_tile`, is a property access on null or undefined (TypeError).
   */
  function ParseTile(reg: seq<(string, TileClassEntry)>, obj: Json, pos: Vec): (r: Result<TileShape>)
    ensures obj.JNull? ==> r == Err(TypeError)
    ensures r.Ok? ==> ShapeAt(r.value, pos)
    ensures r.Ok? ==> GetById(reg, JsGet(obj, "tile_id").value) == Ok(r.value.entry)
    decreases obj
  {
    var tileId :- JsGet(obj, "tile_id");
    var entry :- GetById(reg, tileId);
    if !HasMetadata(entry.kind) then Ok(TileShape(entry, pos, None))
    else
      var data := JsGet(obj, "tile_data").value;
      if data.None? then Err(TypeError)
      else
        var groundJson :- JsGet(data.value, "ground_tile");
        if groundJson.None? then Err(TypeError)
        else
          JsGetSmaller(obj, "tile_data");
          JsGetSmaller(data.value, "ground_tile");
          var ground :- ParseTile(reg, groundJson.value, pos);
          Ok(TileShape(entry, pos, Some(ground)))
  }

  /** Every class in the shape is registered, so the shape can be sent as JSON. */
  predicate Registered(reg: seq<(string, TileClassEntry)>, t: TileShape)
  {
    KeyOf(reg, t.entry).Some? && (t.ground.Some? ==> Registered(reg, t.ground.value))
  }

  /** The JSON a tile of this shape arrives as: its ID, and for a portal or sign its ground tile. */
  function ShapeJson(reg: seq<(string, TileClassEntry)>, t: TileShape): (j: Json)
    requires Registered(reg, t)
    ensures j.JObj?
  {
    var id := JStr(KeyOf(reg, t.entry).value);
    match t.ground
    case None => JObj([("tile_id", id)])
    case Some(g) => JObj([("tile_id", id), ("tile_data", JObj([("ground_tile", ShapeJson(reg, g))]))])
  }

  lemma TileObjectFields(id: Json, data: Json)
    ensures JsGet(JObj([("tile_id", id)]), "tile_id") == Ok(Some(id))
    ensures JsGet(JObj([("tile_id", id), ("tile_data", data)]), "tile_id") == Ok(Some(id))
    ensures JsGet(JObj([("tile_id", id), ("tile_data", data)]), "tile_data") == Ok(Some(data))
    ensures JsGet(JObj([("ground_tile", id)]), "ground_tile") == Ok(Some(id))
  {
    var f := [("tile_id", id), ("tile_data", data)];
    assert f[0].0 != "tile_data" by { assert "tile_id"[5] != "tile_data"[5]; }
    assert f[1..] == [("tile_data", data)];
    assert Find(f, "tile_data") == Find(f[1..], "tile_data") == Some(data);
  }

  /** A tile sent in the form `fromJSON` reads is rebuilt as the same tile. */
  lemma {:induction false} ParseShapeRoundTrip(reg: seq<(string, TileClassEntry)>, t: TileShape, pos: Vec)
    requires UniqueKeys(reg) && Registered(reg, t) && ShapeAt(t, pos)
    ensures ParseTile(reg, ShapeJson(reg, t), pos) == Ok(t)
  {
    var id := KeyOf(reg, t.entry).value;
    KeyOfInvertsFind(reg, id, t.entry);
    if t.ground.Some? {
      var g := ShapeJson(reg, t.ground.value);
      ParseShapeRoundTrip(reg, t.ground.value, pos);
      TileObjectFields(JStr(id), JObj([("ground_tile", g)]));
      TileObjectFields(g, JNull);
    } else {
      TileObjectFields(JStr(id), JNull);
    }
  }

  /** `Math.floor(Math.random() * n)` for a draw `rand` in [0, 1). */
  function Pick(rand: real, n: nat): (i: int)
    requires 0.0 <= rand < 1.0 && n > 0
    ensures 0 <= i < n
  {
    PickBound(rand, n);
    (rand * n as real).Floor
  }

  lemma PickBound(rand: real, n: nat)
    requires 0.0 <= rand < 1.0 && n > 0
    ensures 0.0 <= rand * n as real < n as real
  {
    assert (1.0 - rand) * n as real > 0.0;
  }

  /** The random sprite arrays name at least one image, and no empty name. */
  predicate ChoicesOk(s: SpriteSpec)
  {
    s.Choice? ==> |s.names| > 0 && forall i :: 0 <= i < |s.names| ==> s.names[i] != ""
  }

  /**
   * The memoised sprite after `getSprite`: a non-empty one is kept; else a
   * random array sprite is drawn and kept; else nothing is recorded.
   */
  function MemoAfter(memo: Option<string>, spec: SpriteSpec, rand: real): (m: Option<string>)
    requires ChoicesOk(spec) && 0.0 <= rand < 1.0
    ensures memo.Some? && memo.value != "" ==> m == memo
    ensures spec.Choice? ==> m.Some? && m.value != ""
  {
    if memo.Some? && memo.value != "" then memo
    else if spec.Choice? then Some(spec.names[Pick(rand, |spec.names|)])
    else memo
  }

  /** The image name `getSprite` asks the cache for; "" when it asks for none. */
  function SpriteName(memo: Option<string>, spec: SpriteSpec): string
  {
    if memo.Some? && memo.value != "" then memo.value
    else if spec.Single? then spec.name
    else ""
  }

  /** Once a sprite has been drawn, later calls keep it whatever they draw. */
  lemma MemoStable(memo: Option<string>, spec: SpriteSpec, r1: real, r2: real)
    requires ChoicesOk(spec) && 0.0 <= r1 < 1.0 && 0.0 <= r2 < 1.0
    ensures spec.Choice? ==> MemoAfter(MemoAfter(memo, spec, r1), spec, r2) == MemoAfter(memo, spec, r1)
    ensures spec.Choice? ==> SpriteName(MemoAfter(memo, spec, r1), spec) == MemoAfter(memo, spec, r1).value
    ensures spec.Choice? && !(memo.Some? && memo.value != "") ==> MemoAfter(memo, spec, r1).value in spec.names
  {
  }

  /** A tile in the client's world. */
  class Tile {
    const entry: TileClassEntry
    const pos: Vec
    /** The ground tile of a portal or sign (its `data.groundTile`). */
    const ground: Option<Tile>
    /** A portal's animation. */
    const animation: Option<Animation>
    /** The memoised sprite (`this.sprite`), None while undefined. */
    var sprite: Option<string>
    ghost const depth: nat

    ghost predicate WellNested()
      decreases depth
    {
      (ground.Some? <==> HasMetadata(entry.kind)) &&
      (animation.Some? <==> entry.kind == Portal) &&
      (ground.Some? ==> ground.value.depth < depth && ground.value.WellNested())
    }

    /** The tile and every tile under it share one position. */
    ghost predicate SharedPos()
      requires WellNested()
      decreases depth
    {
      ground.Some? ==> ground.value.pos == pos && ground.value.SharedPos()
    }

    ghost predicate Valid()
      reads this, if animation.Some? then {animation.value} else {}
    {
      animation.Some? ==> animation.value.Valid() && animation.value.frames == PORTAL_FRAMES
    }

    ghost function Shape(): TileShape
      requires WellNested()
      decreases depth
    {
      TileShape(entry, pos, if ground.Some? then Some(ground.value.Shape()) else None)
    }

    /** `new tileClass(pos)` or `new tileClass(pos, data)`; a portal starts its animation. */
    constructor (entry: TileClassEntry, pos: Vec, ground: Option<Tile>)
      requires ground.Some? <==> HasMetadata(entry.kind)
      requires ground.Some? ==> ground.value.WellNested()
      ensures WellNested() && Valid() && sprite.None?
      ensures this.entry == entry && this.pos == pos && this.ground == ground
      ensures animation.Some? ==> fresh(animation.value) && animation.value.frameIndex == 0
    {
      this.entry := entry;
      this.pos := pos;
      this.ground := ground;
      depth := if ground.Some? then ground.value.depth + 1 else 0;
      if entry.kind == Portal {
        var a := new Animation(PORTAL_FRAMES);
        animation := Some(a);
      } else {
        animation := None;
      }
      sprite := None;
    }

    /**
     * `render`: the ground tile's entries, then one entry for this tile, at
     * depth `pos.y`, or `pos.y + 27` for a sign.
     */
    function Renders(): (r: seq<Render>)
      requires WellNested()
      ensures |r| >= 1 && r[|r| - 1].draw == this
      ensures r[|r| - 1].groundY == pos.y + (if entry.kind == Sign then SIGN_HEIGHT else 0.0)
      ensures ground.None? ==> |r| == 1
      decreases depth
    {
      var own := Render(this, pos.y);
      var overlay := if entry.kind == Sign then WithY(own, pos.y + SIGN_HEIGHT) else own;
      (if ground.Some? then ground.value.Renders() else []) + [overlay]
    }

    /** No tile under this one is a sign, so none of them is drawn lower than the position. */
    ghost predicate PlainGround()
      requires WellNested()
      decreases depth
    {
      ground.Some? ==> ground.value.entry.kind != Sign && ground.value.PlainGround()
    }

    /**
     * The entries before the last are the ground tile's. When the tiles
     * share a position and none under this one is a sign, they all lie at
     * the position and this tile's entry is at least as deep, so the stable
     * depth sort keeps it after its ground and it is painted over it.
     */
    lemma {:induction false} OverlayDeepest()
      requires WellNested()
      ensures ground.Some? ==> Renders()[..|Renders()| - 1] == ground.value.Renders()
      ensures SharedPos() && PlainGround() ==> var r := Renders();
        forall i :: 0 <= i < |r| - 1 ==> r[i].groundY == pos.y <= r[|r| - 1].groundY
      decreases depth
    {
      if ground.Some? {
        var g := ground.value;
        g.OverlayDeepest();
        var r := Renders();
        var gr := g.Renders();
        assert r == gr + [r[|r| - 1]];
        assert r[..|r| - 1] == gr;
        if SharedPos() && PlainGround() {
          forall i | 0 <= i < |r| - 1
            ensures r[i].groundY == pos.y
          {
            assert r[i] == gr[i];
            if i < |gr| - 1 {
              assert gr[i].groundY == g.pos.y;
            }
          }
        }
      }
    }

    /**
     * `getSprite`: a portal shows its animation's current frame; any other
     * tile asks the cache for its memoised sprite or its class's sprite,
     * first drawing (with `rand`) and memoising one of the class's images
     * when the class has several. A class without a sprite gives none.
     */
    method GetSprite(cache: ImageCache, rand: real) returns (img: Option<Image>)
      requires Valid() && ChoicesOk(entry.sprite) && 0.0 <= rand < 1.0
      requires animation.Some? <==> entry.kind == Portal
      modifies this`sprite, cache
      ensures animation.Some? ==> sprite == old(sprite)
      ensures animation.Some? ==>
        (img, cache.images) == GetImageSpec(old(cache.images), animation.value.frames[animation.value.frameIndex].sprites)
      ensures animation.None? ==> sprite == MemoAfter(old(sprite), entry.sprite, rand)
      ensures animation.None? && SpriteName(sprite, entry.sprite) != "" ==>
        (img, cache.images) == GetImageSpec(old(cache.images), [SpriteName(sprite, entry.sprite)])
      ensures animation.None? && SpriteName(sprite, entry.sprite) == "" ==>
        img.None? && cache.images == old(cache.images)
    {
      if animation.Some? {
        img := animation.value.GetSprite(cache);
        return;
      }
      if !(sprite.Some? && sprite.value != "") && entry.sprite.Choice? {
        sprite := Some(entry.sprite.names[Pick(rand, |entry.sprite.names|)]);
      }
      var name := SpriteName(sprite, entry.sprite);
      if name != "" {
        img := cache.GetImage([name]);
      } else {
        img := None;
      }
    }

    /** `animate(dt)`: only a portal's animation advances; other tiles do nothing. */
    method Animate(dt: real)
      requires Valid()
      modifies if animation.Some? then {animation.value} else {}
      ensures Valid()
      ensures animation.Some? ==> animation.value.frameDuration > 0.0
    {
      if animation.Some? {
        var _ := animation.value.Animate(dt);
      }
    }
  }

  /**
   * `Tile.fromJSON(obj, pos)`: the ground tile of a portal or sign is built
   * first, then the tile itself.
   */
  method FromJson(reg: seq<(string, TileClassEntry)>, obj: Json, pos: Vec) returns (r: Result<Tile>)
    ensures r.Ok? <==> ParseTile(reg, obj, pos).Ok?
    ensures r.Err? ==> r.error == ParseTile(reg, obj, pos).error
    ensures r.Ok? ==> fresh(r.value) && r.value.WellNested() && r.value.Valid() && r.value.sprite.None?
    ensures r.Ok? ==> r.value.Shape() == ParseTile(reg, obj, pos).value && r.value.SharedPos()
    decreases obj
  {
    var tileId := JsGet(obj, "tile_id");
    if tileId.Err? {
      return Err(tileId.error);
    }
    var entry := GetById(reg, tileId.value);
    if entry.Err? {
      return Err(entry.error);
    }
    if !HasMetadata(entry.value.kind) {
      var t := new Tile(entry.value, pos, None);
      return Ok(t);
    }
    var data := JsGet(obj, "tile_data").value;
    if data.None? {
      return Err(TypeError);
    }
    var groundJson := JsGet(data.value, "ground_tile");
    if groundJson.Err? {
      return Err(groundJson.error);
    }
    if groundJson.value.None? {
      return Err(TypeError);
    }
    JsGetSmaller(obj, "tile_data");
    JsGetSmaller(data.value, "ground_tile");
    var ground := FromJson(reg, groundJson.value.value, pos);
    if ground.Err? {
      return Err(ground.error);
    }
    var t := new Tile(entry.value, pos, Some(ground.value));
    return Ok(t);
  }
}
