/**
 * The local player and the other players as the client draws them
 * (js/index/player.js; the older client js/index.js holds the same two
 * classes). The player walks with one of four animations, chosen by the
 * way it faces; it runs its animation at double speed while running.
 */
module PlayerState {
  import opened Wrappers
  import opened ClientGeometry
  import opened Rendering
  import LegacyRender
  import ClientConfig

  /** How far below its position the player's draw entry sorts. */
  const PLAYER_WIDTH: real := ClientConfig.PLAYER_WIDTH as real

  const LEFT_FRAMES: seq<Frame> := [
    Frame(0.2, ["char-left-walk1.png", "char-left-still.png", "char-down-still1.png"]),
    Frame(0.2, ["char-left-still.png", "char-down-still1.png"]),
    Frame(0.2, ["char-left-walk2.png", "char-left-still.png", "char-down-still1.png"]),
    Frame(0.2, ["char-left-still.png", "char-down-still1.png"])
  ]

  const UP_FRAMES: seq<Frame> := [
    Frame(0.2, ["char-up-walk1.png", "char-up-still1.png", "char-down-still1.png"]),
    Frame(0.2, ["char-up-still2.png", "char-up-still1.png", "char-down-still1.png"]),
    Frame(0.2, ["char-up-walk2.png", "char-up-still1.png", "char-down-still1.png"]),
    Frame(0.2, ["char-up-still1.png", "char-down-still1.png"])
  ]

  const RIGHT_FRAMES: seq<Frame> := [
    Frame(0.2, ["char-right-walk1.png", "char-right-still.png", "char-down-still1.png"]),
    Frame(0.2, ["char-right-still.png", "char-down-still1.png"]),
    Frame(0.2, ["char-right-walk2.png", "char-right-still.png", "char-down-still1.png"]),
    Frame(0.2, ["char-right-still.png", "char-down-still1.png"])
  ]

  const DOWN_FRAMES: seq<Frame> := [
    Frame(0.2, ["char-down-walk1.png", "char-down-still1.png"]),
    Frame(0.2, ["char-down-still2.png", "char-down-still1.png"]),
    Frame(0.2, ["char-down-walk2.png", "char-down-still1.png"]),
    Frame(0.2, ["char-down-still1.png"])
  ]

  /** The frames of the walk in direction `d`. */
  function WalkFrames(d: Dir): (fs: seq<Frame>)
    ensures |fs| == 4 && PositiveTimes(fs)
  {
    match d
    case Left => LEFT_FRAMES
    case Up => UP_FRAMES
    case Right => RIGHT_FRAMES
    case Down => DOWN_FRAMES
  }

  /** The images `getSprite` asks for when standing still, best first. */
  function StillSprites(d: Dir): (names: seq<string>)
    ensures |names| >= 1 && names[|names| - 1] == "char-down-still1.png"
  {
    match d
    case Left => ["char-left-still.png", "char-down-still1.png"]
    case Up => ["char-up-still1.png", "char-down-still1.png"]
    case Right => ["char-right-still.png", "char-down-still1.png"]
    case Down => ["char-down-still1.png"]
  }

  /** The player the client controls. */
  class Player {
    var pos: Vec
    var facing: Dir
    var moving: bool
    var running: bool
    const leftAnimation: LegacyRender.Animation
    const upAnimation: LegacyRender.Animation
    const rightAnimation: LegacyRender.Animation
    const downAnimation: LegacyRender.Animation

    /** The four animations are distinct objects, each playing its own walk. */
    ghost predicate Valid()
      reads this, leftAnimation, upAnimation, rightAnimation, downAnimation
    {
      leftAnimation != upAnimation && leftAnimation != rightAnimation && leftAnimation != downAnimation &&
      upAnimation != rightAnimation && upAnimation != downAnimation && rightAnimation != downAnimation &&
      leftAnimation.frames == LEFT_FRAMES && upAnimation.frames == UP_FRAMES &&
      rightAnimation.frames == RIGHT_FRAMES && downAnimation.frames == DOWN_FRAMES &&
      leftAnimation.Valid() && upAnimation.Valid() && rightAnimation.Valid() && downAnimation.Valid()
    }

    ghost function Animations(): set<LegacyRender.Animation>
      reads this
    {
      {leftAnimation, upAnimation, rightAnimation, downAnimation}
    }

    /** `new Player(pos)`: facing down, standing, every animation at its first frame. */
    constructor (pos: Vec)
      ensures Valid() && fresh(Animations())
      ensures this.pos == pos && facing == Down && !moving && !running
      ensures forall a :: a in Animations() ==> a.frameIndex == 0 && a.frameDuration == 0.2
    {
      this.pos := pos;
      facing := Down;
      moving := false;
      running := false;
      leftAnimation := new LegacyRender.Animation(LEFT_FRAMES);
      upAnimation := new LegacyRender.Animation(UP_FRAMES);
      rightAnimation := new LegacyRender.Animation(RIGHT_FRAMES);
      downAnimation := new LegacyRender.Animation(DOWN_FRAMES);
    }

    /** `getAnimation`: the walk that matches the facing. */
    function GetAnimation(): (a: LegacyRender.Animation)
      reads this
      ensures a in Animations()
    {
      match facing
      case Left => leftAnimation
      case Up => upAnimation
      case Right => rightAnimation
      case Down => downAnimation
    }

    /** The animation chosen plays the walk of the direction faced. */
    lemma GetAnimationFrames()
      requires Valid()
      ensures GetAnimation().frames == WalkFrames(facing) && GetAnimation().Valid()
    {
    }

    /** `render`: one entry, sorted at the player's feet. */
    function Renders(): (r: seq<Render>)
      reads this
      ensures |r| == 1 && r[0].draw == this
      ensures r[0].groundY - pos.y == PLAYER_WIDTH
    {
      [Render(this, pos.y + PLAYER_WIDTH)]
    }

    /** `startMoving`: the current walk restarts and the player is moving. */
    method StartMoving()
      requires Valid()
      modifies GetAnimation(), this`moving
      ensures Valid() && moving
      ensures GetAnimation().frameIndex == 0 && GetAnimation().frameDuration == GetAnimation().frames[0].time
    {
      GetAnimationFrames();
      GetAnimation().Reset();
      moving := true;
    }

    /** `stopMoving`: neither running nor moving any more. */
    method StopMoving()
      modifies this`running, this`moving
      ensures !running && !moving
    {
      running := false;
      moving := false;
    }

    /**
     * `move(offset)`: the position is shifted; a player that was standing
     * starts moving and restarts its walk, while one already moving keeps
     * its walk where it is.
     */
    method Move(offset: Vec)
      requires Valid()
      modifies this`pos, this`moving, GetAnimation()
      ensures Valid() && moving
      ensures pos == Add(old(pos), offset)
      ensures !old(moving) ==> GetAnimation().frameIndex == 0 && GetAnimation().frameDuration == 0.2
      ensures old(moving) ==> unchanged(GetAnimation())
    {
      pos := Add(pos, offset);
      if !moving {
        StartMoving();
      }
    }

    /** `moveTo(p)`, inherited from the entity class (js/index/entity.js): the position is replaced. */
    method MoveTo(p: Vec)
      modifies this`pos
      ensures pos == p
    {
      pos := p;
    }

    /** `animate(dt)`: the current walk takes one step of `dt`, or of `2*dt` while running. */
    method Animate(dt: real)
      requires Valid()
      modifies GetAnimation()
      ensures Valid()
      ensures var a := GetAnimation();
        (a.frameIndex, a.frameDuration) ==
        LegacyRender.Step(a.frames, old(a.frameIndex), old(a.frameDuration), if running then 2.0 * dt else dt)
    {
      GetAnimationFrames();
      var step := if running then 2.0 * dt else dt;
      GetAnimation().Animate(step);
    }

    /**
     * `getSprite`: while moving, the current frame of the walk; standing
     * still, the still image for the facing, falling back to the one facing down.
     */
    method GetSprite(cache: ImageCache) returns (img: Option<Image>)
      requires Valid()
      modifies cache
      ensures moving ==>
        (img, cache.images) == GetImageSpec(old(cache.images), GetAnimation().frames[GetAnimation().frameIndex].sprites)
      ensures !moving ==> (img, cache.images) == GetImageSpec(old(cache.images), StillSprites(facing))
    {
      GetAnimationFrames();
      if moving {
        img := GetAnimation().GetSprite(cache);
      } else {
        img := cache.GetImage(StillSprites(facing));
      }
    }
  }

  /** Another player in the same world, as the `players|` message lists it. */
  class OtherPlayer {
    var pos: Vec
    const username: string

    constructor (pos: Vec, username: string)
      ensures this.pos == pos && this.username == username
    {
      this.pos := pos;
      this.username := username;
    }

    /** `render`: one entry, sorted at the player's feet. */
    function Renders(): (r: seq<Render>)
      reads this
      ensures |r| == 1 && r[0].draw == this
      ensures r[0].groundY - pos.y == PLAYER_WIDTH
    {
      [Render(this, pos.y + PLAYER_WIDTH)]
    }
  }

  /**
   * Two players drawn in one render list: after the depth sort, the one
   * further down the screen is drawn later, over the other.
   */
  lemma PlayersSortByPosition(p: Player, q: OtherPlayer, list: seq<Render>)
    requires p.Renders()[0] in list && q.Renders()[0] in list
    ensures p.Renders()[0] in SortByDepth(list) && q.Renders()[0] in SortByDepth(list)
    ensures p.pos.y < q.pos.y ==> forall i, j :: (0 <= i < |SortByDepth(list)| && 0 <= j < |SortByDepth(list)| &&
      SortByDepth(list)[i] == p.Renders()[0] && SortByDepth(list)[j] == q.Renders()[0]) ==> i < j
    ensures q.pos.y < p.pos.y ==> forall i, j :: (0 <= i < |SortByDepth(list)| && 0 <= j < |SortByDepth(list)| &&
      SortByDepth(list)[i] == p.Renders()[0] && SortByDepth(list)[j] == q.Renders()[0]) ==> j < i
  {
    var a, b := p.Renders()[0], q.Renders()[0];
    if p.pos.y < q.pos.y {
      DeeperDrawnLater(list, a, b);
    } else if q.pos.y < p.pos.y {
      DeeperDrawnLater(list, b, a);
    } else {
      SortByDepthCorrect(list);
      assert a in multiset(list) && b in multiset(list);
    }
  }
}
