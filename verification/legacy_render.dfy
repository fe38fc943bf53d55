/**
 * The frame player of the older single-file client (js/index.js): it
 * shares the frames and the image cache of the current client, but
 * `animate` advances at most one frame per call. The player module
 * js/index/player.js imports its `Animation` from js/index/render.js,
 * which is not part of this model; its walks are taken to use this one.
 */
module LegacyRender {
  import opened Wrappers
  import opened Rendering

  /**
   * One call of `animate(dt)` from frame `i` with `d` seconds left on it:
   * `dt` is taken off, and if no time is left the next frame starts with
   * its full time added.
   */
  function Step(frames: seq<Frame>, i: int, d: real, dt: real): (r: (int, real))
    requires 0 <= i < |frames|
    ensures 0 <= r.0 < |frames|
    ensures d - dt > 0.0 ==> r == (i, d - dt)
    ensures d - dt <= 0.0 ==> r == (IndexAfter(i, |frames|, 1), d - dt + Elapsed(frames, i, 1))
  {
    if d - dt <= 0.0 then
      var j := NextIndex(i, |frames|);
      (j, d - dt + frames[j].time)
    else (i, d - dt)
  }

  /**
   * Whenever one step is enough to leave time on the clock, the single
   * step lands exactly where the current client's `animate` loop does: the
   * frame after the fewest advances that leave time left.
   */
  lemma {:induction false} StepAgreesWithLoop(frames: seq<Frame>, i: int, d: real, dt: real)
    requires 0 <= i < |frames|
    requires Step(frames, i, d, dt).1 > 0.0
    ensures var s := if d - dt <= 0.0 then 1 else 0;
      Step(frames, i, d, dt) == (IndexAfter(i, |frames|, s), d - dt + Elapsed(frames, i, s)) &&
      d - dt + Elapsed(frames, i, s) > 0.0 &&
      forall k :: 0 <= k < s ==> d - dt + Elapsed(frames, i, k) <= 0.0
  {
    if d - dt <= 0.0 {
      assert Elapsed(frames, i, 0) == 0.0;
    }
  }

  /** The older client's `Animation`. */
  class Animation {
    const frames: seq<Frame>
    var frameIndex: int
    var frameDuration: real

    ghost predicate Valid()
      reads this
    {
      0 <= frameIndex < |frames|
    }

    /** The animation starts at its first frame (`reset`). */
    constructor (frames: seq<Frame>)
      requires |frames| > 0
      ensures Valid() && this.frames == frames
      ensures frameIndex == 0 && frameDuration == frames[0].time
    {
      this.frames := frames;
      frameIndex := 0;
      frameDuration := frames[0].time;
    }

    /** `reset`: back to the first frame, with its full time. */
    method Reset()
      requires |frames| > 0
      modifies this
      ensures Valid() && frameIndex == 0 && frameDuration == frames[0].time
    {
      frameIndex := 0;
      frameDuration := frames[0].time;
    }

    /** `animate(dt)`: one step, so a long `dt` leaves the clock behind. */
    method Animate(dt: real)
      requires Valid()
      modifies this
      ensures Valid()
      ensures (frameIndex, frameDuration) == Step(frames, old(frameIndex), old(frameDuration), dt)
    {
      frameDuration := frameDuration - dt;
      if frameDuration <= 0.0 {
        frameIndex := frameIndex + 1;
        if frameIndex >= |frames| {
          frameIndex := frameIndex % |frames|;
        }
        frameDuration := frameDuration + frames[frameIndex].time;
      }
    }

    /** `getSprite`: the current frame's sprite, through the image cache. */
    method GetSprite(cache: ImageCache) returns (r: Option<Image>)
      requires Valid()
      modifies cache
      ensures (r, cache.images) == GetImageSpec(old(cache.images), frames[frameIndex].sprites)
    {
      r := cache.GetImage(frames[frameIndex].sprites);
    }
  }

  /** A long enough `dt` leaves the single-step animation with no time left. */
  lemma LagBehind(frames: seq<Frame>, i: int, d: real, dt: real)
    requires 0 <= i < |frames| && PositiveTimes(frames)
    requires dt >= d + frames[NextIndex(i, |frames|)].time
    ensures Step(frames, i, d, dt).1 <= 0.0
    ensures Step(frames, i, d, dt).0 == NextIndex(i, |frames|)
  {
  }
}
