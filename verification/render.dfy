/**
 * The client's draw lists, image cache and sprite animations
 * (js/index/render.mjs). A draw-list entry stands for its bound render
 * closure by the object the closure is bound to; executing the list yields
 * those objects in the order their closures run.
 */
module Rendering {
  import opened Wrappers

  /** `Render`: a closure to run, and the depth (`groundY`) the list is sorted by. */
  datatype Render = Render(draw: object, groundY: real)

  /** `withY`: a new entry with the same closure at another depth. */
  function WithY(e: Render, y: real): (r: Render)
    ensures r.draw == e.draw && r.groundY == y
  {
    Render(e.draw, y)
  }

  predicate SortedByDepth(s: seq<Render>)
  {
    forall i, j :: 0 <= i < j < |s| ==> s[i].groundY <= s[j].groundY
  }

  /** The entries at depth `y`, in list order. */
  function AtDepth(s: seq<Render>, y: real): (r: seq<Render>)
    ensures |r| <= |s|
  {
    if |s| == 0 then [] else (if s[0].groundY == y then [s[0]] else []) + AtDepth(s[1..], y)
  }

  /** The objects whose closures run, in order. */
  function Draws(s: seq<Render>): (r: seq<object>)
    ensures |r| == |s| && forall i :: 0 <= i < |s| ==> r[i] == s[i].draw
  {
    if |s| == 0 then [] else [s[0].draw] + Draws(s[1..])
  }

  lemma {:induction false} AtDepthConcat(a: seq<Render>, b: seq<Render>, y: real)
    ensures AtDepth(a + b, y) == AtDepth(a, y) + AtDepth(b, y)
  {
    if |a| > 0 {
      assert (a + b)[0] == a[0];
      assert (a + b)[1..] == a[1..] + b;
      AtDepthConcat(a[1..], b, y);
    } else {
      assert a + b == b;
    }
  }

  lemma {:induction false} DrawsConcat(a: seq<Render>, b: seq<Render>)
    ensures Draws(a + b) == Draws(a) + Draws(b)
  {
  }

  /** Nothing at depth `y` when every entry lies deeper than `y`. */
  lemma {:induction false} AtDepthNone(s: seq<Render>, y: real)
    requires forall i :: 0 <= i < |s| ==> s[i].groundY > y
    ensures AtDepth(s, y) == []
  {
    if |s| > 0 {
      AtDepthNone(s[1..], y);
    }
  }

  /** One step of a stable insertion: `e` goes after every entry not deeper than it. */
  function Insert(s: seq<Render>, e: Render): (r: seq<Render>)
    ensures |r| == |s| + 1
    ensures forall x :: x in r ==> x == e || x in s
  {
    if |s| == 0 then [e]
    else if s[0].groundY > e.groundY then [e] + s
    else [s[0]] + Insert(s[1..], e)
  }

  lemma {:induction false} InsertSorted(s: seq<Render>, e: Render)
    requires SortedByDepth(s)
    ensures SortedByDepth(Insert(s, e))
  {
    if |s| > 0 && s[0].groundY <= e.groundY {
      InsertSorted(s[1..], e);
      var rest := Insert(s[1..], e);
      forall i | 0 <= i < |rest|
        ensures s[0].groundY <= rest[i].groundY
      {
        assert rest[i] in rest;
      }
    }
  }

  lemma {:induction false} InsertMultiset(s: seq<Render>, e: Render)
    ensures multiset(Insert(s, e)) == multiset(s) + multiset{e}
  {
    if |s| > 0 && s[0].groundY <= e.groundY {
      InsertMultiset(s[1..], e);
      assert s == [s[0]] + s[1..];
    }
  }

  lemma {:induction false} InsertDraws(s: seq<Render>, e: Render)
    ensures multiset(Draws(Insert(s, e))) == multiset(Draws(s)) + multiset{e.draw}
  {
    if |s| > 0 {
      assert Draws(s) == [s[0].draw] + Draws(s[1..]);
      if s[0].groundY > e.groundY {
        assert Draws([e] + s) == [e.draw] + Draws(s);
      } else {
        InsertDraws(s[1..], e);
        var rest := Insert(s[1..], e);
        assert Draws([s[0]] + rest) == [s[0].draw] + Draws(rest);
      }
    }
  }

  lemma {:induction false} InsertAtDepth(s: seq<Render>, e: Render, y: real)
    requires SortedByDepth(s)
    ensures AtDepth(Insert(s, e), y) == AtDepth(s, y) + (if e.groundY == y then [e] else [])
  {
    if |s| == 0 {
    } else if s[0].groundY > e.groundY {
      assert ([e] + s)[0] == e;
      assert ([e] + s)[1..] == s;
      if e.groundY == y {
        AtDepthNone(s, y);
      }
    } else {
      InsertAtDepth(s[1..], e, y);
      var rest := Insert(s[1..], e);
      assert ([s[0]] + rest)[0] == s[0];
      assert ([s[0]] + rest)[1..] == rest;
    }
  }

  /** The order the engine's stable sort by `groundY` gives the list. */
  function SortByDepth(s: seq<Render>): (r: seq<Render>)
    ensures |r| == |s|
  {
    if |s| == 0 then [] else Insert(SortByDepth(s[..|s| - 1]), s[|s| - 1])
  }

  /**
   * The sorted list is ordered by depth, is a permutation of the list (so
   * every closure appears once), and keeps entries of equal depth in their
   * relative order.
   */
  lemma {:induction false} SortByDepthCorrect(s: seq<Render>)
    ensures SortedByDepth(SortByDepth(s))
    ensures multiset(SortByDepth(s)) == multiset(s)
    ensures multiset(Draws(SortByDepth(s))) == multiset(Draws(s))
    ensures forall y :: AtDepth(SortByDepth(s), y) == AtDepth(s, y)
    decreases |s|
  {
    if |s| > 0 {
      var init := s[..|s| - 1];
      var last := s[|s| - 1];
      assert s == init + [last];
      SortByDepthCorrect(init);
      InsertSorted(SortByDepth(init), last);
      InsertMultiset(SortByDepth(init), last);
      InsertDraws(SortByDepth(init), last);
      InsertAtDepthAll(SortByDepth(init), last);
      DrawsConcat(init, [last]);
      AtDepthConcatAll(init, last);
    }
  }

  /** Of two entries of a list, the shallower one is drawn first once the list is sorted by depth. */
  lemma DeeperDrawnLater(list: seq<Render>, a: Render, b: Render)
    requires a in list && b in list && a.groundY < b.groundY
    ensures a in SortByDepth(list) && b in SortByDepth(list)
    ensures forall i, j :: (0 <= i < |SortByDepth(list)| && 0 <= j < |SortByDepth(list)| &&
      SortByDepth(list)[i] == a && SortByDepth(list)[j] == b) ==> i < j
  {
    var sorted := SortByDepth(list);
    SortedPermutation(list);
    assert a in multiset(list) && b in multiset(list);
    SortedOrder(sorted, a, b);
  }

  /** The depth sort is ordered and a permutation of its input. */
  lemma SortedPermutation(s: seq<Render>)
    ensures SortedByDepth(SortByDepth(s)) && multiset(SortByDepth(s)) == multiset(s)
  {
    SortByDepthCorrect(s);
  }

  /** In a list sorted by depth, an entry comes before every deeper one. */
  lemma SortedOrder(sorted: seq<Render>, a: Render, b: Render)
    requires SortedByDepth(sorted) && a.groundY < b.groundY
    ensures forall i, j :: 0 <= i < |sorted| && 0 <= j < |sorted| && sorted[i] == a && sorted[j] == b ==> i < j
  {
  }

  lemma InsertAtDepthAll(s: seq<Render>, e: Render)
    requires SortedByDepth(s)
    ensures forall y :: AtDepth(Insert(s, e), y) == AtDepth(s, y) + (if e.groundY == y then [e] else [])
  {
    forall y
      ensures AtDepth(Insert(s, e), y) == AtDepth(s, y) + (if e.groundY == y then [e] else [])
    {
      InsertAtDepth(s, e, y);
    }
  }

  lemma AtDepthConcatAll(init: seq<Render>, last: Render)
    ensures forall y :: AtDepth(init + [last], y) == AtDepth(init, y) + (if last.groundY == y then [last] else [])
  {
    forall y
      ensures AtDepth(init + [last], y) == AtDepth(init, y) + (if last.groundY == y then [last] else [])
    {
      AtDepthConcat(init, [last], y);
      assert [last][1..] == [];
    }
  }

  /**
   * `Render.renders`: the list is sorted in place by depth (the engine's
   * stable sort, as one assignment), then the closures run in the sorted
   * order, so each runs once (SortByDepth keeps the multiset of draws).
   */
  method Renders(list: array<Render>) returns (drawn: seq<object>)
    modifies list
    ensures list[..] == SortByDepth(old(list[..]))
    ensures drawn == Draws(list[..])
  {
    var sorted := SortByDepth(list[..]);
    forall i | 0 <= i < list.Length {
      list[i] := sorted[i];
    }
    assert list[..] == sorted;
    drawn := [];
    var k := 0;
    while k < list.Length
      invariant 0 <= k <= list.Length
      invariant |drawn| == k && forall i :: 0 <= i < k ==> drawn[i] == list[i].draw
    {
      drawn := drawn + [list[k].draw];
      k := k + 1;
    }
    assert drawn == Draws(list[..]);
  }

  /** A loaded image, named by the path it was requested from. */
  datatype Image = Image(src: string)

  /** A cache entry: LOADING until the image's `onload` stores it. */
  datatype CacheEntry = Loading | Loaded(image: Image)

  predicate Ready(images: map<string, CacheEntry>, f: string)
  {
    f in images && images[f].Loaded?
  }

  /**
   * What `getImage` returns and what the cache holds afterwards: scanning
   * the filenames in order, the first ready image is returned, and every
   * unseen filename passed before it is requested (marked LOADING).
   */
  function GetImageSpec(images: map<string, CacheEntry>, filenames: seq<string>): (r: (Option<Image>, map<string, CacheEntry>))
    decreases |filenames|
  {
    if |filenames| == 0 then (None, images)
    else if filenames[0] in images then
      if images[filenames[0]].Loaded? then (Some(images[filenames[0]].image), images)
      else GetImageSpec(images, filenames[1..])
    else GetImageSpec(images[filenames[0] := Loading], filenames[1..])
  }

  /** `getImage` returns the image of the first filename, in argument order, that is ready; else null. */
  lemma {:induction false} GetImageFirstReady(images: map<string, CacheEntry>, filenames: seq<string>)
    decreases |filenames|
    ensures GetImageSpec(images, filenames).0.Some? <==> exists i :: 0 <= i < |filenames| && Ready(images, filenames[i])
    ensures GetImageSpec(images, filenames).0.Some? ==>
      exists i :: 0 <= i < |filenames| && Ready(images, filenames[i]) &&
        GetImageSpec(images, filenames).0.value == images[filenames[i]].image &&
        forall k :: 0 <= k < i ==> !Ready(images, filenames[k])
  {
    if |filenames| > 0 && !Ready(images, filenames[0]) {
      var next := if filenames[0] in images then images else images[filenames[0] := Loading];
      assert forall f :: Ready(next, f) <==> Ready(images, f);
      GetImageFirstReady(next, filenames[1..]);
      if GetImageSpec(images, filenames).0.Some? {
        var i :| 0 <= i < |filenames[1..]| && Ready(next, filenames[1..][i]) &&
          GetImageSpec(next, filenames[1..]).0.value == next[filenames[1..][i]].image &&
          forall k :: 0 <= k < i ==> !Ready(next, filenames[1..][k]);
        assert filenames[i + 1] == filenames[1..][i];
        assert forall k :: 1 <= k < i + 1 ==> filenames[k] == filenames[1..][k - 1];
      }
      forall i | 0 <= i < |filenames| && Ready(images, filenames[i])
        ensures exists k :: 0 <= k < |filenames[1..]| && Ready(next, filenames[1..][k])
      {
        assert filenames[1..][i - 1] == filenames[i];
      }
    }
  }

  /** The filenames `getImage` passes over: all of them, or those before the first ready one. */
  predicate ScannedPast(images: map<string, CacheEntry>, filenames: seq<string>, k: int)
  {
    0 <= k < |filenames| && forall m :: 0 <= m <= k ==> !Ready(images, filenames[m])
  }

  /**
   * `getImage` keeps every cache entry it finds, and adds a LOADING entry
   * exactly for the unseen filenames it passes before the first ready one.
   */
  lemma {:induction false} GetImageCache(images: map<string, CacheEntry>, filenames: seq<string>)
    decreases |filenames|
    ensures var after := GetImageSpec(images, filenames).1;
      forall f :: f in images ==> f in after && after[f] == images[f]
    ensures var after := GetImageSpec(images, filenames).1;
      forall f :: f in after && f !in images ==>
        after[f] == Loading && exists k :: ScannedPast(images, filenames, k) && filenames[k] == f
    ensures var after := GetImageSpec(images, filenames).1;
      forall k :: ScannedPast(images, filenames, k) ==> filenames[k] in after
  {
    if |filenames| > 0 && !Ready(images, filenames[0]) {
      var next := if filenames[0] in images then images else images[filenames[0] := Loading];
      assert forall f :: Ready(next, f) <==> Ready(images, f);
      GetImageCache(next, filenames[1..]);
      var after := GetImageSpec(images, filenames).1;
      forall f | f in after && f !in images
        ensures after[f] == Loading && exists k :: ScannedPast(images, filenames, k) && filenames[k] == f
      {
        if f == filenames[0] {
          assert ScannedPast(images, filenames, 0);
        } else {
          var k :| ScannedPast(next, filenames[1..], k) && filenames[1..][k] == f;
          assert ScannedPast(images, filenames, k + 1);
        }
      }
      forall k | ScannedPast(images, filenames, k)
        ensures filenames[k] in after
      {
        if k > 0 {
          assert ScannedPast(next, filenames[1..], k - 1);
        }
      }
    }
  }

  /**
   * The cache of requested images (the module's `images` map). `dir` is the
   * directory images are requested from: "/data/img/" in this client, and
   * "data/img/" in the older single-file client (js/index.js).
   */
  class ImageCache {
    const dir: string
    var images: map<string, CacheEntry>

    constructor (dir: string)
      ensures this.dir == dir && images == map[]
    {
      this.dir := dir;
      images := map[];
    }

    /** `loadImage`: request the image; its entry is LOADING until it arrives. */
    method LoadImage(filename: string)
      modifies this
      ensures images == old(images)[filename := Loading]
    {
      images := images[filename := Loading];
    }

    /** The image's `onload` handler: the arrived image replaces the LOADING entry. */
    method OnLoad(filename: string)
      modifies this
      ensures images == old(images)[filename := Loaded(Image(dir + filename))]
      ensures Ready(images, filename)
    {
      images := images[filename := Loaded(Image(dir + filename))];
    }

    /** `Images.getImage(...filenames)`. */
    method GetImage(filenames: seq<string>) returns (r: Option<Image>)
      modifies this
      ensures (r, images) == GetImageSpec(old(images), filenames)
    {
      var k := 0;
      while k < |filenames|
        invariant 0 <= k <= |filenames|
        invariant GetImageSpec(old(images), filenames) == GetImageSpec(images, filenames[k..])
      {
        assert filenames[k..][1..] == filenames[k + 1..];
        var f := filenames[k];
        if f in images {
          if images[f] != Loading {
            return Some(images[f].image);
          }
        } else {
          LoadImage(f);
        }
        k := k + 1;
      }
      return None;
    }
  }

  /** `Frame`: how long it shows, and its sprite with fallbacks. */
  datatype Frame = Frame(time: real, sprites: seq<string>)

  predicate PositiveTimes(frames: seq<Frame>)
  {
    forall i :: 0 <= i < |frames| ==> frames[i].time > 0.0
  }

  /** The shortest frame time. */
  function MinTime(frames: seq<Frame>): (m: real)
    requires |frames| > 0
    ensures forall i :: 0 <= i < |frames| ==> m <= frames[i].time
    ensures exists i :: 0 <= i < |frames| && m == frames[i].time
  {
    if |frames| == 1 then frames[0].time
    else
      var rest := MinTime(frames[1..]);
      assert forall i :: 1 <= i < |frames| ==> frames[i] == frames[1..][i - 1];
      if frames[0].time <= rest then frames[0].time else rest
  }

  /** The frame after frame `i`: `frameIndex++`, wrapped at the end. */
  function NextIndex(i: int, n: int): (j: int)
    requires 0 <= i < n
    ensures 0 <= j < n && j == (i + 1) % n
    ensures i + 1 < n ==> j == i + 1
  {
    if i + 1 >= n then (i + 1) % n else i + 1
  }

  /** The frame `k` advances after frame `start`. */
  function IndexAfter(start: int, n: int, k: nat): (j: int)
    requires 0 <= start < n
    ensures 0 <= j < n
  {
    if k == 0 then start else NextIndex(IndexAfter(start, n, k - 1), n)
  }

  /** The time the `k` frames after frame `start` show for. */
  function Elapsed(frames: seq<Frame>, start: int, k: nat): real
    requires 0 <= start < |frames|
  {
    if k == 0 then 0.0 else Elapsed(frames, start, k - 1) + frames[IndexAfter(start, |frames|, k)].time
  }

  lemma FloorStep(a: real, b: real, m: real)
    requires m > 0.0 && a <= 0.0 && b >= a + m
    ensures ((-b) / m).Floor < ((-a) / m).Floor
  {
    var q := (-a) / m;
    var p := (-b) / m;
    assert q * m == -a;
    assert p * m == -b;
    assert (q - 1.0 - p) * m == q * m - m - p * m;
    MulSign(q - 1.0 - p, m);
  }

  lemma MulSign(x: real, m: real)
    requires m > 0.0 && x * m >= 0.0
    ensures x >= 0.0
  {
  }

  /** `Animation`: a cyclic sequence of frames and the time left on the current one. */
  class Animation {
    const frames: seq<Frame>
    var frameIndex: int
    var frameDuration: real

    ghost predicate Valid()
      reads this
    {
      0 <= frameIndex < |frames|
    }

    /** The animation starts at its first frame (`reset`). */
    constructor (frames: seq<Frame>)
      requires |frames| > 0
      ensures Valid() && this.frames == frames
      ensures frameIndex == 0 && frameDuration == frames[0].time
    {
      this.frames := frames;
      frameIndex := 0;
      frameDuration := frames[0].time;
    }

    /** `reset`: back to the first frame, with its full time. */
    method Reset()
      requires |frames| > 0
      modifies this
      ensures Valid() && frameIndex == 0 && frameDuration == frames[0].time
    {
      frameIndex := 0;
      frameDuration := frames[0].time;
    }

    /**
     * `animate(dt)`: `dt` is taken off the current frame, then as many
     * frames are advanced, cyclically, as the time overran; the animation
     * ends inside a frame with time left. `steps` counts the advances, and
     * each earlier stop would still have had no time left.
     */
    method Animate(dt: real) returns (ghost steps: nat)
      requires Valid() && PositiveTimes(frames)
      modifies this
      ensures Valid() && frameDuration > 0.0
      ensures frameIndex == IndexAfter(old(frameIndex), |frames|, steps)
      ensures frameDuration == old(frameDuration) - dt + Elapsed(frames, old(frameIndex), steps)
      ensures forall k :: 0 <= k < steps ==> old(frameDuration) - dt + Elapsed(frames, old(frameIndex), k) <= 0.0
    {
      ghost var start := frameIndex;
      ghost var base := frameDuration - dt;
      ghost var m := MinTime(frames);
      frameDuration := frameDuration - dt;
      steps := 0;
      while frameDuration <= 0.0
        invariant Valid()
        invariant frameIndex == IndexAfter(start, |frames|, steps)
        invariant frameDuration == base + Elapsed(frames, start, steps)
        invariant forall k :: 0 <= k < steps ==> base + Elapsed(frames, start, k) <= 0.0
        decreases ((-frameDuration) / m).Floor
      {
        ghost var before := frameDuration;
        frameIndex := frameIndex + 1;
        if frameIndex >= |frames| {
          frameIndex := frameIndex % |frames|;
        }
        frameDuration := frameDuration + frames[frameIndex].time;
        steps := steps + 1;
        FloorStep(before, frameDuration, m);
      }
    }

    /** `getSprite`: the current frame's sprite, through the image cache. */
    method GetSprite(cache: ImageCache) returns (r: Option<Image>)
      requires Valid()
      modifies cache
      ensures (r, cache.images) == GetImageSpec(old(cache.images), frames[frameIndex].sprites)
    {
      r := cache.GetImage(frames[frameIndex].sprites);
    }
  }
}
