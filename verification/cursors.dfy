/**
 * The cursor and scroll arithmetic the client's widgets share: menus and
 * option lists move their cursor with wrap-around (js/index/textbox.mjs,
 * js/index/battle.mjs); text scrolls, and the older client's menu, clamp
 * instead (js/index.js).
 */
module Cursors {

  /** `c--; if (c < 0) c += n;` */
  function WrapUp(c: int, n: int): (r: int)
    ensures n > 0 && 0 <= c < n ==> 0 <= r < n && r == (c - 1) % n
  {
    if c - 1 < 0 then c - 1 + n else c - 1
  }

  /** `c++; if (c >= n) c -= n;` */
  function WrapDown(c: int, n: int): (r: int)
    ensures n > 0 && 0 <= c < n ==> 0 <= r < n && r == (c + 1) % n
  {
    if c + 1 >= n then c + 1 - n else c + 1
  }

  /** Moving down then up, or up then down, comes back to the same entry. */
  lemma WrapInverse(c: int, n: int)
    requires n > 0 && 0 <= c < n
    ensures WrapUp(WrapDown(c, n), n) == c
    ensures WrapDown(WrapUp(c, n), n) == c
  {
  }

  /**
   * `k` moves down from `c`, for `k` up to `n`, pass the end of the list at
   * most once; after `n` moves the cursor is back at `c`.
   */
  lemma {:induction false} WrapDownCycle(c: int, n: int, k: nat)
    requires n > 0 && 0 <= c < n && k <= n
    ensures WrapDownTimes(c, n, k) == if c + k < n then c + k else c + k - n
    ensures k == n ==> WrapDownTimes(c, n, k) == c
  {
    if k > 0 {
      WrapDownCycle(c, n, k - 1);
    }
  }

  function WrapDownTimes(c: int, n: int, k: nat): (r: int)
    requires n > 0 && 0 <= c < n
    ensures 0 <= r < n
  {
    if k == 0 then c else WrapDown(WrapDownTimes(c, n, k - 1), n)
  }

  /** `c--; if (c < 0) c = 0;` */
  function ClampUp(c: int): (r: int)
    ensures c >= 1 ==> r == c - 1
    ensures c <= 1 ==> r == 0
  {
    if c - 1 < 0 then 0 else c - 1
  }

  /** `c++; if (c > hi) c = hi;` */
  function ClampDown(c: int, hi: int): (r: int)
    ensures c < hi ==> r == c + 1
    ensures c >= hi ==> r == hi
  {
    if c + 1 > hi then hi else c + 1
  }

  /** Clamped scrolling stays within `[0, hi]` once there, and never wraps. */
  lemma ClampStaysInRange(c: int, hi: int)
    requires 0 <= c <= hi
    ensures 0 <= ClampUp(c) <= hi && 0 <= ClampDown(c, hi) <= hi
    ensures ClampUp(c) <= c <= ClampDown(c, hi)
  {
  }
}
