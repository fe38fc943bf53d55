/**
 * The tile map editor's tools (js/tilemapeditor.js): the context that
 * holds the current mode, the selection and the tile being drawn; drawing a
 * pixel, filling the selected rectangle, drawing a Bresenham line between
 * two clicked cells; the click handler's mode machine; and the toolbar.
 *
 * The `tile_id` and `tile_color` inputs the drawing tools read are the
 * context's `drawTileId` and `drawColor`; the `spawn_id` input is a
 * parameter of the click.
 */
module EditorContext {
  import opened Wrappers
  import opened AssocLists
  import opened EditorGrid
  import opened EditorWorld

  datatype Mode = Draw | Picker | SelectOne | SelectTwo | Fill | LineOne | LineTwo | AddSpawnpoint | RemoveSpawnpoint

  datatype ViewMode = MapView | SpawnpointsView

  /** `Selection`: two corners, named upper-left and lower-right whatever order they were clicked in. */
  datatype Selection = Selection(upperLeft: TileCoord, lowerRight: TileCoord)

  function Abs(n: int): (r: nat)
    ensures r == n || r == -n
  {
    if n < 0 then -n else n
  }

  function Max(a: int, b: int): (r: int)
    ensures r >= a && r >= b && (r == a || r == b)
  {
    if a >= b then a else b
  }

  /** Both corners of the selection are cells of the grid. */
  predicate CornersIn(g: seq<seq<Tile>>, s: Selection)
  {
    InGrid(g, s.upperLeft.rowNum, s.upperLeft.colNum) && InGrid(g, s.lowerRight.rowNum, s.lowerRight.colNum)
  }

  // ----- the filled rectangle -----

  /** The cells `(row, c1) .. (row, c2)`, left to right. */
  function RowCells(row: int, c1: int, c2: int): (r: seq<(int, int)>)
    ensures |r| == if c2 < c1 then 0 else c2 - c1 + 1
    ensures forall i :: 0 <= i < |r| ==> r[i] == (row, c1 + i)
    decreases c2 - c1
  {
    if c2 < c1 then [] else RowCells(row, c1, c2 - 1) + [(row, c2)]
  }

  /** The cells of the inclusive rectangle, row by row: the order `fillSelection` draws them in. */
  function RectCells(r1: int, c1: int, r2: int, c2: int): (r: seq<(int, int)>)
    decreases r2 - r1
  {
    if r2 < r1 then [] else RectCells(r1, c1, r2 - 1, c2) + RowCells(r2, c1, c2)
  }

  lemma {:induction false} RowCellsMembers(row: int, c1: int, c2: int, i: int, j: int)
    ensures (i, j) in RowCells(row, c1, c2) <==> i == row && c1 <= j <= c2
    decreases c2 - c1
  {
    if c2 >= c1 {
      RowCellsMembers(row, c1, c2 - 1, i, j);
    }
  }

  /** A cell is listed exactly when it lies in the inclusive rectangle. */
  lemma {:induction false} RectCellsMembers(r1: int, c1: int, r2: int, c2: int, i: int, j: int)
    ensures (i, j) in RectCells(r1, c1, r2, c2) <==> r1 <= i <= r2 && c1 <= j <= c2
    decreases r2 - r1
  {
    if r2 >= r1 {
      RectCellsMembers(r1, c1, r2 - 1, c2, i, j);
      RowCellsMembers(r2, c1, c2, i, j);
    }
  }

  /**
   * Filling paints the cells of the inclusive rectangle `upperLeft ..
   * lowerRight` and leaves every other cell as it was; with the corners
   * clicked in the other order the rectangle is empty.
   */
  lemma FillPaintsRectangle(g: seq<seq<Tile>>, r1: int, c1: int, r2: int, c2: int, t: Tile, i: int, j: int)
    requires 0 <= i < |g| && 0 <= j < |g[i]|
    ensures PaintAll(g, RectCells(r1, c1, r2, c2), t)[i][j] == if r1 <= i <= r2 && c1 <= j <= c2 then t else g[i][j]
  {
    PaintAllCells(g, RectCells(r1, c1, r2, c2), t, i, j);
    RectCellsMembers(r1, c1, r2, c2, i, j);
  }

  // ----- the line -----

  /** Neighbouring pixels: at most one apart in row and in column. */
  predicate Near(p: (int, int), q: (int, int))
  {
    Abs(p.0 - q.0) <= 1 && Abs(p.1 - q.1) <= 1
  }

  /** `v` lies between `a` and `b`, in either order. */
  predicate Between(a: int, v: int, b: int)
  {
    (a <= v <= b) || (b <= v <= a)
  }

  /**
   * What `drawLine` promises of the pixels it draws from `(r1, c1)` to
   * `(r2, c2)`: the first is the start, the last is the end and no earlier
   * one is, neighbours touch, there are `max(dx, dy) + 1` of them, and all
   * lie in the rectangle the two ends span.
   */
  predicate IsLine(pixels: seq<(int, int)>, r1: int, c1: int, r2: int, c2: int)
  {
    |pixels| == Max(Abs(c2 - c1), Abs(r2 - r1)) + 1 &&
    pixels[0] == (r1, c1) && pixels[|pixels| - 1] == (r2, c2) &&
    (forall k :: 0 <= k < |pixels| - 1 ==> pixels[k] != (r2, c2)) &&
    (forall k :: 0 <= k < |pixels| - 1 ==> Near(pixels[k], pixels[k + 1])) &&
    (forall k :: 0 <= k < |pixels| ==> Between(r1, pixels[k].0, r2) && Between(c1, pixels[k].1, c2))
  }

  /**
   * The state of the line loop, counted in steps: `X` column steps and `Y`
   * row steps taken, and the error term `D = Y*dx - X*dy`, which stays
   * within half the longer side. Along the longer side every iteration
   * steps; along the shorter one it steps when the error says so.
   */
  predicate Tracking(dx: int, dy: int, X: int, Y: int, D: int)
  {
    0 <= X <= dx && 0 <= Y <= dy && D == Times(Y, dx) - Times(X, dy) &&
    -Max(dx, dy) <= 2 * D <= Max(dx, dy) && (dx == dy ==> D == 0)
  }

  /** `n * b` as `n` additions of `b`, so that one more step is one more addition. */
  function Times(n: nat, b: int): int
  {
    if n == 0 then 0 else Times(n - 1, b) + b
  }

  lemma {:induction false} TimesIsProduct(n: nat, b: int)
    ensures Times(n, b) == n * b
  {
    if n > 0 {
      TimesIsProduct(n - 1, b);
    }
  }

  lemma ScaleDown(a: int, b: int)
    requires a >= 0 && b <= -1
    ensures a * b <= -a
  {
    assert a * b == a * (b + 1) - a;
    assert a * (b + 1) <= 0;
  }

  /** All column steps taken but not all row steps: the error is at most `-dx`. */
  lemma ColumnsDone(dx: int, dy: int, Y: int, D: int)
    requires 0 <= dx && 0 <= Y < dy && D == Times(Y, dx) - Times(dx, dy)
    ensures D <= -dx
  {
    TimesIsProduct(Y, dx);
    TimesIsProduct(dx, dy);
    assert D == dx * (Y - dy);
    ScaleDown(dx, Y - dy);
  }

  /** All row steps taken but not all column steps: the error is at least `dy`. */
  lemma RowsDone(dx: int, dy: int, X: int, D: int)
    requires 0 <= dy && 0 <= X < dx && D == Times(dy, dx) - Times(X, dy)
    ensures D >= dy
  {
    TimesIsProduct(dy, dx);
    TimesIsProduct(X, dy);
    assert D == -(dy * (X - dx));
    ScaleDown(dy, X - dx);
  }

  /**
   * One iteration of the line loop before the end is reached: with
   * `e2 = 2*err` the column steps when `e2 > -dy` and the row when
   * `e2 < dx`; afterwards the counts are still within `dx` and `dy`, the
   * error is still bounded, and the longer side has taken exactly one step.
   */
  lemma BresenhamStep(dx: int, dy: int, X: int, Y: int, D: int)
    requires dx >= 0 && dy >= 0 && Tracking(dx, dy, X, Y, D) && (X < dx || Y < dy)
    ensures var e2 := 2 * (dx - dy + D);
      var X' := if e2 > -dy then X + 1 else X;
      var Y' := if e2 < dx then Y + 1 else Y;
      var D' := D - (if e2 > -dy then dy else 0) + (if e2 < dx then dx else 0);
      Tracking(dx, dy, X', Y', D') && (dx >= dy ==> X' == X + 1) && (dy > dx ==> Y' == Y + 1)
  {
    var e2 := 2 * (dx - dy + D);
    if X == dx {
      ColumnsDone(dx, dy, Y, D);
    }
    if Y == dy && X < dx {
      RowsDone(dx, dy, X, D);
    }
  }

  /**
   * One axis of the line loop: starting at `c0` and heading for `target`,
   * `d` steps apart in direction `s`, the coordinate `v` has taken `n` of
   * those steps.
   */
  predicate Along(c0: int, s: int, n: int, v: int, d: int, target: int)
  {
    (s == 1 || s == -1) && 0 <= n <= d &&
    d == (if s == 1 then target - c0 else c0 - target) &&
    v == (if s == 1 then c0 + n else c0 - n)
  }

  lemma AlongFacts(c0: int, s: int, n: int, v: int, d: int, target: int)
    requires Along(c0, s, n, v, d, target)
    ensures Between(c0, v, target) && (v == target <==> n == d)
  {
  }

  lemma AlongStep(c0: int, s: int, n: int, v: int, d: int, target: int)
    requires Along(c0, s, n, v, d, target) && n < d
    ensures Along(c0, s, n + 1, v + s, d, target)
  {
  }

  /**
   * The pixels drawn so far, oldest first, lead from the start to `cur` one
   * neighbouring cell at a time, never reach the end and stay in the box.
   */
  predicate Drawn(pixels: seq<(int, int)>, r1: int, c1: int, r2: int, c2: int, cur: (int, int))
    decreases |pixels|
  {
    if |pixels| == 0 then cur == (r1, c1)
    else
      var last := pixels[|pixels| - 1];
      Drawn(pixels[..|pixels| - 1], r1, c1, r2, c2, last) && Near(last, cur) && last != (r2, c2) &&
      Between(r1, last.0, r2) && Between(c1, last.1, c2)
  }

  lemma DrawnStep(pixels: seq<(int, int)>, r1: int, c1: int, r2: int, c2: int, cur: (int, int), next: (int, int))
    requires Drawn(pixels, r1, c1, r2, c2, cur) && cur != (r2, c2) && Near(cur, next)
    requires Between(r1, cur.0, r2) && Between(c1, cur.1, c2)
    ensures Drawn(pixels + [cur], r1, c1, r2, c2, next)
  {
    assert (pixels + [cur])[..|pixels|] == pixels;
  }

  /** What a drawn prefix says pixel by pixel. */
  lemma {:induction false} DrawnFacts(pixels: seq<(int, int)>, r1: int, c1: int, r2: int, c2: int, cur: (int, int))
    requires Drawn(pixels, r1, c1, r2, c2, cur)
    ensures |pixels| == 0 ==> cur == (r1, c1)
    ensures |pixels| > 0 ==> pixels[0] == (r1, c1) && Near(pixels[|pixels| - 1], cur)
    ensures forall k :: 0 <= k < |pixels| ==> pixels[k] != (r2, c2)
    ensures forall k :: 0 <= k < |pixels| - 1 ==> Near(pixels[k], pixels[k + 1])
    ensures forall k :: 0 <= k < |pixels| ==> Between(r1, pixels[k].0, r2) && Between(c1, pixels[k].1, c2)
  {
    if |pixels| > 0 {
      var init := pixels[..|pixels| - 1];
      DrawnFacts(init, r1, c1, r2, c2, pixels[|pixels| - 1]);
      if |init| > 0 {
        assert pixels[0] == init[0];
      }
      forall k | 0 <= k < |pixels| - 1
        ensures Near(pixels[k], pixels[k + 1])
      {
        if k + 1 < |init| {
          assert pixels[k] == init[k] && pixels[k + 1] == init[k + 1];
        }
      }
      forall k | 0 <= k < |pixels|
        ensures pixels[k] != (r2, c2) && Between(r1, pixels[k].0, r2) && Between(c1, pixels[k].1, c2)
      {
        if k < |init| {
          assert pixels[k] == init[k];
        }
      }
    }
  }

  /** Where the line loop stands: the step counts, the error term and the current pixel agree. */
  predicate LineState(r1: int, c1: int, r2: int, c2: int, dx: int, dy: int, sx: int, sy: int,
                      X: int, Y: int, D: int, y: int, x: int)
  {
    dx >= 0 && dy >= 0 && Tracking(dx, dy, X, Y, D) &&
    Along(c1, sx, X, x, dx, c2) && Along(r1, sy, Y, y, dy, r2)
  }

  predicate LineLoop(r1: int, c1: int, r2: int, c2: int, dx: int, dy: int, sx: int, sy: int,
                     X: int, Y: int, D: int, y: int, x: int, pixels: seq<(int, int)>)
  {
    LineState(r1, c1, r2, c2, dx, dy, sx, sy, X, Y, D, y, x) &&
    |pixels| == (if dx >= dy then X else Y) && Drawn(pixels, r1, c1, r2, c2, (y, x))
  }

  /** Before the first iteration: no step taken, nothing drawn, the start is the current pixel. */
  lemma LineStart(r1: int, c1: int, r2: int, c2: int, dx: int, dy: int, sx: int, sy: int)
    requires dx == Abs(c2 - c1) && dy == Abs(r2 - r1)
    requires sx == (if c1 < c2 then 1 else -1) && sy == (if r1 < r2 then 1 else -1)
    ensures LineLoop(r1, c1, r2, c2, dx, dy, sx, sy, 0, 0, 0, r1, c1, [])
  {
  }

  /** The current pixel lies between the ends, and is the end exactly when both axes are done. */
  lemma LineHere(r1: int, c1: int, r2: int, c2: int, dx: int, dy: int, sx: int, sy: int,
                 X: int, Y: int, D: int, y: int, x: int, pixels: seq<(int, int)>)
    requires LineLoop(r1, c1, r2, c2, dx, dy, sx, sy, X, Y, D, y, x, pixels)
    ensures Between(r1, y, r2) && Between(c1, x, c2)
    ensures (y, x) == (r2, c2) <==> X == dx && Y == dy
  {
    AlongFacts(c1, sx, X, x, dx, c2);
    AlongFacts(r1, sy, Y, y, dy, r2);
  }

  /**
   * One iteration of `drawLine` that has not reached the end, from the
   * state `(X, Y, D, y, x)` to `(X', Y', D', y', x')`, keeps the loop's
   * invariant and takes at least one step.
   */
  lemma LineStep(r1: int, c1: int, r2: int, c2: int, dx: int, dy: int, sx: int, sy: int,
                 X: int, Y: int, D: int, y: int, x: int, pixels: seq<(int, int)>,
                 X': int, Y': int, D': int, y': int, x': int)
    requires LineLoop(r1, c1, r2, c2, dx, dy, sx, sy, X, Y, D, y, x, pixels)
    requires (y, x) != (r2, c2)
    requires var e2 := 2 * (dx - dy + D);
      X' == (if e2 > -dy then X + 1 else X) && x' == (if e2 > -dy then x + sx else x) &&
      Y' == (if e2 < dx then Y + 1 else Y) && y' == (if e2 < dx then y + sy else y) &&
      D' == D - (if e2 > -dy then dy else 0) + (if e2 < dx then dx else 0)
    ensures LineLoop(r1, c1, r2, c2, dx, dy, sx, sy, X', Y', D', y', x', pixels + [(y, x)])
    ensures (dx - X') + (dy - Y') < (dx - X) + (dy - Y)
  {
    AlongFacts(c1, sx, X, x, dx, c2);
    AlongFacts(r1, sy, Y, y, dy, r2);
    StateStep(r1, c1, r2, c2, dx, dy, sx, sy, X, Y, D, y, x, X', Y', D', y', x');
    DrawnStep(pixels, r1, c1, r2, c2, (y, x), (y', x'));
  }

  /** The step of `LineStep` on the loop's state alone, without the pixels drawn. */
  lemma StateStep(r1: int, c1: int, r2: int, c2: int, dx: int, dy: int, sx: int, sy: int,
                  X: int, Y: int, D: int, y: int, x: int,
                  X': int, Y': int, D': int, y': int, x': int)
    requires LineState(r1, c1, r2, c2, dx, dy, sx, sy, X, Y, D, y, x)
    requires (y, x) != (r2, c2)
    requires var e2 := 2 * (dx - dy + D);
      X' == (if e2 > -dy then X + 1 else X) && x' == (if e2 > -dy then x + sx else x) &&
      Y' == (if e2 < dx then Y + 1 else Y) && y' == (if e2 < dx then y + sy else y) &&
      D' == D - (if e2 > -dy then dy else 0) + (if e2 < dx then dx else 0)
    ensures LineState(r1, c1, r2, c2, dx, dy, sx, sy, X', Y', D', y', x')
    ensures (dx - X') + (dy - Y') < (dx - X) + (dy - Y)
  {
    var e2 := 2 * (dx - dy + D);
    AlongFacts(c1, sx, X, x, dx, c2);
    AlongFacts(r1, sy, Y, y, dy, r2);
    BresenhamStep(dx, dy, X, Y, D);
    if e2 > -dy {
      AlongStep(c1, sx, X, x, dx, c2);
    }
    if e2 < dx {
      AlongStep(r1, sy, Y, y, dy, r2);
    }
  }

  /**
   * The pixels `drawLine` still draws from a state of its loop: the current
   * one, then, unless it is the end, those from the state one step on.
   */
  ghost function Rest(r1: int, c1: int, r2: int, c2: int, dx: int, dy: int, sx: int, sy: int,
                      X: int, Y: int, D: int, y: int, x: int): (rest: seq<(int, int)>)
    requires LineState(r1, c1, r2, c2, dx, dy, sx, sy, X, Y, D, y, x)
    ensures |rest| > 0 && rest[0] == (y, x)
    decreases (dx - X) + (dy - Y)
  {
    if (y, x) == (r2, c2) then [(y, x)]
    else
      var e2 := 2 * (dx - dy + D);
      var X' := if e2 > -dy then X + 1 else X;
      var x' := if e2 > -dy then x + sx else x;
      var Y' := if e2 < dx then Y + 1 else Y;
      var y' := if e2 < dx then y + sy else y;
      var D' := D - (if e2 > -dy then dy else 0) + (if e2 < dx then dx else 0);
      StateStep(r1, c1, r2, c2, dx, dy, sx, sy, X, Y, D, y, x, X', Y', D', y', x');
      [(y, x)] + Rest(r1, c1, r2, c2, dx, dy, sx, sy, X', Y', D', y', x')
  }

  /** Away from the end, the pixels left are the current one and those one step on. */
  lemma RestUnfold(r1: int, c1: int, r2: int, c2: int, dx: int, dy: int, sx: int, sy: int,
                   X: int, Y: int, D: int, y: int, x: int,
                   X': int, Y': int, D': int, y': int, x': int)
    requires LineState(r1, c1, r2, c2, dx, dy, sx, sy, X, Y, D, y, x)
    requires (y, x) != (r2, c2)
    requires var e2 := 2 * (dx - dy + D);
      X' == (if e2 > -dy then X + 1 else X) && x' == (if e2 > -dy then x + sx else x) &&
      Y' == (if e2 < dx then Y + 1 else Y) && y' == (if e2 < dx then y + sy else y) &&
      D' == D - (if e2 > -dy then dy else 0) + (if e2 < dx then dx else 0)
    ensures LineState(r1, c1, r2, c2, dx, dy, sx, sy, X', Y', D', y', x')
    ensures Rest(r1, c1, r2, c2, dx, dy, sx, sy, X, Y, D, y, x) ==
      [(y, x)] + Rest(r1, c1, r2, c2, dx, dy, sx, sy, X', Y', D', y', x')
  {
    StateStep(r1, c1, r2, c2, dx, dy, sx, sy, X, Y, D, y, x, X', Y', D', y', x');
  }

  /** The line loop's state, with `pixels` drawn and `line` the whole line: the pixels left complete it. */
  ghost predicate Drawing(r1: int, c1: int, r2: int, c2: int, dx: int, dy: int, sx: int, sy: int,
                          X: int, Y: int, D: int, y: int, x: int, line: seq<(int, int)>, pixels: seq<(int, int)>)
  {
    LineState(r1, c1, r2, c2, dx, dy, sx, sy, X, Y, D, y, x) &&
    line == pixels + Rest(r1, c1, r2, c2, dx, dy, sx, sy, X, Y, D, y, x)
  }

  /** While drawing, the current pixel is the next one of the line, and at the end the last. */
  lemma DrawingHere(r1: int, c1: int, r2: int, c2: int, dx: int, dy: int, sx: int, sy: int,
                    X: int, Y: int, D: int, y: int, x: int, line: seq<(int, int)>, pixels: seq<(int, int)>)
    requires Drawing(r1, c1, r2, c2, dx, dy, sx, sy, X, Y, D, y, x, line, pixels)
    ensures |pixels| < |line| && line[..|pixels|] == pixels && line[|pixels|] == (y, x)
    ensures (y, x) == (r2, c2) ==> |line| == |pixels| + 1
  {
    assert line[..|pixels|] == pixels;
  }

  /** At the start nothing is drawn and the whole line is still to come. */
  lemma DrawingStart(r1: int, c1: int, r2: int, c2: int)
    ensures var dx, dy := Abs(c2 - c1), Abs(r2 - r1);
      var sx, sy := if c1 < c2 then 1 else -1, if r1 < r2 then 1 else -1;
      Drawing(r1, c1, r2, c2, dx, dy, sx, sy, 0, 0, 0, r1, c1, Line(r1, c1, r2, c2), [])
  {
    var dx, dy := Abs(c2 - c1), Abs(r2 - r1);
    var sx, sy := if c1 < c2 then 1 else -1, if r1 < r2 then 1 else -1;
    LineStart(r1, c1, r2, c2, dx, dy, sx, sy);
    assert [] + Rest(r1, c1, r2, c2, dx, dy, sx, sy, 0, 0, 0, r1, c1) == Line(r1, c1, r2, c2);
  }

  /** Every pixel `drawLine(coord1, coord2)` draws, in order, when none of them throws. */
  ghost function Line(r1: int, c1: int, r2: int, c2: int): seq<(int, int)>
  {
    var dx, dy := Abs(c2 - c1), Abs(r2 - r1);
    var sx, sy := if c1 < c2 then 1 else -1, if r1 < r2 then 1 else -1;
    LineStart(r1, c1, r2, c2, dx, dy, sx, sy);
    Rest(r1, c1, r2, c2, dx, dy, sx, sy, 0, 0, 0, r1, c1)
  }

  /** What is left of the loop completes the pixels drawn so far to a line. */
  lemma {:induction false} RestIsLine(r1: int, c1: int, r2: int, c2: int, dx: int, dy: int, sx: int, sy: int,
                                      X: int, Y: int, D: int, y: int, x: int, pixels: seq<(int, int)>)
    requires LineLoop(r1, c1, r2, c2, dx, dy, sx, sy, X, Y, D, y, x, pixels)
    requires dx == Abs(c2 - c1) && dy == Abs(r2 - r1)
    ensures IsLine(pixels + Rest(r1, c1, r2, c2, dx, dy, sx, sy, X, Y, D, y, x), r1, c1, r2, c2)
    decreases (dx - X) + (dy - Y)
  {
    if (y, x) == (r2, c2) {
      LineEnd(r1, c1, r2, c2, dx, dy, sx, sy, X, Y, D, pixels);
    } else {
      var e2 := 2 * (dx - dy + D);
      var X' := if e2 > -dy then X + 1 else X;
      var x' := if e2 > -dy then x + sx else x;
      var Y' := if e2 < dx then Y + 1 else Y;
      var y' := if e2 < dx then y + sy else y;
      var D' := D - (if e2 > -dy then dy else 0) + (if e2 < dx then dx else 0);
      assert LineLoop(r1, c1, r2, c2, dx, dy, sx, sy, X', Y', D', y', x', pixels + [(y, x)]) &&
             (dx - X') + (dy - Y') < (dx - X) + (dy - Y) by {
        LineStep(r1, c1, r2, c2, dx, dy, sx, sy, X, Y, D, y, x, pixels, X', Y', D', y', x');
      }
      var next := Rest(r1, c1, r2, c2, dx, dy, sx, sy, X', Y', D', y', x');
      assert pixels + Rest(r1, c1, r2, c2, dx, dy, sx, sy, X, Y, D, y, x) == (pixels + [(y, x)]) + next by {
        RestUnfold(r1, c1, r2, c2, dx, dy, sx, sy, X, Y, D, y, x, X', Y', D', y', x');
        ConcatAssoc(pixels, [(y, x)], next);
      }
      RestIsLine(r1, c1, r2, c2, dx, dy, sx, sy, X', Y', D', y', x', pixels + [(y, x)]);
    }
  }

  /**
   * `drawLine`'s pixels form a line from the first cell to the second: it
   * starts at the first, ends at the second and reaches it only there,
   * each pixel one step (with diagonals) from the one before, one pixel
   * more than the larger of the two distances, all inside the box the two
   * cells span.
   */
  lemma LineIsLine(r1: int, c1: int, r2: int, c2: int)
    ensures IsLine(Line(r1, c1, r2, c2), r1, c1, r2, c2)
  {
    var dx, dy := Abs(c2 - c1), Abs(r2 - r1);
    var sx, sy := if c1 < c2 then 1 else -1, if r1 < r2 then 1 else -1;
    LineStart(r1, c1, r2, c2, dx, dy, sx, sy);
    RestIsLine(r1, c1, r2, c2, dx, dy, sx, sy, 0, 0, 0, r1, c1, []);
    assert [] + Rest(r1, c1, r2, c2, dx, dy, sx, sy, 0, 0, 0, r1, c1) == Line(r1, c1, r2, c2);
  }

  /** A line between two cells of a rectangular grid stays on the grid, so drawing it never throws. */
  lemma LineInGrid(g: seq<seq<Tile>>, r1: int, c1: int, r2: int, c2: int)
    requires Rectangular(g) && InGrid(g, r1, c1) && InGrid(g, r2, c2)
    ensures FirstOff(g, Line(r1, c1, r2, c2)) == |Line(r1, c1, r2, c2)|
  {
    var line := Line(r1, c1, r2, c2);
    LineIsLine(r1, c1, r2, c2);
    forall i | 0 <= i < |line|
      ensures InGrid(g, line[i].0, line[i].1)
    {
      assert Between(r1, line[i].0, r2) && Between(c1, line[i].1, c2);
    }
    FirstOffIs(g, line, |line|);
  }

  /**
   * One step of `drawLine`'s loop past a pixel that is not the end: twice the
   * error decides whether x, y or both move one cell towards the end.
   */
  method Advance(ghost r1: int, ghost c1: int, r2: int, c2: int, dx: int, dy: int, sx: int, sy: int,
                 ghost X: int, ghost Y: int, ghost D: int, y: int, x: int, err: int,
                 ghost line: seq<(int, int)>, ghost pixels: seq<(int, int)>)
    returns (y': int, x': int, err': int, ghost X': int, ghost Y': int, ghost D': int)
    requires Drawing(r1, c1, r2, c2, dx, dy, sx, sy, X, Y, D, y, x, line, pixels) && err == dx - dy + D
    requires (y, x) != (r2, c2)
    ensures Drawing(r1, c1, r2, c2, dx, dy, sx, sy, X', Y', D', y', x', line, pixels + [(y, x)]) && err' == dx - dy + D'
    ensures (dx - X') + (dy - Y') < (dx - X) + (dy - Y)
  {
    var e2 := 2 * err;
    var stepX, stepY := e2 > -dy, e2 < dx;
    x', X' := if stepX then x + sx else x, if stepX then X + 1 else X;
    y', Y' := if stepY then y + sy else y, if stepY then Y + 1 else Y;
    err' := err - (if stepX then dy else 0) + (if stepY then dx else 0);
    D' := D - (if stepX then dy else 0) + (if stepY then dx else 0);
    RestUnfold(r1, c1, r2, c2, dx, dy, sx, sy, X, Y, D, y, x, X', Y', D', y', x');
    ConcatAssoc(pixels, [(y, x)], Rest(r1, c1, r2, c2, dx, dy, sx, sy, X', Y', D', y', x'));
  }

  /** Drawing the end pixel completes a line. */
  lemma LineEnd(r1: int, c1: int, r2: int, c2: int, dx: int, dy: int, sx: int, sy: int,
                X: int, Y: int, D: int, pixels: seq<(int, int)>)
    requires LineLoop(r1, c1, r2, c2, dx, dy, sx, sy, X, Y, D, r2, c2, pixels)
    requires dx == Abs(c2 - c1) && dy == Abs(r2 - r1)
    ensures IsLine(pixels + [(r2, c2)], r1, c1, r2, c2)
  {
    AlongFacts(c1, sx, X, c2, dx, c2);
    AlongFacts(r1, sy, Y, r2, dy, r2);
    DrawnFacts(pixels, r1, c1, r2, c2, (r2, c2));
  }

  /** After the click in `mode`: the picker hands over to drawing, and the two-click tools alternate. */
  function NextMode(mode: Mode): (next: Mode)
  {
    match mode
    case Picker => Draw
    case SelectOne => SelectTwo
    case SelectTwo => SelectOne
    case LineOne => LineTwo
    case LineTwo => LineOne
    case _ => mode
  }

  /**
   * Two clicks bring the selection and line tools back to their first
   * click; the picker is used once; every other tool stays put; and no
   * click leads into the fill mode.
   */
  lemma NextModeCycles(mode: Mode)
    ensures mode in {SelectOne, SelectTwo, LineOne, LineTwo} ==> NextMode(NextMode(mode)) == mode && NextMode(mode) != mode
    ensures mode == Picker ==> NextMode(mode) == Draw && NextMode(NextMode(mode)) == Draw
    ensures mode in {Draw, Fill, AddSpawnpoint, RemoveSpawnpoint} ==> NextMode(mode) == mode
    ensures NextMode(mode) == Fill ==> mode == Fill
  {
  }

  /**
   * As written, `setSelection` and `clearSelection` test the upper-left
   * corner's column before touching the cell right of the lower-right
   * corner; when that corner is in the last column and the other is not,
   * the cell does not exist and the highlighting throws.
   */
  predicate HighlightThrows(width: int, s: Selection)
  {
    s.upperLeft.rowNum <= s.lowerRight.rowNum &&
    s.upperLeft.colNum < width - 1 && s.lowerRight.colNum + 1 >= width
  }

  /** A selection across the two columns of a map two cells wide throws. */
  lemma TwoColumnSelectionThrows(a: TileCoord, b: TileCoord)
    requires a.rowNum == 0 && a.colNum == 0 && b.rowNum == 0 && b.colNum == 1
    ensures CornersIn([[DefaultTile(), DefaultTile()]], Selection(a, b))
    ensures HighlightThrows(2, Selection(a, b))
  {
  }

  /** The toolbar's buttons. */
  datatype Button =
    | TileButton(tileId: string)
    | PickTile | SelectRegion | ClearSelectionButton | FillSelectionButton | DrawLineButton
    | AddSpawnpointButton | RemoveSpawnpointButton | ViewSpawnpoints | ViewMap

  /** `Context`: the editor's tool state. */
  class Context {
    var mode: Mode
    var viewMode: ViewMode
    var selection: Option<Selection>
    /** The `tile_id` and `tile_color` inputs. */
    var drawTileId: string
    var drawColor: string

    /** `new Context()`: drawing, on the map view, nothing selected. */
    constructor (drawTileId: string, drawColor: string)
      ensures mode == Draw && viewMode == MapView && selection == None
      ensures this.drawTileId == drawTileId && this.drawColor == drawColor
    {
      mode := Draw;
      viewMode := MapView;
      selection := None;
      this.drawTileId := drawTileId;
      this.drawColor := drawColor;
    }

    ghost predicate SelectionIn(g: seq<seq<Tile>>)
      reads this
    {
      selection.Some? ==> CornersIn(g, selection.value)
    }

    /** The tile the drawing tools put down: the inputs' ID and colour, no data. */
    function DrawTile(): (t: Tile)
      reads this
      ensures t.tileId == drawTileId && t.color == drawColor && t.tileData == None
    {
      Tile(drawTileId, drawColor, None)
    }

    /** `setSelection` as intended: the selection is replaced. */
    method SetSelection(s: Selection)
      modifies this`selection
      ensures selection == Some(s)
    {
      selection := Some(s);
    }

    /** `clearSelection` as intended. */
    method ClearSelection()
      modifies this`selection
      ensures selection == None
    {
      selection := None;
    }

    /**
     * `setSelection` as written on a rectangular map: clearing a stored
     * selection whose highlighting throws fails before anything changes,
     * so such a selection can never be replaced; otherwise the new one is
     * stored and then its own highlighting may throw.
     */
    method SetSelectionAsWritten(g: seq<seq<Tile>>, s: Selection) returns (r: Result<()>)
      requires Rectangular(g) && CornersIn(g, s) && SelectionIn(g)
      modifies this`selection
      ensures old(selection).Some? && HighlightThrows(Width(g), old(selection).value) ==>
        r == Err(TypeError) && selection == old(selection)
      ensures !(old(selection).Some? && HighlightThrows(Width(g), old(selection).value)) ==>
        selection == Some(s) && (r.Err? <==> HighlightThrows(Width(g), s)) && (r.Err? ==> r.error == TypeError)
    {
      r := ClearSelectionAsWritten(g);
      if r.Err? {
        return;
      }
      selection := Some(s);
      if HighlightThrows(Width(g), s) {
        return Err(TypeError);
      }
      return Ok(());
    }

    /** `clearSelection` as written: a selection whose highlighting throws stays. */
    method ClearSelectionAsWritten(g: seq<seq<Tile>>) returns (r: Result<()>)
      requires Rectangular(g) && SelectionIn(g)
      modifies this`selection
      ensures r.Err? <==> old(selection).Some? && HighlightThrows(Width(g), old(selection).value)
      ensures r.Err? ==> r.error == TypeError && selection == old(selection)
      ensures r.Ok? ==> selection == None
    {
      if selection.Some? && HighlightThrows(Width(g), selection.value) {
        return Err(TypeError);
      }
      selection := None;
      return Ok(());
    }

    /** `setDrawTile`: the inputs take the tile's ID and colour; its data is not carried over. */
    method SetDrawTile(tile: Tile)
      modifies this`drawTileId, this`drawColor
      ensures DrawTile() == Tile(tile.tileId, tile.color, None)
    {
      drawTileId := tile.tileId;
      drawColor := tile.color;
    }

    /**
     * `drawPixel`: the cell takes the tile the inputs name; off the grid
     * `setTile` throws and nothing changes.
     */
    method DrawPixel(world: World, rowNum: int, colNum: int) returns (r: Result<()>)
      modifies world`tiles
      ensures world.tiles == SetCell(old(world.tiles), rowNum, colNum, DrawTile())
      ensures r.Err? <==> !InGrid(old(world.tiles), rowNum, colNum)
      ensures r.Err? ==> r.error == TypeError
    {
      r := world.SetTile(rowNum, colNum, DrawTile());
    }

    /**
     * The inner loop of `fillSelection`: the cells of one row, left to
     * right, until one is off the grid, where the loop throws.
     */
    method PaintRow(world: World, rowNum: int, c1: int, c2: int) returns (r: Result<()>)
      modifies world`tiles
      ensures var cells := RowCells(rowNum, c1, c2);
        var k := FirstOff(old(world.tiles), cells);
        world.tiles == PaintAll(old(world.tiles), cells[..k], DrawTile()) &&
        (r.Err? <==> k < |cells|) && (r.Err? ==> r.error == TypeError)
    {
      ghost var g0 := world.tiles;
      var colNum := c1;
      while colNum <= c2
        invariant RowLoop(g0, world.tiles, DrawTile(), rowNum, c1, c2, colNum)
        decreases c2 - colNum
      {
        r := PaintCell(world, g0, rowNum, c1, c2, colNum);
        if r.Err? {
          RowPainted(g0, world.tiles, DrawTile(), rowNum, c1, c2, colNum);
          return;
        }
        colNum := colNum + 1;
      }
      RowPainted(g0, world.tiles, DrawTile(), rowNum, c1, c2, colNum);
      r := Ok(());
    }

    /** One cell of the row loop: painted when it is on the grid, a `TypeError` and no change otherwise. */
    method PaintCell(world: World, ghost g0: seq<seq<Tile>>, rowNum: int, ghost c1: int, ghost c2: int, colNum: int)
      returns (r: Result<()>)
      requires colNum <= c2 && RowLoop(g0, world.tiles, DrawTile(), rowNum, c1, c2, colNum)
      modifies world`tiles
      ensures r.Err? <==> !InGrid(g0, rowNum, colNum)
      ensures r.Err? ==> r.error == TypeError && world.tiles == old(world.tiles)
      ensures r.Ok? ==> RowLoop(g0, world.tiles, DrawTile(), rowNum, c1, c2, colNum + 1)
    {
      RowPaintStep(g0, DrawTile(), rowNum, c1, colNum);
      r := DrawPixel(world, rowNum, colNum);
    }

    /**
     * `fillSelection`: the cells of the selected rectangle, row by row,
     * take the drawn tile until one is off the grid, where it throws;
     * without a selection nothing happens.
     */
    method FillSelection(world: World) returns (r: Result<()>)
      modifies world`tiles
      ensures selection.None? ==> r == Ok(()) && world.tiles == old(world.tiles)
      ensures selection.Some? ==> var cells := SelectionCells(selection.value);
        var k := FirstOff(old(world.tiles), cells);
        world.tiles == PaintAll(old(world.tiles), cells[..k], DrawTile()) &&
        (r.Err? <==> k < |cells|) && (r.Err? ==> r.error == TypeError)
    {
      if selection.None? {
        return Ok(());
      }
      var r1, c1 := selection.value.upperLeft.rowNum, selection.value.upperLeft.colNum;
      var r2, c2 := selection.value.lowerRight.rowNum, selection.value.lowerRight.colNum;
      ghost var g0 := world.tiles;
      ghost var t := DrawTile();
      var rowNum := r1;
      while rowNum <= r2
        invariant r1 <= rowNum && (rowNum <= r2 + 1 || rowNum == r1)
        invariant FirstOff(g0, RectCells(r1, c1, rowNum - 1, c2)) == |RectCells(r1, c1, rowNum - 1, c2)|
        invariant world.tiles == PaintAll(g0, RectCells(r1, c1, rowNum - 1, c2), t)
        decreases r2 - rowNum
      {
        r := FillRow(world, g0, r1, c1, rowNum, r2, c2);
        if r.Err? {
          return;
        }
        rowNum := rowNum + 1;
      }
      assert RectCells(r1, c1, rowNum - 1, c2) == RectCells(r1, c1, r2, c2);
      WholeSlice(RectCells(r1, c1, r2, c2));
      r := Ok(());
    }

    /**
     * One iteration of `fillSelection`'s outer loop, with the rows above
     * `rowNum` all on the grid and painted: either this row is too, or the
     * fill throws where the whole rectangle first leaves the grid.
     */
    method FillRow(world: World, ghost g0: seq<seq<Tile>>, ghost r1: int, c1: int, rowNum: int, ghost r2: int, c2: int)
      returns (r: Result<()>)
      requires r1 <= rowNum <= r2
      requires FirstOff(g0, RectCells(r1, c1, rowNum - 1, c2)) == |RectCells(r1, c1, rowNum - 1, c2)|
      requires world.tiles == PaintAll(g0, RectCells(r1, c1, rowNum - 1, c2), DrawTile())
      modifies world`tiles
      ensures r.Err? ==> var whole := RectCells(r1, c1, r2, c2);
        FirstOff(g0, whole) < |whole| && r.error == TypeError &&
        world.tiles == PaintAll(g0, whole[..FirstOff(g0, whole)], DrawTile())
      ensures r.Ok? ==> FirstOff(g0, RectCells(r1, c1, rowNum, c2)) == |RectCells(r1, c1, rowNum, c2)|
      ensures r.Ok? ==> world.tiles == PaintAll(g0, RectCells(r1, c1, rowNum, c2), DrawTile())
    {
      r := PaintRow(world, rowNum, c1, c2);
      FillRowStep(g0, DrawTile(), r1, c1, rowNum, r2, c2);
    }

    /**
     * `drawPixel` inside the line loop, with the pixels drawn so far all on
     * the grid and the rest of `line` still to come: either the pixel is drawn and
     * recorded, or it is off the grid and the line stops there.
     */
    method Plot(world: World, ghost g0: seq<seq<Tile>>, ghost line: seq<(int, int)>, ghost pixels: seq<(int, int)>,
                y: int, x: int)
      returns (r: Result<()>, ghost drawn: seq<(int, int)>)
      requires FirstOff(g0, pixels) == |pixels| && world.tiles == PaintAll(g0, pixels, DrawTile())
      requires |pixels| < |line| && line[..|pixels|] == pixels && line[|pixels|] == (y, x)
      modifies world`tiles
      ensures r.Err? ==> r.error == TypeError && FirstOff(g0, line) == |pixels| < |line| &&
                         world.tiles == PaintAll(g0, line[..|pixels|], DrawTile())
      ensures r.Ok? ==> drawn == pixels + [(y, x)] && FirstOff(g0, drawn) == |drawn| &&
                        world.tiles == PaintAll(g0, drawn, DrawTile())
    {
      assert line == pixels + line[|pixels|..];
      FirstOffStep(g0, DrawTile(), pixels, line[|pixels|..]);
      r := DrawPixel(world, y, x);
      drawn := pixels + [(y, x)];
    }

    /**
     * `drawLine(coord1, coord2)`: Bresenham's line from `coord1` to
     * `coord2`, each pixel drawn in turn with the drawn tile, until one is
     * off the grid, where it throws.
     */
    method DrawLine(world: World, coord1: TileCoord, coord2: TileCoord) returns (r: Result<()>)
      modifies world`tiles
      ensures var line := Line(coord1.rowNum, coord1.colNum, coord2.rowNum, coord2.colNum);
        var k := FirstOff(old(world.tiles), line);
        world.tiles == PaintAll(old(world.tiles), line[..k], DrawTile()) &&
        (r.Err? <==> k < |line|) && (r.Err? ==> r.error == TypeError)
    {
      var x1, y1 := coord1.colNum, coord1.rowNum;
      var x2, y2 := coord2.colNum, coord2.rowNum;
      var dx: int, dy: int := Abs(x2 - x1), Abs(y2 - y1);
      var sx := if x1 < x2 then 1 else -1;
      var sy := if y1 < y2 then 1 else -1;
      var err: int := dx - dy;
      ghost var X, Y, D := 0, 0, 0;
      ghost var g0 := world.tiles;
      ghost var line := Line(coord1.rowNum, coord1.colNum, y2, x2);
      ghost var pixels: seq<(int, int)> := [];
      DrawingStart(coord1.rowNum, coord1.colNum, y2, x2);
      while true
        invariant Drawing(coord1.rowNum, coord1.colNum, y2, x2, dx, dy, sx, sy, X, Y, D, y1, x1, line, pixels)
        invariant err == dx - dy + D
        invariant FirstOff(g0, pixels) == |pixels|
        invariant world.tiles == PaintAll(g0, pixels, DrawTile())
        decreases (dx - X) + (dy - Y)
      {
        var done;
        r, done, y1, x1, err, X, Y, D, pixels :=
          LineIteration(world, g0, line, pixels, coord1.rowNum, coord1.colNum, y2, x2, dx, dy, sx, sy, X, Y, D, y1, x1, err);
        if done {
          return;
        }
      }
    }

    /**
     * One iteration of `drawLine`'s loop: the current pixel is drawn, and
     * either the line is done (the pixel was the end, or it was off the grid
     * and drawing threw) or the loop steps on to the next pixel.
     */
    method LineIteration(world: World, ghost g0: seq<seq<Tile>>, ghost line: seq<(int, int)>, ghost pixels: seq<(int, int)>,
                         ghost r1: int, ghost c1: int, r2: int, c2: int, dx: int, dy: int, sx: int, sy: int,
                         ghost X: int, ghost Y: int, ghost D: int, y: int, x: int, err: int)
      returns (r: Result<()>, done: bool, y': int, x': int, err': int,
               ghost X': int, ghost Y': int, ghost D': int, ghost pixels': seq<(int, int)>)
      requires Drawing(r1, c1, r2, c2, dx, dy, sx, sy, X, Y, D, y, x, line, pixels) && err == dx - dy + D
      requires FirstOff(g0, pixels) == |pixels| && world.tiles == PaintAll(g0, pixels, DrawTile())
      modifies world`tiles
      ensures done ==> var k := FirstOff(g0, line);
        world.tiles == PaintAll(g0, line[..k], DrawTile()) &&
        (r.Err? <==> k < |line|) && (r.Err? ==> r.error == TypeError)
      ensures !done ==> Drawing(r1, c1, r2, c2, dx, dy, sx, sy, X', Y', D', y', x', line, pixels') && err' == dx - dy + D'
      ensures !done ==> FirstOff(g0, pixels') == |pixels'| && world.tiles == PaintAll(g0, pixels', DrawTile())
      ensures !done ==> (dx - X') + (dy - Y') < (dx - X) + (dy - Y)
    {
      DrawingHere(r1, c1, r2, c2, dx, dy, sx, sy, X, Y, D, y, x, line, pixels);
      r, pixels' := Plot(world, g0, line, pixels, y, x);
      y', x', err', X', Y', D' := y, x, err, X, Y, D;
      if r.Err? {
        return r, true, y', x', err', X', Y', D', pixels';
      }
      if x == c2 && y == r2 {
        assert line == pixels' && line[..|line|] == line;
        return r, true, y', x', err', X', Y', D', pixels';
      }
      y', x', err', X', Y', D' := Advance(r1, c1, r2, c2, dx, dy, sx, sy, X, Y, D, y, x, err, line, pixels);
      done := false;
    }

    /**
     * The second click of the line tool, on `clicked`: with a first click
     * recorded, the line from it is drawn, and the tool goes back to its
     * first click unless drawing threw.
     */
    method SecondLineClick(world: World, clicked: TileCoord) returns (r: Result<()>)
      modifies this`mode, world`tiles
      ensures mode == (if r.Ok? then LineOne else old(mode))
      ensures selection.None? ==> world.tiles == old(world.tiles) && r == Ok(())
      ensures selection.Some? ==>
        var line := Line(selection.value.upperLeft.rowNum, selection.value.upperLeft.colNum, clicked.rowNum, clicked.colNum);
        var k := FirstOff(old(world.tiles), line);
        world.tiles == PaintAll(old(world.tiles), line[..k], DrawTile()) &&
        (r.Err? <==> k < |line|) && (r.Err? ==> r.error == TypeError)
    {
      r := Ok(());
      if selection.Some? {
        r := DrawLine(world, selection.value.upperLeft, clicked);
        if r.Err? {
          return;
        }
      }
      mode := LineOne;
    }

    /**
     * A click in the spawn-point modes: with an ID typed, `setSpawnpoint`
     * on the clicked cell; in remove mode, `removeSpawnpointByCoord` on it,
     * which cannot throw because the cell is on the map.
     */
    method SpawnpointClick(world: World, clicked: TileCoord, spawnId: string) returns (r: Result<()>)
      requires world.Valid() && OnMap(world.tiles, clicked) && mode in {AddSpawnpoint, RemoveSpawnpoint}
      modifies world`spawnpoints
      ensures world.Valid()
      ensures mode == AddSpawnpoint && spawnId == [] ==> r == Ok(()) && world.spawnpoints == old(world.spawnpoints)
      ensures mode == AddSpawnpoint && spawnId != [] ==>
        SetOutcome(world.tiles, old(world.spawnpoints), spawnId, clicked, SameCell(clicked.rowNum, clicked.colNum), r, world.spawnpoints)
      ensures mode == RemoveSpawnpoint ==>
        r == Ok(()) && world.spawnpoints == Keep(old(world.spawnpoints), SameCell(clicked.rowNum, clicked.colNum))
    {
      r := Ok(());
      if mode == AddSpawnpoint {
        if spawnId != [] {
          r := world.SetSpawnpoint(spawnId, clicked);
        }
      } else {
        StuckOnlyOffCell(world.tiles, world.spawnpoints, SameCell(clicked.rowNum, clicked.colNum), clicked.rowNum, clicked.colNum);
        var removed := world.RemoveSpawnpointAt(clicked.rowNum, clicked.colNum);
        assert removed.Ok?;
      }
    }

    /**
     * `handleClick` on the cell `(rowNum, colNum)`, with the `spawn_id`
     * input's text: what the click does depends on the mode, and the mode
     * moves on as `NextMode` says unless the line tool throws first. The
     * second click of the line tool draws the line from the first.
     */
    method HandleClick(world: World, rowNum: int, colNum: int, spawnId: string) returns (r: Result<()>)
      requires world.Valid() && InGrid(world.tiles, rowNum, colNum)
      modifies this`mode, this`selection, this`drawTileId, this`drawColor, world`tiles, world`spawnpoints
      ensures world.Valid() && |world.tiles| == |old(world.tiles)|
      ensures forall i :: 0 <= i < |world.tiles| ==> |world.tiles[i]| == |old(world.tiles)[i]|
      ensures mode == (if r.Ok? then NextMode(old(mode)) else old(mode)) && viewMode == old(viewMode)
      ensures (!(old(mode) == LineTwo && old(selection).Some?) &&
               !(old(mode) == AddSpawnpoint && spawnId != [] && StoredOffMap(old(world.tiles), old(world.spawnpoints), spawnId)))
              ==> r == Ok(())
      ensures old(mode) !in {AddSpawnpoint, RemoveSpawnpoint} ==> world.spawnpoints == old(world.spawnpoints)
      ensures old(mode) !in {Draw, LineTwo} ==> world.tiles == old(world.tiles)
      ensures old(mode) != Picker ==> drawTileId == old(drawTileId) && drawColor == old(drawColor)
      ensures old(mode) !in {SelectOne, SelectTwo, LineOne} ==> selection == old(selection)
      ensures old(mode) == Draw ==> world.tiles == SetCell(old(world.tiles), rowNum, colNum, DrawTile())
      ensures old(mode) == Picker ==> DrawTile() == Tile(old(world.tiles)[rowNum][colNum].tileId, old(world.tiles)[rowNum][colNum].color, None)
      ensures old(mode) in {SelectOne, LineOne} ==>
        selection.Some? && selection.value.upperLeft == selection.value.lowerRight &&
        selection.value.upperLeft.rowNum == rowNum && selection.value.upperLeft.colNum == colNum
      ensures old(mode) == SelectTwo ==> if old(selection).None? then selection == None else
        selection.Some? && selection.value.upperLeft == old(selection).value.upperLeft &&
        selection.value.lowerRight.rowNum == rowNum && selection.value.lowerRight.colNum == colNum
      ensures old(mode) == LineTwo && old(selection).None? ==> world.tiles == old(world.tiles)
      ensures old(mode) == LineTwo && old(selection).Some? ==>
        var line := Line(old(selection).value.upperLeft.rowNum, old(selection).value.upperLeft.colNum, rowNum, colNum);
        var k := FirstOff(old(world.tiles), line);
        world.tiles == PaintAll(old(world.tiles), line[..k], DrawTile()) &&
        (r.Err? <==> k < |line|) && (r.Err? ==> r.error == TypeError)
      ensures old(mode) == AddSpawnpoint && spawnId == [] ==> world.spawnpoints == old(world.spawnpoints)
      ensures old(mode) == AddSpawnpoint && spawnId != [] ==> exists c: TileCoord ::
        c.rowNum == rowNum && c.colNum == colNum &&
        SetOutcome(old(world.tiles), old(world.spawnpoints), spawnId, c, SameCell(rowNum, colNum), r, world.spawnpoints)
      ensures old(mode) == RemoveSpawnpoint ==> world.spawnpoints == Keep(old(world.spawnpoints), SameCell(rowNum, colNum))
    {
      r := Ok(());
      var clicked := new TileCoord(rowNum, colNum);
      match mode
      case Draw =>
        assert InGrid(world.tiles, rowNum, colNum);
        r := DrawPixel(world, rowNum, colNum);
        assert r.Ok? && r.value == ();
      case Picker =>
        SetDrawTile(world.GetTile(rowNum, colNum));
        mode := Draw;
      case SelectOne =>
        SetSelection(Selection(clicked, clicked));
        mode := SelectTwo;
      case SelectTwo =>
        if selection.Some? {
          SetSelection(Selection(selection.value.upperLeft, clicked));
        }
        mode := SelectOne;
      case LineOne =>
        SetSelection(Selection(clicked, clicked));
        mode := LineTwo;
      case LineTwo =>
        r := SecondLineClick(world, clicked);
      case AddSpawnpoint =>
        r := SpawnpointClick(world, clicked, spawnId);
      case RemoveSpawnpoint =>
        r := SpawnpointClick(world, clicked, spawnId);
      case Fill =>
    }

    /**
     * A toolbar button: a tile button loads its tile's ID and colour and
     * switches to drawing; the tool buttons switch mode; the selection and
     * view buttons act at once, and only filling can throw.
     */
    method Press(world: World, b: Button) returns (r: Result<()>)
      requires b.TileButton? ==> Find(TILE_COLORS, b.tileId).Some?
      modifies this`mode, this`viewMode, this`selection, this`drawTileId, this`drawColor, world`tiles
      ensures mode == (match b
        case TileButton(_) => Draw
        case PickTile => Picker
        case SelectRegion => SelectOne
        case DrawLineButton => LineOne
        case AddSpawnpointButton => AddSpawnpoint
        case RemoveSpawnpointButton => RemoveSpawnpoint
        case _ => old(mode))
      ensures viewMode == (match b
        case ViewSpawnpoints => SpawnpointsView
        case ViewMap => MapView
        case _ => old(viewMode))
      ensures b.TileButton? ==> DrawTile() == Tile(b.tileId, Find(TILE_COLORS, b.tileId).value, None)
      ensures !b.TileButton? ==> drawTileId == old(drawTileId) && drawColor == old(drawColor)
      ensures selection == if b.ClearSelectionButton? then None else old(selection)
      ensures b.FillSelectionButton? && selection.Some? ==> var cells := SelectionCells(selection.value);
        var k := FirstOff(old(world.tiles), cells);
        world.tiles == PaintAll(old(world.tiles), cells[..k], DrawTile()) &&
        (r.Err? <==> k < |cells|) && (r.Err? ==> r.error == TypeError)
      ensures !(b.FillSelectionButton? && selection.Some?) ==> world.tiles == old(world.tiles) && r == Ok(())
      ensures mode == Fill ==> old(mode) == Fill
    {
      r := Ok(());
      match b
      case TileButton(tileId) =>
        drawTileId := tileId;
        drawColor := Find(TILE_COLORS, tileId).value;
        mode := Draw;
      case PickTile => mode := Picker;
      case SelectRegion => mode := SelectOne;
      case ClearSelectionButton => ClearSelection();
      case FillSelectionButton => r := FillSelection(world);
      case DrawLineButton => mode := LineOne;
      case AddSpawnpointButton => mode := AddSpawnpoint;
      case RemoveSpawnpointButton => mode := RemoveSpawnpoint;
      case ViewSpawnpoints => viewMode := SpawnpointsView;
      case ViewMap => viewMode := MapView;
    }
  }

  lemma WholeSlice<T>(s: seq<T>)
    ensures s[..|s|] == s
  {
  }

  lemma ConcatAssoc<T>(a: seq<T>, b: seq<T>, c: seq<T>)
    ensures a + (b + c) == (a + b) + c
  {
  }

  /** The cells `fillSelection` paints, row by row, for a selection. */
  function SelectionCells(s: Selection): seq<(int, int)>
  {
    RectCells(s.upperLeft.rowNum, s.upperLeft.colNum, s.lowerRight.rowNum, s.lowerRight.colNum)
  }

  /**
   * One row of `fillSelection`, after the rows above it were all on the
   * grid: if the row stops, the whole fill stops there; if not, the rows
   * so far are all on the grid and painted.
   */
  lemma FillRowStep(g0: seq<seq<Tile>>, t: Tile, r1: int, c1: int, rowNum: int, r2: int, c2: int)
    requires r1 <= rowNum <= r2
    requires FirstOff(g0, RectCells(r1, c1, rowNum - 1, c2)) == |RectCells(r1, c1, rowNum - 1, c2)|
    ensures var before := RectCells(r1, c1, rowNum - 1, c2);
      var row := RowCells(rowNum, c1, c2);
      var k := FirstOff(PaintAll(g0, before, t), row);
      var whole := RectCells(r1, c1, r2, c2);
      k < |row| ==> FirstOff(g0, whole) < |whole| &&
                    PaintAll(PaintAll(g0, before, t), row[..k], t) == PaintAll(g0, whole[..FirstOff(g0, whole)], t)
    ensures var before := RectCells(r1, c1, rowNum - 1, c2);
      var row := RowCells(rowNum, c1, c2);
      var k := FirstOff(PaintAll(g0, before, t), row);
      k == |row| ==> FirstOff(g0, RectCells(r1, c1, rowNum, c2)) == |RectCells(r1, c1, rowNum, c2)| &&
                     PaintAll(PaintAll(g0, before, t), row[..k], t) == PaintAll(g0, RectCells(r1, c1, rowNum, c2), t)
  {
    var before := RectCells(r1, c1, rowNum - 1, c2);
    var row := RowCells(rowNum, c1, c2);
    FirstOffPainted(g0, before, t, row);
    assert RectCells(r1, c1, rowNum, c2) == before + row;
    RectCellsSplit(r1, c1, rowNum, r2, c2);
    PaintedPrefix(g0, t, before, row, RectCells(rowNum + 1, c1, r2, c2));
  }

  /**
   * Cells `a` all on the grid, then `b`, then `c`: painting `a` and then `b`
   * up to where it stops is painting `a + b + c` up to where that stops,
   * and if `b` does not stop, neither do `a + b`.
   */
  lemma PaintedPrefix(g: seq<seq<Tile>>, t: Tile, a: seq<(int, int)>, b: seq<(int, int)>, c: seq<(int, int)>)
    requires FirstOff(g, a) == |a|
    ensures var k := FirstOff(g, b);
      k < |b| ==> FirstOff(g, a + b + c) == |a| + k < |a + b + c| &&
                  PaintAll(PaintAll(g, a, t), b[..k], t) == PaintAll(g, (a + b + c)[..FirstOff(g, a + b + c)], t)
    ensures var k := FirstOff(g, b);
      k == |b| ==> FirstOff(g, a + b) == |a + b| && PaintAll(PaintAll(g, a, t), b[..k], t) == PaintAll(g, a + b, t)
  {
    if FirstOff(g, b) < |b| {
      PaintedStops(g, t, a, b, c);
    } else {
      PaintedRuns(g, t, a, b);
    }
  }

  /** `PaintedPrefix` when `b` stops. */
  lemma PaintedStops(g: seq<seq<Tile>>, t: Tile, a: seq<(int, int)>, b: seq<(int, int)>, c: seq<(int, int)>)
    requires FirstOff(g, a) == |a| && FirstOff(g, b) < |b|
    ensures var k := FirstOff(g, b);
      FirstOff(g, a + b + c) == |a| + k < |a + b + c| &&
      PaintAll(PaintAll(g, a, t), b[..k], t) == PaintAll(g, (a + b + c)[..FirstOff(g, a + b + c)], t)
  {
    var k := FirstOff(g, b);
    assert FirstOff(g, a + b) == |a| + k by {
      FirstOffConcat(g, a, b);
    }
    assert FirstOff(g, a + b + c) == |a| + k by {
      FirstOffConcat(g, a + b, c);
    }
    assert PaintAll(PaintAll(g, a, t), b[..k], t) == PaintAll(g, a + b[..k], t) by {
      PaintAllConcat(g, a, b[..k], t);
    }
    assert (a + b + c)[..FirstOff(g, a + b + c)] == a + b[..k] by {
      assert (a + b + c)[..|a| + k] == a + b[..k];
    }
  }

  /** `PaintedPrefix` when `b` does not stop. */
  lemma PaintedRuns(g: seq<seq<Tile>>, t: Tile, a: seq<(int, int)>, b: seq<(int, int)>)
    requires FirstOff(g, a) == |a| && FirstOff(g, b) == |b|
    ensures FirstOff(g, a + b) == |a + b| && PaintAll(PaintAll(g, a, t), b[..FirstOff(g, b)], t) == PaintAll(g, a + b, t)
  {
    FirstOffConcat(g, a, b);
    PaintAllConcat(g, a, b, t);
    assert b[..|b|] == b;
  }

  /** Painting the next cell of a row: whether it is on the grid is unchanged by the cells painted before it. */
  lemma RowPaintStep(g: seq<seq<Tile>>, t: Tile, row: int, c1: int, col: int)
    requires c1 <= col
    ensures var h := PaintAll(g, RowCells(row, c1, col - 1), t);
      InGrid(h, row, col) == InGrid(g, row, col) &&
      SetCell(h, row, col, t) == PaintAll(g, RowCells(row, c1, col), t)
  {
    PaintAllAppend(g, RowCells(row, c1, col - 1), (row, col), t);
  }

  /**
   * Where the row loop stops: every cell before `col` is on the grid, and
   * either `col` is off it or the row is done.
   */
  lemma RowStops(g: seq<seq<Tile>>, row: int, c1: int, c2: int, col: int)
    requires c1 <= col <= c2 + 1 || col == c1
    requires forall j :: c1 <= j < col ==> InGrid(g, row, j)
    requires col <= c2 ==> !InGrid(g, row, col)
    ensures var cells := RowCells(row, c1, c2);
      FirstOff(g, cells) == col - c1 && cells[..col - c1] == RowCells(row, c1, col - 1)
  {
    var cells := RowCells(row, c1, c2);
    FirstOffIs(g, cells, col - c1);
  }

  /** The row loop's invariant: the cells before `col` are on the grid and painted. */
  ghost predicate RowLoop(g: seq<seq<Tile>>, h: seq<seq<Tile>>, t: Tile, row: int, c1: int, c2: int, col: int)
  {
    c1 <= col && (col <= c2 + 1 || col == c1) &&
    (forall j :: c1 <= j < col ==> InGrid(g, row, j)) &&
    h == PaintAll(g, RowCells(row, c1, col - 1), t)
  }

  /** Where the row loop stops, in the terms of `PaintRow`'s contract: the cells up to the first one off the grid are painted. */
  lemma RowPainted(g: seq<seq<Tile>>, h: seq<seq<Tile>>, t: Tile, row: int, c1: int, c2: int, col: int)
    requires RowLoop(g, h, t, row, c1, c2, col)
    requires col <= c2 ==> !InGrid(g, row, col)
    ensures var cells := RowCells(row, c1, c2);
      var k := FirstOff(g, cells);
      h == PaintAll(g, cells[..k], t) && (k < |cells| <==> col <= c2)
  {
    RowStops(g, row, c1, c2, col);
  }

  /** The rows of a rectangle up to row `m`, then the rest. */
  lemma {:induction false} RectCellsSplit(r1: int, c1: int, m: int, r2: int, c2: int)
    requires r1 - 1 <= m <= r2
    ensures RectCells(r1, c1, r2, c2) == RectCells(r1, c1, m, c2) + RectCells(m + 1, c1, r2, c2)
    decreases r2 - m
  {
    if m < r2 {
      RectCellsSplit(r1, c1, m, r2 - 1, c2);
    }
  }

  /**
   * On a rectangular grid holding both corners, every cell of the selection
   * is on the grid, so filling paints the whole rectangle without throwing.
   */
  lemma FillInGrid(g: seq<seq<Tile>>, s: Selection)
    requires Rectangular(g) && CornersIn(g, s)
    ensures FirstOff(g, SelectionCells(s)) == |SelectionCells(s)|
  {
    var cells := SelectionCells(s);
    forall i | 0 <= i < |cells|
      ensures InGrid(g, cells[i].0, cells[i].1)
    {
      RectCellsMembers(s.upperLeft.rowNum, s.upperLeft.colNum, s.lowerRight.rowNum, s.lowerRight.colNum,
                       cells[i].0, cells[i].1);
    }
    FirstOffIs(g, cells, |cells|);
  }

  /**
   * After `shrinkBottom` the selection can reach past the last row: with
   * one row left, a selection of (0, 0) to (1, 0) paints the first cell and
   * then throws.
   */
  lemma ShrunkSelectionFillStops(a: TileCoord, b: TileCoord)
    requires a.rowNum == 0 && a.colNum == 0 && b.rowNum == 1 && b.colNum == 0
    ensures var g := ShrinkBottomGrid([[DefaultTile()], [DefaultTile()]]);
      CornersIn([[DefaultTile()], [DefaultTile()]], Selection(a, b)) &&
      |SelectionCells(Selection(a, b))| == 2 && FirstOff(g, SelectionCells(Selection(a, b))) == 1
  {
    var g := ShrinkBottomGrid([[DefaultTile()], [DefaultTile()]]);
    assert g == [[DefaultTile()]];
    var cells := SelectionCells(Selection(a, b));
    assert RectCells(0, 0, 0, 0) == [(0, 0)];
    assert cells == [(0, 0), (1, 0)];
    FirstOffIs(g, cells, 1);
  }
}
