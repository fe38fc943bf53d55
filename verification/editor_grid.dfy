/**
 * The tile map editor's picture of a world (js/tilemapeditor.js): tiles
 * known by ID and colour, a grid of rows of tiles, and what growing or
 * shrinking it by one row or column does to the grid. The DOM table the
 * editor keeps beside the grid is not part of this model.
 */
module EditorGrid {
  import opened Wrappers
  import opened Json
  import opened AssocLists

  /** The colour the editor shows for each tile ID, in the order of the toolbar's buttons. */
  const TILE_COLORS: seq<(string, string)> := [
    ("empty", "#000000"),
    ("grass", "#00FF00"),
    ("wild_grass", "#3DB846"),
    ("wall", "#606060"),
    ("portal", "#C996FF"),
    ("sign", "#FFFF00"),
    ("deep_water", "#0000A0"),
    ("shallow_water", "#64B3F4"),
    ("dirt", "#645A28"),
    ("desert", "#DAD79C"),
    ("lava", "#EC731C"),
    ("floor", "#DDDDDD"),
    ("indoor_wall", "#00711A"),
    ("barrier", "#B0B0B0")
  ]

  const DEFAULT_TILE_ID: string := "grass"
  /** The colour of a tile made without one. */
  const MISSING_COLOR: string := "#FF00FF"

  /** A tile of the editor: its ID, the colour its cell is painted, and its data (None for `undefined`). */
  datatype Tile = Tile(tileId: string, color: string, tileData: Option<Json>)

  /** `new Tile(tileId, color, tileData)`: an undefined colour falls back to magenta. */
  function NewTile(tileId: string, color: Option<string>, tileData: Option<Json>): (t: Tile)
    ensures t.tileId == tileId && t.tileData == tileData
    ensures color.Some? ==> t.color == color.value
    ensures color.None? ==> t.color == MISSING_COLOR
  {
    Tile(tileId, if color.Some? then color.value else MISSING_COLOR, tileData)
  }

  /** `World.makeDefaultTile`: a grass tile in grass's colour, without data. */
  function DefaultTile(): (t: Tile)
    ensures t == Tile("grass", "#00FF00", None)
  {
    assert TILE_COLORS[1] == ("grass", "#00FF00");
    NewTile(DEFAULT_TILE_ID, Find(TILE_COLORS, DEFAULT_TILE_ID), None)
  }

  /**
   * `Tile.toJSON`: the tile's ID, and its data only when the data is
   * truthy; the colour is not saved.
   */
  function TileJson(t: Tile): (j: Json)
    ensures j.JObj? && JsGet(j, "tile_id") == Ok(Some(JStr(t.tileId)))
    ensures JsGet(j, "tile_data") == (if JsTruthyOpt(t.tileData) then Ok(t.tileData) else Ok(None))
  {
    TileFields(JStr(t.tileId), if t.tileData.Some? then t.tileData.value else JNull);
    if JsTruthyOpt(t.tileData) then JObj([("tile_id", JStr(t.tileId)), ("tile_data", t.tileData.value)])
    else JObj([("tile_id", JStr(t.tileId))])
  }

  lemma TileFields(id: Json, data: Json)
    ensures JsGet(JObj([("tile_id", id)]), "tile_id") == Ok(Some(id))
    ensures JsGet(JObj([("tile_id", id)]), "tile_data") == Ok(None)
    ensures JsGet(JObj([("tile_id", id), ("tile_data", data)]), "tile_id") == Ok(Some(id))
    ensures JsGet(JObj([("tile_id", id), ("tile_data", data)]), "tile_data") == Ok(Some(data))
  {
    assert "tile_id" != "tile_data" by { assert "tile_id"[5] != "tile_data"[5]; }
    var f := [("tile_id", id), ("tile_data", data)];
    assert f[1..] == [("tile_data", data)];
    assert Find(f, "tile_data") == Find(f[1..], "tile_data");
  }

  /** Two tiles that differ only in colour are saved alike. */
  lemma ColorNotSaved(t: Tile, color: string)
    ensures TileJson(t.(color := color)) == TileJson(t)
  {
  }

  // ----- the grid -----

  /** `width`: the length of the first row, 0 for no rows. */
  function Width(g: seq<seq<Tile>>): (w: nat)
    ensures |g| == 0 ==> w == 0
    ensures |g| > 0 ==> w == |g[0]|
  {
    if |g| > 0 then |g[0]| else 0
  }

  /** `height`: the number of rows. */
  function Height(g: seq<seq<Tile>>): (h: nat)
    ensures h == |g|
  {
    if |g| > 0 then |g| else 0
  }

  /** Every row as long as the first. */
  predicate Rectangular(g: seq<seq<Tile>>)
  {
    forall i :: 0 <= i < |g| ==> |g[i]| == Width(g)
  }

  /** The cell is on the grid. */
  predicate InGrid(g: seq<seq<Tile>>, row: int, col: int)
  {
    0 <= row < |g| && 0 <= col < |g[row]|
  }

  /** `n` default tiles. */
  function Defaults(n: nat): (r: seq<Tile>)
    ensures |r| == n && forall i :: 0 <= i < n ==> r[i] == DefaultTile()
  {
    if n == 0 then [] else Defaults(n - 1) + [DefaultTile()]
  }

  /** `h` rows of `w` default tiles: the grid `new World(w, h)` builds (a negative size counts as 0). */
  function NewGrid(w: int, h: int): (g: seq<seq<Tile>>)
    ensures |g| == (if h > 0 then h else 0)
    ensures forall i :: 0 <= i < |g| ==> g[i] == Defaults(if w > 0 then w else 0)
  {
    if h <= 0 then [] else NewGrid(w, h - 1) + [Defaults(if w > 0 then w else 0)]
  }

  /** A new world is a rectangle of default tiles, `w` wide and `h` high, and 0 wide when it has no rows. */
  lemma NewGridShape(w: int, h: int)
    ensures Rectangular(NewGrid(w, h)) && Height(NewGrid(w, h)) == (if h > 0 then h else 0)
    ensures Width(NewGrid(w, h)) == (if h > 0 && w > 0 then w else 0)
    ensures forall i, j :: 0 <= i < |NewGrid(w, h)| && 0 <= j < |NewGrid(w, h)[i]| ==> NewGrid(w, h)[i][j] == DefaultTile()
  {
  }

  /** Every row with one default tile added in front. */
  function PrependEach(g: seq<seq<Tile>>): (r: seq<seq<Tile>>)
    ensures |r| == |g| && forall i :: 0 <= i < |g| ==> r[i] == [DefaultTile()] + g[i]
  {
    if |g| == 0 then [] else PrependEach(g[..|g| - 1]) + [[DefaultTile()] + g[|g| - 1]]
  }

  /** Every row with one default tile added at the end. */
  function AppendEach(g: seq<seq<Tile>>): (r: seq<seq<Tile>>)
    ensures |r| == |g| && forall i :: 0 <= i < |g| ==> r[i] == g[i] + [DefaultTile()]
  {
    if |g| == 0 then [] else AppendEach(g[..|g| - 1]) + [g[|g| - 1] + [DefaultTile()]]
  }

  /** `Array.prototype.shift` on a row: its first tile goes, and an empty row stays empty. */
  function Behead(row: seq<Tile>): (r: seq<Tile>)
    ensures |row| > 0 ==> r == row[1..]
    ensures |row| == 0 ==> r == []
  {
    if |row| > 0 then row[1..] else row
  }

  /** `Array.prototype.pop` on a row: its last tile goes, and an empty row stays empty. */
  function Curtail(row: seq<Tile>): (r: seq<Tile>)
    ensures |row| > 0 ==> r == row[..|row| - 1]
    ensures |row| == 0 ==> r == []
  {
    if |row| > 0 then row[..|row| - 1] else row
  }

  /** Every row beheaded. */
  function BeheadEach(g: seq<seq<Tile>>): (r: seq<seq<Tile>>)
    ensures |r| == |g| && forall i :: 0 <= i < |g| ==> r[i] == Behead(g[i])
  {
    if |g| == 0 then [] else BeheadEach(g[..|g| - 1]) + [Behead(g[|g| - 1])]
  }

  /** Every row curtailed. */
  function CurtailEach(g: seq<seq<Tile>>): (r: seq<seq<Tile>>)
    ensures |r| == |g| && forall i :: 0 <= i < |g| ==> r[i] == Curtail(g[i])
  {
    if |g| == 0 then [] else CurtailEach(g[..|g| - 1]) + [Curtail(g[|g| - 1])]
  }

  /** The rows the expanding loops walk: an empty grid first gets an empty row. */
  function AtLeastOneRow(g: seq<seq<Tile>>): seq<seq<Tile>>
  {
    if |g| == 0 then [[]] else g
  }

  /** `expandLeft`: a default tile in front of every row, after making a row if there was none. */
  function ExpandLeftGrid(g: seq<seq<Tile>>): (r: seq<seq<Tile>>)
    ensures |r| == (if |g| == 0 then 1 else |g|)
    ensures |g| == 0 ==> r == [[DefaultTile()]]
    ensures |g| > 0 ==> forall i :: 0 <= i < |g| ==> r[i] == [DefaultTile()] + g[i]
  {
    var r := PrependEach(AtLeastOneRow(g));
    if |g| == 0 then
      assert r[0] == [DefaultTile()] + [] == [DefaultTile()];
      assert r == [r[0]];
      r
    else r
  }

  /** `expandRight`: a default tile at the end of every row, after making a row if there was none. */
  function ExpandRightGrid(g: seq<seq<Tile>>): (r: seq<seq<Tile>>)
    ensures |r| == (if |g| == 0 then 1 else |g|)
    ensures |g| == 0 ==> r == [[DefaultTile()]]
    ensures |g| > 0 ==> forall i :: 0 <= i < |g| ==> r[i] == g[i] + [DefaultTile()]
  {
    var r := AppendEach(AtLeastOneRow(g));
    if |g| == 0 then
      assert r[0] == [] + [DefaultTile()] == [DefaultTile()];
      assert r == [r[0]];
      r
    else r
  }

  /** The index of the first row without tiles, `|g|` when every row has one. */
  function FirstEmpty(g: seq<seq<Tile>>): (k: nat)
    ensures k <= |g|
    ensures forall i :: 0 <= i < k ==> |g[i]| > 0
    ensures k < |g| ==> |g[k]| == 0
  {
    if |g| == 0 || |g[0]| == 0 then 0 else 1 + FirstEmpty(g[1..])
  }

  /**
   * The sideways shrinks throw: the map has width, and a row has no table
   * cell left to remove.
   */
  predicate SidewaysShrinkThrows(g: seq<seq<Tile>>)
  {
    Width(g) > 0 && FirstEmpty(g) < |g|
  }

  /**
   * `shrinkLeft`, as intended: when the map is wider than 0, the rows lose
   * their first tile one after another, until a row with no cell, where
   * removing the missing `firstChild` throws and the later rows are kept.
   */
  function ShrinkLeftGrid(g: seq<seq<Tile>>): (r: seq<seq<Tile>>)
    ensures Width(g) == 0 ==> r == g
    ensures |r| == |g|
    ensures Width(g) > 0 ==> forall i :: 0 <= i < |g| ==> r[i] == (if i < FirstEmpty(g) then Behead(g[i]) else g[i])
  {
    if Width(g) > 0 then BeheadEach(g[..FirstEmpty(g)]) + g[FirstEmpty(g)..] else g
  }

  /** `shrinkRight`, as intended: the rows lose their last tile, up to the first row with no cell. */
  function ShrinkRightGrid(g: seq<seq<Tile>>): (r: seq<seq<Tile>>)
    ensures Width(g) == 0 ==> r == g
    ensures |r| == |g|
    ensures Width(g) > 0 ==> forall i :: 0 <= i < |g| ==> r[i] == (if i < FirstEmpty(g) then Curtail(g[i]) else g[i])
  {
    if Width(g) > 0 then CurtailEach(g[..FirstEmpty(g)]) + g[FirstEmpty(g)..] else g
  }

  /** A map with width whose every row is as long as the first has no empty row. */
  lemma RectangleHasNoEmptyRow(g: seq<seq<Tile>>)
    requires Rectangular(g) && Width(g) > 0
    ensures FirstEmpty(g) == |g| && !SidewaysShrinkThrows(g)
  {
  }

  /**
   * `shrinkLeft` as written: the first `popTileLeft` shifts row 0 and then
   * throws (see `EditorWorld.World.PopTileLeftAsWritten`), so only row 0
   * loses a tile.
   */
  function ShrinkLeftAsWritten(g: seq<seq<Tile>>): (r: seq<seq<Tile>>)
    ensures Width(g) == 0 ==> r == g
    ensures Width(g) > 0 ==> r == g[0 := Behead(g[0])]
  {
    if Width(g) > 0 then g[0 := Behead(g[0])] else g
  }

  /** `shrinkRight` as written: only row 0 loses a tile before `popTile` throws. */
  function ShrinkRightAsWritten(g: seq<seq<Tile>>): (r: seq<seq<Tile>>)
    ensures Width(g) == 0 ==> r == g
    ensures Width(g) > 0 ==> r == g[0 := Curtail(g[0])]
  {
    if Width(g) > 0 then g[0 := Curtail(g[0])] else g
  }

  /** `expandTop`: a row of `max(1, width)` default tiles in front. */
  function ExpandTopGrid(g: seq<seq<Tile>>): (r: seq<seq<Tile>>)
    ensures r == [Defaults(if Width(g) > 1 then Width(g) else 1)] + g
  {
    [Defaults(if Width(g) > 1 then Width(g) else 1)] + g
  }

  /** `expandBottom`: a row of `max(1, width)` default tiles at the end. */
  function ExpandBottomGrid(g: seq<seq<Tile>>): (r: seq<seq<Tile>>)
    ensures r == g + [Defaults(if Width(g) > 1 then Width(g) else 1)]
  {
    g + [Defaults(if Width(g) > 1 then Width(g) else 1)]
  }

  /** `shrinkTop`, as intended: the first row goes, if there is one. */
  function ShrinkTopGrid(g: seq<seq<Tile>>): (r: seq<seq<Tile>>)
    ensures |g| > 0 ==> r == g[1..]
    ensures |g| == 0 ==> r == []
  {
    if |g| > 0 then g[1..] else g
  }

  /** `shrinkTop` as written: `popRowTop` calls `unshift()` with nothing to add, so no row goes. */
  function ShrinkTopAsWritten(g: seq<seq<Tile>>): (r: seq<seq<Tile>>)
    ensures r == g
  {
    g
  }

  /** `shrinkBottom`: the last row goes, if there is one. */
  function ShrinkBottomGrid(g: seq<seq<Tile>>): (r: seq<seq<Tile>>)
    ensures |g| > 0 ==> r == g[..|g| - 1]
    ensures |g| == 0 ==> r == []
  {
    if |g| > 0 then g[..|g| - 1] else g
  }

  // ----- what growing and shrinking do -----

  /** Growing a non-empty map on the left and shrinking it there gives the same map back. */
  lemma ShrinkLeftUndoesExpandLeft(g: seq<seq<Tile>>)
    requires |g| > 0
    ensures ShrinkLeftGrid(ExpandLeftGrid(g)) == g
  {
    var e := ExpandLeftGrid(g);
    assert Width(e) > 0;
    assert forall i :: 0 <= i < |g| ==> Behead(e[i]) == g[i] by {
      forall i | 0 <= i < |g| ensures Behead(e[i]) == g[i] {
        assert e[i] == [DefaultTile()] + g[i];
        assert e[i][1..] == g[i];
      }
    }
  }

  /** Growing a non-empty map on the right and shrinking it there gives the same map back. */
  lemma ShrinkRightUndoesExpandRight(g: seq<seq<Tile>>)
    requires |g| > 0
    ensures ShrinkRightGrid(ExpandRightGrid(g)) == g
  {
    var e := ExpandRightGrid(g);
    assert Width(e) > 0;
    assert forall i :: 0 <= i < |g| ==> Curtail(e[i]) == g[i] by {
      forall i | 0 <= i < |g| ensures Curtail(e[i]) == g[i] {
        assert e[i] == g[i] + [DefaultTile()];
        assert e[i][..|e[i]| - 1] == g[i];
      }
    }
  }

  /** Growing an empty map on either side makes one row of one tile; shrinking it leaves an empty row, not an empty map. */
  lemma ExpandEmptyThenShrink()
    ensures ExpandLeftGrid([]) == ExpandRightGrid([]) == [[DefaultTile()]]
    ensures ShrinkLeftGrid([[DefaultTile()]]) == ShrinkRightGrid([[DefaultTile()]]) == [[]]
  {
    assert Width([[DefaultTile()]]) == 1;
    assert BeheadEach([[DefaultTile()]])[0] == [];
    assert CurtailEach([[DefaultTile()]])[0] == [];
  }

  /**
   * Shrinking sideways stops at the first row with no cell: `[[t]]` shrunk
   * on the right and grown at the top and the bottom is `[[t], [], [t]]`;
   * shrinking that on either side empties row 0 and then throws at row 1,
   * so row 2 keeps its tile.
   */
  lemma ShrinkStopsAtEmptyRow()
    ensures var g := ExpandBottomGrid(ExpandTopGrid(ShrinkRightGrid([[DefaultTile()]])));
      g == [[DefaultTile()], [], [DefaultTile()]] && SidewaysShrinkThrows(g) &&
      ShrinkLeftGrid(g) == ShrinkRightGrid(g) == [[], [], [DefaultTile()]]
  {
    var d := DefaultTile();
    assert ShrinkRightGrid([[d]]) == [[]] by { ExpandEmptyThenShrink(); }
    GrowAroundEmptyRow();
    ShrinkAroundEmptyRow();
  }

  lemma GrowAroundEmptyRow()
    ensures ExpandBottomGrid(ExpandTopGrid([[]])) == [[DefaultTile()], [], [DefaultTile()]]
  {
    var d := DefaultTile();
    assert Defaults(1) == [d];
    var top := ExpandTopGrid([[]]);
    assert top == [[d], []];
  }

  lemma ShrinkAroundEmptyRow()
    ensures var g := [[DefaultTile()], [], [DefaultTile()]];
      SidewaysShrinkThrows(g) && ShrinkLeftGrid(g) == ShrinkRightGrid(g) == [[], [], [DefaultTile()]]
  {
    var d := DefaultTile();
    var g := [[d], [], [d]];
    assert FirstEmpty(g) == 1 by {
      assert g[1..] == [[], [d]];
      assert FirstEmpty(g[1..]) == 0;
    }
    var l := ShrinkLeftGrid(g);
    var r := ShrinkRightGrid(g);
    assert l[0] == [] && l[1] == [] && l[2] == [d];
    assert r[0] == [] && r[1] == [] && r[2] == [d];
  }

  /** Growing at the top or bottom and shrinking there gives the same map back. */
  lemma ShrinkUndoesExpandVertically(g: seq<seq<Tile>>)
    ensures ShrinkTopGrid(ExpandTopGrid(g)) == g
    ensures ShrinkBottomGrid(ExpandBottomGrid(g)) == g
  {
    assert ([Defaults(if Width(g) > 1 then Width(g) else 1)] + g)[1..] == g;
    assert (g + [Defaults(if Width(g) > 1 then Width(g) else 1)])[..|g|] == g;
  }

  /** Growing a rectangular map on either side keeps it rectangular and one wider (an empty map becomes one tile). */
  lemma ExpandSidewaysKeepsRectangle(g: seq<seq<Tile>>)
    requires Rectangular(g)
    ensures Rectangular(ExpandLeftGrid(g)) && Width(ExpandLeftGrid(g)) == Width(g) + 1
    ensures Rectangular(ExpandRightGrid(g)) && Width(ExpandRightGrid(g)) == Width(g) + 1
  {
  }

  /**
   * Growing a rectangular map at the top or bottom keeps it rectangular and
   * one higher, unless its rows are all empty: the new row then has one
   * tile and the others none.
   */
  lemma ExpandVerticallyKeepsRectangle(g: seq<seq<Tile>>)
    requires Rectangular(g)
    ensures |g| == 0 || Width(g) > 0 ==>
      Rectangular(ExpandTopGrid(g)) && Rectangular(ExpandBottomGrid(g)) &&
      Width(ExpandTopGrid(g)) == Width(ExpandBottomGrid(g)) == (if |g| == 0 then 1 else Width(g))
    ensures Height(ExpandTopGrid(g)) == Height(ExpandBottomGrid(g)) == Height(g) + 1
    ensures |g| > 0 && Width(g) == 0 ==> !Rectangular(ExpandTopGrid(g)) && !Rectangular(ExpandBottomGrid(g))
  {
    var t := ExpandTopGrid(g);
    var b := ExpandBottomGrid(g);
    if |g| > 0 && Width(g) == 0 {
      assert |t[0]| == 1 && |t[1]| == 0;
      assert |b[0]| == 0 && |b[|g|]| == 1;
    } else {
      assert forall i :: 0 <= i < |t| ==> |t[i]| == Width(t) by {
        forall i | 0 <= i < |t| ensures |t[i]| == Width(t) {
          if i > 0 { assert t[i] == g[i - 1]; }
        }
      }
    }
  }

  /** Shrinking a rectangular map keeps it rectangular, one narrower (when it had width) or one lower. */
  lemma ShrinkKeepsRectangle(g: seq<seq<Tile>>)
    requires Rectangular(g)
    ensures Rectangular(ShrinkLeftGrid(g)) && Rectangular(ShrinkRightGrid(g))
    ensures Width(g) > 0 ==> Width(ShrinkLeftGrid(g)) == Width(g) - 1 && Width(ShrinkRightGrid(g)) == Width(g) - 1
    ensures Rectangular(ShrinkTopGrid(g)) && Rectangular(ShrinkBottomGrid(g))
    ensures |g| > 0 ==> Height(ShrinkTopGrid(g)) == Height(g) - 1 && Height(ShrinkBottomGrid(g)) == Height(g) - 1
  {
    ShrinkSidesKeepRectangle(g);
    ShrinkEndsKeepRectangle(g);
  }

  /** The left and right halves of `ShrinkKeepsRectangle`. */
  lemma ShrinkSidesKeepRectangle(g: seq<seq<Tile>>)
    requires Rectangular(g)
    ensures Rectangular(ShrinkLeftGrid(g)) && Rectangular(ShrinkRightGrid(g))
    ensures Width(g) > 0 ==> Width(ShrinkLeftGrid(g)) == Width(g) - 1 && Width(ShrinkRightGrid(g)) == Width(g) - 1
  {
  }

  /** The top and bottom halves of `ShrinkKeepsRectangle`. */
  lemma ShrinkEndsKeepRectangle(g: seq<seq<Tile>>)
    requires Rectangular(g)
    ensures Rectangular(ShrinkTopGrid(g)) && Rectangular(ShrinkBottomGrid(g))
    ensures |g| > 0 ==> Height(ShrinkTopGrid(g)) == Height(g) - 1 && Height(ShrinkBottomGrid(g)) == Height(g) - 1
  {
    if |g| > 1 {
      var t := ShrinkTopGrid(g);
      assert forall i :: 0 <= i < |t| ==> t[i] == g[i + 1];
      assert |t[0]| == |g[1]| == Width(g);
    }
  }

  /**
   * As written, shrinking a rectangular map of two or more rows, at least
   * one column wide, on the left or right leaves rows of two lengths.
   */
  lemma ShrinkSidewaysAsWrittenBreaksRectangle(g: seq<seq<Tile>>)
    requires Rectangular(g) && |g| >= 2 && Width(g) >= 1
    ensures !Rectangular(ShrinkLeftAsWritten(g)) && !Rectangular(ShrinkRightAsWritten(g))
    ensures ShrinkLeftAsWritten(g) != ShrinkLeftGrid(g) && ShrinkRightAsWritten(g) != ShrinkRightGrid(g)
  {
    var l := ShrinkLeftAsWritten(g);
    var r := ShrinkRightAsWritten(g);
    assert |l[0]| == Width(g) - 1 && |l[1]| == Width(g);
    assert |r[0]| == Width(g) - 1 && |r[1]| == Width(g);
    assert |ShrinkLeftGrid(g)[1]| == Width(g) - 1;
    assert |ShrinkRightGrid(g)[1]| == Width(g) - 1;
  }

  /** As written, shrinking a map with rows at the top keeps every row. */
  lemma ShrinkTopAsWrittenKeepsRows(g: seq<seq<Tile>>)
    requires |g| > 0
    ensures Height(ShrinkTopAsWritten(g)) == Height(g) && Height(ShrinkTopGrid(g)) == Height(g) - 1
  {
  }

  // ----- painting cells -----

  /** The cell of a grid replaced by `t` (a cell off the grid changes nothing). */
  function SetCell(g: seq<seq<Tile>>, row: int, col: int, t: Tile): (r: seq<seq<Tile>>)
    ensures |r| == |g| && forall i :: 0 <= i < |g| ==> |r[i]| == |g[i]|
    ensures forall i, j :: 0 <= i < |g| && 0 <= j < |g[i]| ==> r[i][j] == if i == row && j == col then t else g[i][j]
  {
    if InGrid(g, row, col) then g[row := g[row][col := t]] else g
  }

  /** The cells (row, column) painted in turn with `t`. */
  function PaintAll(g: seq<seq<Tile>>, cells: seq<(int, int)>, t: Tile): (r: seq<seq<Tile>>)
    ensures |r| == |g| && forall i :: 0 <= i < |g| ==> |r[i]| == |g[i]|
  {
    if |cells| == 0 then g
    else
      var last := cells[|cells| - 1];
      SetCell(PaintAll(g, cells[..|cells| - 1], t), last.0, last.1, t)
  }

  /** Painting one more cell. */
  lemma PaintAllAppend(g: seq<seq<Tile>>, cells: seq<(int, int)>, c: (int, int), t: Tile)
    ensures PaintAll(g, cells + [c], t) == SetCell(PaintAll(g, cells, t), c.0, c.1, t)
  {
    assert (cells + [c])[..|cells|] == cells;
  }

  /** A painted grid holds `t` exactly in the cells listed and the old tile everywhere else. */
  lemma {:induction false} PaintAllCells(g: seq<seq<Tile>>, cells: seq<(int, int)>, t: Tile, i: int, j: int)
    requires 0 <= i < |g| && 0 <= j < |g[i]|
    ensures PaintAll(g, cells, t)[i][j] == if (i, j) in cells then t else g[i][j]
  {
    if |cells| > 0 {
      var init := cells[..|cells| - 1];
      PaintAllCells(g, init, t, i, j);
      assert cells == init + [cells[|cells| - 1]];
      assert (i, j) in cells <==> (i, j) in init || (i, j) == cells[|cells| - 1];
    }
  }

  /** Painting two lists of cells in turn is painting their concatenation. */
  lemma {:induction false} PaintAllConcat(g: seq<seq<Tile>>, a: seq<(int, int)>, b: seq<(int, int)>, t: Tile)
    ensures PaintAll(g, a + b, t) == PaintAll(PaintAll(g, a, t), b, t)
  {
    if |b| > 0 {
      var init := b[..|b| - 1];
      PaintAllConcat(g, a, init, t);
      assert (a + b)[..|a + b| - 1] == a + init;
    } else {
      assert a + b == a;
    }
  }

  /**
   * How many of the cells, from the first, are on the grid before the first
   * one that is not: a tool painting them in turn stops there.
   */
  function FirstOff(g: seq<seq<Tile>>, cells: seq<(int, int)>): (k: nat)
    ensures k <= |cells|
    ensures forall i :: 0 <= i < k ==> InGrid(g, cells[i].0, cells[i].1)
    ensures k < |cells| ==> !InGrid(g, cells[k].0, cells[k].1)
    decreases |cells|
  {
    if |cells| == 0 || !InGrid(g, cells[0].0, cells[0].1) then 0
    else
      var k := 1 + FirstOff(g, cells[1..]);
      assert forall i :: 1 <= i < k ==> cells[i] == cells[1..][i - 1];
      k
  }

  /** The count is fixed by the cells on and off the grid. */
  lemma FirstOffIs(g: seq<seq<Tile>>, cells: seq<(int, int)>, k: nat)
    requires k <= |cells|
    requires forall i :: 0 <= i < k ==> InGrid(g, cells[i].0, cells[i].1)
    requires k < |cells| ==> !InGrid(g, cells[k].0, cells[k].1)
    ensures FirstOff(g, cells) == k
  {
  }

  /** The cells of `a` then `b`: the first off the grid is in `a`, or else in `b`. */
  lemma FirstOffConcat(g: seq<seq<Tile>>, a: seq<(int, int)>, b: seq<(int, int)>)
    ensures FirstOff(g, a + b) == if FirstOff(g, a) < |a| then FirstOff(g, a) else |a| + FirstOff(g, b)
  {
    var k := if FirstOff(g, a) < |a| then FirstOff(g, a) else |a| + FirstOff(g, b);
    forall i | 0 <= i < k
      ensures InGrid(g, (a + b)[i].0, (a + b)[i].1)
    {
      if i >= |a| {
        assert (a + b)[i] == b[i - |a|];
      }
    }
    if k < |a + b| && k >= |a| {
      assert (a + b)[k] == b[k - |a|];
    }
    FirstOffIs(g, a + b, k);
  }

  /** Only the grid's shape decides which cells are on it: painting changes nothing there. */
  lemma FirstOffPainted(g: seq<seq<Tile>>, painted: seq<(int, int)>, t: Tile, cells: seq<(int, int)>)
    ensures FirstOff(PaintAll(g, painted, t), cells) == FirstOff(g, cells)
  {
    var h := PaintAll(g, painted, t);
    var k := FirstOff(g, cells);
    assert forall i, j :: InGrid(g, i, j) <==> InGrid(h, i, j);
    FirstOffIs(h, cells, k);
  }

  /**
   * Painting goes on from cells all on the grid: the next one either is on
   * the painted grid too, and is painted, or is where the painting stops
   * and nothing changes.
   */
  lemma FirstOffStep(g: seq<seq<Tile>>, t: Tile, done: seq<(int, int)>, rest: seq<(int, int)>)
    requires FirstOff(g, done) == |done| && |rest| > 0
    ensures var h := PaintAll(g, done, t);
      !InGrid(h, rest[0].0, rest[0].1) ==> SetCell(h, rest[0].0, rest[0].1, t) == h &&
                                           FirstOff(g, done + rest) == |done| && (done + rest)[..|done|] == done
    ensures var h := PaintAll(g, done, t);
      InGrid(h, rest[0].0, rest[0].1) ==> FirstOff(g, done + [rest[0]]) == |done| + 1 &&
                                          SetCell(h, rest[0].0, rest[0].1, t) == PaintAll(g, done + [rest[0]], t)
  {
    var h := PaintAll(g, done, t);
    assert InGrid(h, rest[0].0, rest[0].1) <==> InGrid(g, rest[0].0, rest[0].1);
    FirstOffConcat(g, done, rest);
    FirstOffConcat(g, done, [rest[0]]);
    PaintAllAppend(g, done, rest[0], t);
    assert (done + rest)[..|done|] == done;
  }
}
