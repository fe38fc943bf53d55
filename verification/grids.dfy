/**
 * Converting a grid of tiles row by row, cell by cell, as the nested loops
 * of server/world.py do when a world is loaded (`Tile.from_json` on each
 * cell) and saved or sent (`tile.to_json` on each cell). The first failing
 * cell, in row-major order, ends the conversion with its failure.
 */
module Grids {
  import opened Wrappers

  /** Converting one row: every cell in order, or the first failure. */
  function RowMap<A, B>(f: A -> Result<B>, row: seq<A>): (r: Result<seq<B>>)
    ensures r.Ok? <==> forall k :: 0 <= k < |row| ==> f(row[k]).Ok?
    ensures r.Ok? ==> |r.value| == |row| && forall k :: 0 <= k < |row| ==> r.value[k] == f(row[k]).value
  {
    if |row| == 0 then Ok([])
    else
      var init :- RowMap(f, row[..|row| - 1]);
      var last :- f(row[|row| - 1]);
      Ok(init + [last])
  }

  /** Converting a grid: every row in order, or the first failure. */
  function GridMap<A, B>(f: A -> Result<B>, grid: seq<seq<A>>): (r: Result<seq<seq<B>>>)
    ensures r.Ok? <==> forall i :: 0 <= i < |grid| ==> RowMap(f, grid[i]).Ok?
    ensures r.Ok? ==> |r.value| == |grid| && forall i :: 0 <= i < |grid| ==> r.value[i] == RowMap(f, grid[i]).value
  {
    if |grid| == 0 then Ok([])
    else
      var init :- GridMap(f, grid[..|grid| - 1]);
      var last :- RowMap(f, grid[|grid| - 1]);
      Ok(init + [last])
  }

  /** A failure in a prefix of a row is the failure of the whole row. */
  lemma {:induction false} RowMapPrefixErr<A, B>(f: A -> Result<B>, row: seq<A>, k: nat)
    requires k <= |row| && RowMap(f, row[..k]).Err?
    ensures RowMap(f, row) == RowMap(f, row[..k])
    decreases |row| - k
  {
    if k < |row| {
      var longer := row[..k + 1];
      assert longer[..k] == row[..k];
      assert RowMap(f, longer).Err?;
      RowMapPrefixErr(f, row, k + 1);
    } else {
      assert row[..k] == row;
    }
  }

  /** Converting one more cell of a row: its failure, or its result appended. */
  lemma RowMapStep<A, B>(f: A -> Result<B>, row: seq<A>, k: nat)
    requires k < |row| && RowMap(f, row[..k]).Ok?
    ensures f(row[k]).Err? ==> RowMap(f, row[..k + 1]) == Err(f(row[k]).error)
    ensures f(row[k]).Ok? ==> RowMap(f, row[..k + 1]) == Ok(RowMap(f, row[..k]).value + [f(row[k]).value])
  {
    assert row[..k + 1][..k] == row[..k];
  }

  /** A failure in a prefix of the grid is the failure of the whole grid. */
  lemma {:induction false} GridMapPrefixErr<A, B>(f: A -> Result<B>, grid: seq<seq<A>>, i: nat)
    requires i <= |grid| && GridMap(f, grid[..i]).Err?
    ensures GridMap(f, grid) == GridMap(f, grid[..i])
    decreases |grid| - i
  {
    if i < |grid| {
      var longer := grid[..i + 1];
      assert longer[..i] == grid[..i];
      assert GridMap(f, longer).Err?;
      GridMapPrefixErr(f, grid, i + 1);
    } else {
      assert grid[..i] == grid;
    }
  }

  /** The nested loops: each row's cells converted into a new row, each new row appended. */
  method MapGrid<A, B>(f: A -> Result<B>, grid: seq<seq<A>>) returns (r: Result<seq<seq<B>>>)
    ensures r == GridMap(f, grid)
  {
    var rows: seq<seq<B>> := [];
    var i := 0;
    while i < |grid|
      invariant 0 <= i <= |grid|
      invariant GridMap(f, grid[..i]) == Ok(rows)
    {
      var row: seq<B> := [];
      var k := 0;
      while k < |grid[i]|
        invariant 0 <= k <= |grid[i]|
        invariant RowMap(f, grid[i][..k]) == Ok(row)
      {
        var cell := f(grid[i][k]);
        assert grid[i][..k + 1][..k] == grid[i][..k];
        if cell.Err? {
          RowMapPrefixErr(f, grid[i], k + 1);
          assert grid[..i + 1][..i] == grid[..i];
          GridMapPrefixErr(f, grid, i + 1);
          return Err(cell.error);
        }
        row := row + [cell.value];
        k := k + 1;
      }
      assert grid[i][..k] == grid[i];
      assert grid[..i + 1][..i] == grid[..i];
      rows := rows + [row];
      i := i + 1;
    }
    assert grid[..i] == grid;
    return Ok(rows);
  }

  /**
   * Converting a grid with `g` and back with `f` gives the grid back when
   * `f` undoes `g` on every cell.
   */
  lemma GridRoundTrip<A, B>(g: A -> Result<B>, f: B -> Result<A>, grid: seq<seq<A>>)
    requires forall i, k :: 0 <= i < |grid| && 0 <= k < |grid[i]| ==>
      g(grid[i][k]).Ok? && f(g(grid[i][k]).value) == Ok(grid[i][k])
    ensures GridMap(g, grid).Ok?
    ensures GridMap(f, GridMap(g, grid).value) == Ok(grid)
  {
    var saved := GridMap(g, grid).value;
    forall i | 0 <= i < |grid|
      ensures RowMap(f, saved[i]) == Ok(grid[i])
    {
      assert saved[i] == RowMap(g, grid[i]).value;
      assert RowMap(f, saved[i]).Ok?;
      assert RowMap(f, saved[i]).value == grid[i];
    }
    assert GridMap(f, saved).value == grid;
  }
}
