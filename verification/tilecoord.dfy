/**
 * Tile coordinates and their pixel positions (server/tilecoord.py).
 */
module TileCoords {
  import opened ServerGeometry
  import ServerConfig

  datatype TileCoord = TileCoord(blockX: int, blockY: int)

  /** Python's `int(x)` on a float: truncation toward zero. */
  function Trunc(r: real): (i: int)
    ensures r >= 0.0 ==> i as real <= r < i as real + 1.0
    ensures r < 0.0 ==> i as real - 1.0 < r <= i as real
  {
    if r >= 0.0 then r.Floor else -((-r).Floor)
  }

  /** Python's `//` by a positive divisor rounds down, as Dafny's `/` on int does. */
  function FloorDiv(a: int, b: int): (q: int)
    requires b > 0
    ensures q * b <= a < q * b + b
  {
    a / b
  }

  /** `to_pos`: the upper-left corner of the tile. */
  function ToPos(tc: TileCoord): Vec
  {
    Vec((tc.blockX * ServerConfig.BLOCK_WIDTH) as real, (tc.blockY * ServerConfig.BLOCK_WIDTH) as real)
  }

  /** `(BLOCK_WIDTH - PLAYER_WIDTH) / 2` with true division: 2.0. */
  const SPAWN_OFFSET: real := (ServerConfig.BLOCK_WIDTH - ServerConfig.PLAYER_WIDTH) as real / 2.0

  /** `to_spawn_pos`: where a player spawns, centred in the tile. */
  function ToSpawnPos(tc: TileCoord): Vec
  {
    Vec((tc.blockX * ServerConfig.BLOCK_WIDTH) as real + SPAWN_OFFSET,
        (tc.blockY * ServerConfig.BLOCK_WIDTH) as real + SPAWN_OFFSET)
  }

  /** `pos_to_tile_coord`: truncate each component, then floor-divide by BLOCK_WIDTH. */
  function PosToTileCoord(pos: Vec): TileCoord
  {
    TileCoord(FloorDiv(Trunc(pos.x), ServerConfig.BLOCK_WIDTH),
              FloorDiv(Trunc(pos.y), ServerConfig.BLOCK_WIDTH))
  }

  lemma FloorDivExact(k: int, off: int)
    requires 0 <= off < ServerConfig.BLOCK_WIDTH
    ensures FloorDiv(k * ServerConfig.BLOCK_WIDTH + off, ServerConfig.BLOCK_WIDTH) == k
  {
    var q := FloorDiv(k * ServerConfig.BLOCK_WIDTH + off, ServerConfig.BLOCK_WIDTH);
    assert q * 32 <= k * 32 + off < q * 32 + 32;
  }

  /** The corner of a tile lies in that tile, for every tile coordinate. */
  lemma {:induction false} ToPosRoundTrip(tc: TileCoord)
    ensures PosToTileCoord(ToPos(tc)) == tc
  {
    assert ((tc.blockX * 32) as real).Floor == tc.blockX * 32;
    FloorDivExact(tc.blockX, 0);
    FloorDivExact(tc.blockY, 0);
  }

  /** The spawn position of a tile lies in that tile, for every tile coordinate. */
  lemma {:induction false} ToSpawnPosRoundTrip(tc: TileCoord)
    ensures PosToTileCoord(ToSpawnPos(tc)) == tc
    ensures ToSpawnPos(tc) == Add(ToPos(tc), Vec(2.0, 2.0))
  {
    var p := ToSpawnPos(tc);
    assert p.x == (tc.blockX * 32 + 2) as real;
    assert p.y == (tc.blockY * 32 + 2) as real;
    FloorDivExact(tc.blockX, 2);
    FloorDivExact(tc.blockY, 2);
  }

  /** A non-negative position lies inside the tile `pos_to_tile_coord` names. */
  lemma {:induction false} PosInItsTile(pos: Vec)
    requires pos.x >= 0.0 && pos.y >= 0.0
    ensures var c := ToPos(PosToTileCoord(pos));
      c.x <= pos.x < c.x + 32.0 && c.y <= pos.y < c.y + 32.0
  {
    var tx := Trunc(pos.x);
    var ty := Trunc(pos.y);
    var qx := FloorDiv(tx, 32);
    var qy := FloorDiv(ty, 32);
    assert (qx * 32) as real <= tx as real;
    assert (qy * 32) as real <= ty as real;
    assert tx as real + 1.0 <= (qx * 32 + 32) as real;
    assert ty as real + 1.0 <= (qy * 32 + 32) as real;
  }

  /** Truncation rounds a small negative coordinate up to tile 0 rather than -1. */
  lemma NegativeTruncation()
    ensures PosToTileCoord(Vec(-0.5, -0.5)) == TileCoord(0, 0)
  {
    assert Trunc(-0.5) == 0;
  }
}
