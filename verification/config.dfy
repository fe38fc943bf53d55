/** Server-side constants (server/config.py). */
module ServerConfig {
  /** Width and height of one block, in pixels. */
  const BLOCK_WIDTH: int := 32
  /** Width and height of a player, in pixels. */
  const PLAYER_WIDTH: int := 28
  /** Player speed, in pixels per second. */
  const PLAYER_SPEED: int := BLOCK_WIDTH * 3
  const SPEED_MULTIPLIER: int := 2
  /** Longest time, in seconds, that one move message may cover. */
  const MAX_MOVE_DT: real := 0.1
}

/** Client-side constants (js/index/config.mjs). */
module ClientConfig {
  const BLOCK_WIDTH: int := 32
  const PLAYER_WIDTH: int := 28
  const PLAYER_SPEED: int := BLOCK_WIDTH * 3
  const SPEED_MULTIPLIER: int := 2
}
