/** Named constants of the scene (data.h). The single-precision literals of
    the C++ code are read as the decimal written in the literal (no
    single-precision rounding). */
module Config {

  const PLAYER_SIZE: real := 0.05
  const TERRAIN_SIZE: real := 1.0

  const CAMERA_ELEVATION_MAX: real := 50.0

  const PLAYER_SPEED_INCREMENT: real := 0.2
  const PLAYER_UP_SPEED_INCREMENT: real := 0.1
  const PLAYER_SPEED_MAX: real := 0.4
  const PLAYER_SPEED_MIN: real := -0.2
  const PLAYER_VIEW_ANGLE_DELTA: real := 2.0

  /** Upper height guard of the player's vertical motion. */
  const MAX_HEIGHT: real := 0.15
  /** Declared next to MAX_HEIGHT, but no update ever consults it. */
  const MIN_HEIGHT: real := -0.15

  /** Slots of the key map, in the order of the key enumeration. */
  const KEY_LEFT_ARROW: nat := 0
  const KEY_RIGHT_ARROW: nat := 1
  const KEY_UP_ARROW: nat := 2
  const KEY_DOWN_ARROW: nat := 3
  const KEY_SPACE: nat := 4
  const KEY_B: nat := 5
  const KEY_SHIFT_L: nat := 6
  const KEYS_COUNT: nat := 7
}
