/**
 * The numeric configuration the terrain, the car and the screens rely on.
 * Every constant keeps the arithmetic by which it is derived.
 */
module Constants {

  const SCREEN_WIDTH: real := 800.0
  const SCREEN_HEIGHT: real := 600.0

  const CAR_ACCELERATION: real := 0.002
  const CAR_MAX_SPEED: real := 2.0
  const CAR_MAX_REVERSE_SPEED: real := CAR_MAX_SPEED / 2.0
  const MAX_FUEL: real := 100.0
  const FUEL_CONSUMPTION: real := 0.11
  const FUEL_CANISTER_VOLUME: real := MAX_FUEL / 2.0

  /** Horizontal distance between two terrain height samples. */
  const MAP_UNIT: real := 50.0
  /** Width of the terrain block generated by one streaming step. */
  const MAP_BLOCK_SIZE: real := SCREEN_WIDTH * 2.0
  /** Width of the live terrain window. */
  const MAP_SIZE: real := MAP_BLOCK_SIZE * 2.5
  const MAX_TERRAIN_HEIGHT: real := SCREEN_HEIGHT * 0.9

  /** Number of samples in one generated block. */
  const BLOCK_POINTS: nat := 32
  /** Number of samples in the live terrain window. */
  const WINDOW_POINTS: nat := 80

  /** The derived values, and that both terrain widths are whole numbers of samples. */
  lemma DerivedConstants()
    ensures MAP_BLOCK_SIZE == 2.0 * SCREEN_WIDTH == 1600.0
    ensures MAP_BLOCK_SIZE == BLOCK_POINTS as real * MAP_UNIT
    ensures MAP_SIZE == 2.5 * MAP_BLOCK_SIZE == 4000.0
    ensures MAP_SIZE == WINDOW_POINTS as real * MAP_UNIT
    ensures MAX_TERRAIN_HEIGHT == 540.0 && 0.0 < MAX_TERRAIN_HEIGHT < SCREEN_HEIGHT
    ensures CAR_MAX_REVERSE_SPEED == CAR_MAX_SPEED / 2.0 == 1.0
    ensures FUEL_CANISTER_VOLUME == MAX_FUEL / 2.0 == 50.0
  {
  }
}
