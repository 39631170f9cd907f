/** Tuning constants of the runner (the CONFIG object of js/game.js).
    Distances are world units, times seconds, speeds world units per second.
    JavaScript numbers are modelled as mathematical reals. */
module Config {
  // Camera & projection
  const CAMERA_DEPTH: real := 140.0
  const HORIZON_RATIO: real := 0.32
  const GROUND_RATIO: real := 0.95
  const ROAD_WIDTH_FACTOR: real := 0.24
  const UNIT_HEIGHT_FACTOR: real := 0.17
  /** Depth below which `project` clamps its z argument. */
  const NEAR_Z: real := 0.1

  // Speed
  const INITIAL_SPEED: real := 65.0
  const MAX_SPEED: real := 200.0
  const SPEED_INCREMENT: real := 0.4
  /** Largest time step a single tick simulates. */
  const MAX_DT: real := 0.05

  // Player
  const JUMP_HEIGHT: real := 2.4
  const JUMP_DURATION: real := 0.6
  const SLIDE_DURATION: real := 0.5
  const LANE_SWITCH_SPEED: real := 10.0
  /** Height the jetpack holds the player at: JUMP_HEIGHT * 1.8. */
  const JETPACK_Y: real := 4.32
  const RUN_FRAME_TIME: real := 0.07
  const RUN_FRAMES: int := 8

  // Objects
  const TRAIN_LENGTH_MIN: real := 8.0
  const TRAIN_LENGTH_MAX: real := 22.0
  const TRAIN_HEIGHT: real := 3.5
  const TRAIN_WIDTH: real := 0.72
  const BARRIER_HEIGHT: real := 0.9
  const BARRIER_HIGH_HEIGHT: real := 2.8
  const BARRIER_HIGH_Y: real := 1.2
  const BARRIER_HIGH_BOX_HEIGHT: real := 1.6
  const BARRIER_DEPTH: real := 0.8
  const BARRIER_WIDTH: real := 0.9
  const POWERUP_Y: real := 1.6

  // Collectibles
  const COIN_HEIGHT: real := 1.2
  const COIN_VALUE: int := 1
  const COIN_SPACING: real := 2.2
  const COIN_ARC_COUNT: int := 7
  const COIN_ARC_LIFT: real := 1.8

  // Spawning
  const SPAWN_AHEAD: real := 280.0
  const SPAWN_GAP_MIN: real := 28.0
  const SPAWN_GAP_MAX: real := 48.0
  const POWERUP_CHANCE: real := 0.06
  const INITIAL_SPAWN_Z: real := 60.0
  const DIFFICULTY_STEP_DISTANCE: real := 400.0
  const DIFFICULTY_STEP: real := 0.15
  const DIFFICULTY_GAP_CAP: real := 1.8

  // Power-up durations
  const MAGNET_DURATION: real := 8.0
  const MULTIPLIER_DURATION: real := 8.0
  const JETPACK_DURATION: real := 6.0

  // Game feedback
  const SHAKE_TIME: real := 0.3
  const NOTIFICATION_DURATION: real := 2.0
  const MAGNET_RANGE: real := 3.0
}
