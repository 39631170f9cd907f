/** The world entities (Train, Barrier, Coin, PowerUp), their constructors and
    their hit boxes, and the player's hit box.  Lane l in {0, 1, 2} sits at
    world x = l - 1. */
module Entities {
  import opened Config
  import opened Geometry

  datatype BarrierKind = Low | High

  datatype PowerUpKind = Magnet | Multiplier | Jetpack

  datatype Train = Train(lane: int, x: real, z: real, length: real, width: real, height: real)

  datatype Barrier = Barrier(lane: int, x: real, z: real, kind: BarrierKind, width: real, height: real)

  datatype Coin = Coin(x: real, y: real, z: real, collected: bool)

  datatype PowerUp = PowerUp(lane: int, x: real, y: real, z: real, kind: PowerUpKind, collected: bool)

  // The player's hit box constants.
  const PLAYER_WIDTH: real := 0.35
  const PLAYER_HEIGHT: real := 1.7
  const PLAYER_SLIDE_HEIGHT: real := 0.6
  const PLAYER_Z: real := -0.5
  const PLAYER_DEPTH: real := 1.0

  predicate ValidLane(lane: int) { 0 <= lane <= 2 }

  function LaneX(lane: int): real { (lane - 1) as real }

  /** new Train(lane, z, length).  The default length of `new Train(lane, z)`
      is drawn by its one caller, the single-train pattern. */
  function NewTrain(lane: int, z: real, length: real): Train {
    Train(lane, LaneX(lane), z, length, TRAIN_WIDTH, TRAIN_HEIGHT)
  }

  function NewBarrier(lane: int, z: real, kind: BarrierKind): Barrier {
    Barrier(lane, LaneX(lane), z, kind, BARRIER_WIDTH, if kind == Low then BARRIER_HEIGHT else BARRIER_HIGH_HEIGHT)
  }

  /** new Coin(x, y, z): a zero height is falsy and falls back to COIN_HEIGHT. */
  function NewCoin(x: real, y: real, z: real): Coin {
    Coin(x, if y == 0.0 then COIN_HEIGHT else y, z, false)
  }

  function NewPowerUp(lane: int, z: real, kind: PowerUpKind): PowerUp {
    PowerUp(lane, LaneX(lane), POWERUP_Y, z, kind, false)
  }

  /** Train.getHitbox: the train's footprint, standing on the ground. */
  function TrainHitbox(t: Train): (b: Box)
    ensures b.x + b.width / 2.0 == t.x && b.width == t.width
    ensures b.y == 0.0 && b.height == t.height
    ensures b.z == t.z && b.depth == t.length
  {
    Box(t.x - t.width / 2.0, 0.0, t.z, t.width, t.height, t.length)
  }

  /** Barrier.getHitbox: a high barrier's box floats above the ground, a low
      barrier's box stands on it. */
  function BarrierHitbox(b: Barrier): (r: Box)
    ensures r.x + r.width / 2.0 == b.x && r.width == b.width
    ensures r.z == b.z && r.depth == BARRIER_DEPTH
    ensures b.kind == High ==> r.y == BARRIER_HIGH_Y && r.height == BARRIER_HIGH_BOX_HEIGHT
    ensures b.kind == Low ==> r.y == 0.0 && r.height == b.height
  {
    if b.kind == High then
      Box(b.x - b.width / 2.0, BARRIER_HIGH_Y, b.z, b.width, BARRIER_HIGH_BOX_HEIGHT, BARRIER_DEPTH)
    else
      Box(b.x - b.width / 2.0, 0.0, b.z, b.width, b.height, BARRIER_DEPTH)
  }

  /** Player.getHitbox: centred on the player's x, lower when sliding, and
      always covering depths -0.5 .. 0.5 around the player. */
  function PlayerBox(x: real, y: real, sliding: bool): (b: Box)
    ensures b.x + b.width / 2.0 == x && b.width == PLAYER_WIDTH
    ensures b.y == y
    ensures b.height == (if sliding then PLAYER_SLIDE_HEIGHT else PLAYER_HEIGHT)
    ensures b.z == PLAYER_Z && b.z + b.depth == -PLAYER_Z
  {
    Box(x - PLAYER_WIDTH / 2.0, y, PLAYER_Z, PLAYER_WIDTH, if sliding then PLAYER_SLIDE_HEIGHT else PLAYER_HEIGHT, PLAYER_DEPTH)
  }

  /** A freshly built barrier's box reaches exactly up to its height, for
      both kinds. */
  lemma BarrierBoxReachesItsHeight(lane: int, z: real, kind: BarrierKind)
    ensures var r := BarrierHitbox(NewBarrier(lane, z, kind));
            r.y + r.height == NewBarrier(lane, z, kind).height
  {
  }

  /** A sliding player on the ground passes under every high barrier. */
  lemma SlidePassesUnderHighBarrier(x: real, lane: int, z: real)
    ensures !BoxesOverlap(PlayerBox(x, 0.0, true), BarrierHitbox(NewBarrier(lane, z, High)))
  {
  }

  /** A running player on the ground, in the barrier's lane and at its depth,
      is hit by a high barrier: it must be slid under. */
  lemma RunningHitsHighBarrier(lane: int, z: real)
    requires PLAYER_Z - BARRIER_DEPTH < z < -PLAYER_Z
    ensures BoxesOverlap(PlayerBox(LaneX(lane), 0.0, false), BarrierHitbox(NewBarrier(lane, z, High)))
  {
  }

  /** A player at least a low barrier's height above the ground clears it. */
  lemma JumpClearsLowBarrier(x: real, y: real, sliding: bool, lane: int, z: real)
    requires y >= BARRIER_HEIGHT
    ensures !BoxesOverlap(PlayerBox(x, y, sliding), BarrierHitbox(NewBarrier(lane, z, Low)))
  {
  }

  /** A player centred on one lane never touches a train on another lane. */
  lemma OtherLaneTrainMisses(playerLane: int, y: real, sliding: bool, t: Train)
    requires ValidLane(playerLane) && ValidLane(t.lane) && playerLane != t.lane
    requires t == NewTrain(t.lane, t.z, t.length)
    ensures !BoxesOverlap(PlayerBox(LaneX(playerLane), y, sliding), TrainHitbox(t))
  {
  }

  /** A player centred on one lane never touches a barrier on another lane. */
  lemma OtherLaneBarrierMisses(playerLane: int, y: real, sliding: bool, b: Barrier)
    requires ValidLane(playerLane) && ValidLane(b.lane) && playerLane != b.lane
    requires b == NewBarrier(b.lane, b.z, b.kind)
    ensures !BoxesOverlap(PlayerBox(LaneX(playerLane), y, sliding), BarrierHitbox(b))
  {
  }

  /** A player centred on a train's lane and below the train's roof is hit
      exactly when the train's extent covers part of the player's depth. */
  lemma TrainInLaneHitsIff(y: real, sliding: bool, t: Train)
    requires t == NewTrain(t.lane, t.z, t.length) && t.length > 0.0
    requires 0.0 <= y < TRAIN_HEIGHT
    ensures BoxesOverlap(PlayerBox(t.x, y, sliding), TrainHitbox(t)) <==>
            PLAYER_Z - t.length < t.z < -PLAYER_Z
  {
  }
}
