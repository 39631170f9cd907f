/** The game proper: the per-frame update (speed, distance, score, timers),
    coin and power-up pickup, obstacle collisions, power-up activation and
    the coin magnet.  The player and the world are the objects of
    PlayerModel and WorldModel; the game changes them in place. */
module GameModel {
  import opened Config
  import opened Geometry
  import opened Entities
  import opened PlayerModel
  import opened Spawning
  import opened WorldModel

  /** The high score after a run that scored `score`: replaced only by a
      strictly better score. */
  function Best(high: int, score: int): (r: int)
    ensures r >= high && r >= score
    ensures r == high || r == score
    ensures r == score <==> score >= high
  {
    if score > high then score else high
  }

  /** The screens of the game; Over is the game-over screen. */
  datatype GameState = Loading | Menu | Playing | Paused | Over

  // ---------------------------------------------------------------
  // Speed and score
  // ---------------------------------------------------------------

  /** Math.min(dt, MAX_DT): a long frame counts as a short one. */
  function CapDt(dt: real): (r: real)
    ensures r <= dt && r <= MAX_DT
    ensures r == dt || r == MAX_DT
  {
    Min(dt, MAX_DT)
  }

  /** The speed after one frame: it grows by SPEED_INCREMENT per second up
      to MAX_SPEED. */
  function NextSpeed(speed: real, dt: real): (r: real)
    ensures r <= MAX_SPEED
    ensures speed <= MAX_SPEED && dt >= 0.0 ==> speed <= r
    ensures speed + SPEED_INCREMENT * dt <= MAX_SPEED ==> r == speed + SPEED_INCREMENT * dt
  {
    Min(MAX_SPEED, speed + SPEED_INCREMENT * dt)
  }

  /** The speed after n frames of the same length. */
  function SpeedAfter(speed: real, dt: real, n: nat): real {
    if n == 0 then speed else NextSpeed(SpeedAfter(speed, dt, n - 1), dt)
  }

  /** With frames of equal length the speed ramps linearly until it is
      capped at MAX_SPEED. */
  lemma {:induction false} SpeedAfterRamps(speed: real, dt: real, n: nat)
    requires speed <= MAX_SPEED && dt >= 0.0
    ensures SpeedAfter(speed, dt, n) == Min(MAX_SPEED, speed + (n as real) * SPEED_INCREMENT * dt)
  {
    if n > 0 {
      SpeedAfterRamps(speed, dt, n - 1);
      MulNonNegative(SPEED_INCREMENT, dt);
      assert (n as real) * SPEED_INCREMENT * dt == ((n - 1) as real) * SPEED_INCREMENT * dt + SPEED_INCREMENT * dt;
    }
  }

  /** Math.floor(speed * dt * mult), mult = 2 under the score multiplier. */
  function ScoreGain(speed: real, dt: real, doubled: bool): int {
    (speed * dt * (if doubled then 2.0 else 1.0)).Floor
  }

  /** A frame never loses score, and the multiplier at least doubles what a
      frame earns (at most one point more than double, from the rounding). */
  lemma ScoreGainBounds(speed: real, dt: real)
    requires speed >= 0.0 && dt >= 0.0
    ensures ScoreGain(speed, dt, false) >= 0
    ensures 2 * ScoreGain(speed, dt, false) <= ScoreGain(speed, dt, true) <= 2 * ScoreGain(speed, dt, false) + 1
  {
    var a := speed * dt;
    MulNonNegative(speed, dt);
    assert speed * dt * 1.0 == a && speed * dt * 2.0 == 2.0 * a;
    var f := a.Floor;
    assert (f as real) <= a < (f as real) + 1.0;
    assert 2.0 * (f as real) <= 2.0 * a < 2.0 * (f as real) + 2.0;
  }

  // ---------------------------------------------------------------
  // Coins
  // ---------------------------------------------------------------

  /** The coin pickup test: an uncollected coin within 0.5 across, 0.8 of
      the player's middle (y + 0.9) and 1.5 of depth 0.5. */
  predicate CoinTouches(c: Coin, px: real, py: real) {
    !c.collected && Abs(c.x - px) < 0.5 && Abs(c.y - (py + 0.9)) < 0.8 && Abs(c.z - 0.5) < 1.5
  }

  function CollectCoin(c: Coin, px: real, py: real): Coin {
    if CoinTouches(c, px, py) then c.(collected := true) else c
  }

  /** The coins after the pickup pass: the touching ones marked collected,
      everything else as it was. */
  function CollectCoins(cs: seq<Coin>, px: real, py: real): seq<Coin>
  {
    seq(|cs|, i requires 0 <= i < |cs| => CollectCoin(cs[i], px, py))
  }

  /** How many coins of `cs` the pass picks up. */
  function Touching(cs: seq<Coin>, px: real, py: real): nat {
    if |cs| == 0 then 0
    else Touching(cs[..|cs| - 1], px, py) + (if CoinTouches(cs[|cs| - 1], px, py) then 1 else 0)
  }

  /** How many coins of `cs` are collected. */
  function CollectedCount(cs: seq<Coin>): nat {
    if |cs| == 0 then 0
    else CollectedCount(cs[..|cs| - 1]) + (if cs[|cs| - 1].collected then 1 else 0)
  }

  /** The pass collects exactly the touching coins: the collected count
      rises by the number of coins it picks up. */
  lemma {:induction false} CollectCoinsCounts(cs: seq<Coin>, px: real, py: real)
    ensures CollectedCount(CollectCoins(cs, px, py)) == CollectedCount(cs) + Touching(cs, px, py)
    decreases |cs|
  {
    if |cs| > 0 {
      var n := |cs| - 1;
      CollectCoinsCounts(cs[..n], px, py);
      assert CollectCoins(cs, px, py)[..n] == CollectCoins(cs[..n], px, py);
    }
  }

  /** A coin is never counted twice: after one pass nothing touches any
      more, and a second pass changes nothing. */
  lemma {:induction false} CollectCoinsOnce(cs: seq<Coin>, px: real, py: real)
    ensures Touching(CollectCoins(cs, px, py), px, py) == 0
    ensures CollectCoins(CollectCoins(cs, px, py), px, py) == CollectCoins(cs, px, py)
    decreases |cs|
  {
    if |cs| > 0 {
      var n := |cs| - 1;
      CollectCoinsOnce(cs[..n], px, py);
      assert CollectCoins(cs, px, py)[..n] == CollectCoins(cs[..n], px, py);
    }
  }

  // ---------------------------------------------------------------
  // Power-ups
  // ---------------------------------------------------------------

  /** The power-up pickup test: within 0.5 across, 1.0 of y + 1 and 1.5 of
      depth 0.5. */
  predicate PowerUpTouches(p: PowerUp, px: real, py: real) {
    !p.collected && Abs(p.x - px) < 0.5 && Abs(p.y - (py + 1.0)) < 1.0 && Abs(p.z - 0.5) < 1.5
  }

  function PickUp(p: PowerUp, px: real, py: real): PowerUp {
    if PowerUpTouches(p, px, py) then p.(collected := true) else p
  }

  function PickUpAll(ps: seq<PowerUp>, px: real, py: real): seq<PowerUp>
  {
    seq(|ps|, i requires 0 <= i < |ps| => PickUp(ps[i], px, py))
  }

  function Duration(kind: PowerUpKind): real {
    match kind
    case Magnet => MAGNET_DURATION
    case Multiplier => MULTIPLIER_DURATION
    case Jetpack => JETPACK_DURATION
  }

  /** The banner each power-up shows. */
  function Message(kind: PowerUpKind): string {
    match kind
    case Magnet => "COIN MAGNET!"
    case Multiplier => "\U{D7}2 SCORE!"
    case Jetpack => "JETPACK!"
  }

  /** activatePowerUp on one buff: the buff of `kind` is switched on with its
      full duration; a buff of another kind keeps its state. */
  function Activated(kind: PowerUpKind, buff: PowerUpKind, t: Timer): (r: Timer)
    ensures kind == buff ==> r.on && r.time == Duration(buff)
    ensures kind != buff ==> r == t
  {
    if kind == buff then Timer(true, Duration(buff)) else t
  }

  /** The buff of kind `buff` after the pickup pass over `ps`, starting
      from `t`. */
  function BuffAfter(ps: seq<PowerUp>, px: real, py: real, buff: PowerUpKind, t: Timer): Timer {
    if |ps| == 0 then t
    else
      var before := BuffAfter(ps[..|ps| - 1], px, py, buff, t);
      var p := ps[|ps| - 1];
      if PowerUpTouches(p, px, py) then Activated(p.kind, buff, before) else before
  }

  /** A power-up of kind `buff` is picked up in the pass. */
  predicate PicksUp(ps: seq<PowerUp>, px: real, py: real, buff: PowerUpKind) {
    exists j :: 0 <= j < |ps| && PowerUpTouches(ps[j], px, py) && ps[j].kind == buff
  }

  /** A power-up is picked up once: a second pass over the list the first
      pass left changes nothing and picks up no power-up of any kind. */
  lemma PickUpAllOnce(ps: seq<PowerUp>, px: real, py: real)
    ensures PickUpAll(PickUpAll(ps, px, py), px, py) == PickUpAll(ps, px, py)
    ensures forall k :: !PicksUp(PickUpAll(ps, px, py), px, py, k)
  {
  }

  /** After the pass a buff runs for its full duration exactly when a
      power-up of its kind was picked up; otherwise it is as it was. */
  lemma {:induction false} BuffAfterIff(ps: seq<PowerUp>, px: real, py: real, buff: PowerUpKind, t: Timer)
    ensures PicksUp(ps, px, py, buff) ==> BuffAfter(ps, px, py, buff, t) == Timer(true, Duration(buff))
    ensures !PicksUp(ps, px, py, buff) ==> BuffAfter(ps, px, py, buff, t) == t
    decreases |ps|
  {
    if |ps| > 0 {
      var n := |ps| - 1;
      var front := ps[..n];
      BuffAfterIff(front, px, py, buff, t);
      if PicksUp(ps, px, py, buff) && !(PowerUpTouches(ps[n], px, py) && ps[n].kind == buff) {
        var j :| 0 <= j < |ps| && PowerUpTouches(ps[j], px, py) && ps[j].kind == buff;
        assert front[j] == ps[j];
      }
      if PicksUp(front, px, py, buff) {
        var j :| 0 <= j < |front| && PowerUpTouches(front[j], px, py) && front[j].kind == buff;
        assert ps[j] == front[j];
      }
    }
  }

  /** The pickup pass keeps every buff timer within its duration, and a
      buff it changes is switched on. */
  lemma BuffsStayWithin(ps: seq<PowerUp>, px: real, py: real, m: Timer, x: Timer, j: Timer)
    requires Within(m, MAGNET_DURATION) && Within(x, MULTIPLIER_DURATION) && Within(j, JETPACK_DURATION)
    ensures Within(BuffAfter(ps, px, py, Magnet, m), MAGNET_DURATION)
    ensures Within(BuffAfter(ps, px, py, Multiplier, x), MULTIPLIER_DURATION)
    ensures var r := BuffAfter(ps, px, py, Jetpack, j); Within(r, JETPACK_DURATION) && (r == j || r.on)
  {
    BuffAfterIff(ps, px, py, Magnet, m);
    BuffAfterIff(ps, px, py, Multiplier, x);
    BuffAfterIff(ps, px, py, Jetpack, j);
  }

  /** The banner and its timer after the pickup pass: the banner of the last
      power-up picked up, shown for NOTIFICATION_DURATION. */
  function NoticeAfter(ps: seq<PowerUp>, px: real, py: real, notice: (string, real)): (r: (string, real))
    ensures r == notice || (r.1 == NOTIFICATION_DURATION && exists k :: r.0 == Message(k))
  {
    if |ps| == 0 then notice
    else
      var p := ps[|ps| - 1];
      if PowerUpTouches(p, px, py) then (Message(p.kind), NOTIFICATION_DURATION)
      else NoticeAfter(ps[..|ps| - 1], px, py, notice)
  }

  /** Picking up a jetpack makes the player proof against obstacles in the
      very frame of the pickup. */
  lemma JetpackPickupShields(ps: seq<PowerUp>, px: real, py: real, t: Timer)
    requires PicksUp(ps, px, py, Jetpack)
    ensures BuffAfter(ps, px, py, Jetpack, t).on
  {
    BuffAfterIff(ps, px, py, Jetpack, t);
  }

  // ---------------------------------------------------------------
  // Obstacles
  // ---------------------------------------------------------------

  /** Some train or barrier box overlaps the player's box. */
  predicate HitsObstacle(box: Box, trains: seq<Train>, barriers: seq<Barrier>) {
    || (exists i :: 0 <= i < |trains| && BoxesOverlap(box, TrainHitbox(trains[i])))
    || (exists i :: 0 <= i < |barriers| && BoxesOverlap(box, BarrierHitbox(barriers[i])))
  }

  // ---------------------------------------------------------------
  // The coin magnet
  // ---------------------------------------------------------------

  /** An uncollected coin less than MAGNET_RANGE across from the player and
      between 0 and twice that far ahead. */
  predicate InMagnetRange(c: Coin, px: real) {
    !c.collected && Abs(c.x - px) < MAGNET_RANGE && 0.0 < c.z < MAGNET_RANGE * 2.0
  }

  /** One frame of the magnet on one coin: 15% of the way to the player's x,
      10% of the way to depth 0. */
  function Pull(c: Coin, px: real): Coin {
    if InMagnetRange(c, px) then c.(x := Lerp(c.x, px, 0.15), z := Lerp(c.z, 0.0, 0.1)) else c
  }

  function Magnetised(cs: seq<Coin>, px: real): seq<Coin>
  {
    seq(|cs|, i requires 0 <= i < |cs| => Pull(cs[i], px))
  }

  /** A coin in range comes strictly nearer on both axes (its distance
      across shrinks to 85%, its depth to 90%, still ahead of the player);
      a coin out of range does not move. */
  lemma PullDrawsIn(c: Coin, px: real)
    ensures var r := Pull(c, px);
            && r.y == c.y && r.collected == c.collected
            && (InMagnetRange(c, px) ==>
                  && Abs(r.x - px) == 0.85 * Abs(c.x - px)
                  && r.z == 0.9 * c.z && 0.0 < r.z < c.z)
            && (!InMagnetRange(c, px) ==> r == c)
  {
    if InMagnetRange(c, px) {
      var r := Pull(c, px);
      assert r.x - px == 0.85 * (c.x - px);
    }
  }

  // ---------------------------------------------------------------
  // The game
  // ---------------------------------------------------------------

  class Game {
    const player: Player
    const world: WorldGenerator
    var state: GameState
    var score: int
    var coins: int
    var distance: real
    var speed: real
    var scrollOffset: real
    var time: real
    var shakeTime: real
    var notification: string
    var notificationTimer: real
    var highScore: int
    var totalCoins: int

    /** The player and the world are valid, the speed stays in its range,
        score and coins never go negative, the game's distance is the
        world's, and the game-over screen shows exactly when the player is
        dead. */
    ghost predicate Valid()
      reads this`speed, this`score, this`coins, this`distance, this`scrollOffset, this`state, world
      reads player`lane, player`targetLane, player`y, player`jump, player`slide, player`runFrame, player`runTimer
      reads player`magnet, player`multiplier, player`jetpack, player`dead
    {
      Consistent() && distance == world.totalDist
    }

    /** Valid apart from the tie between the game's and the world's
        distance, which holds again at the end of each frame. */
    ghost predicate Consistent()
      reads this`speed, this`score, this`coins, this`distance, this`scrollOffset, this`state, world
      reads player`lane, player`targetLane, player`y, player`jump, player`slide, player`runFrame, player`runTimer
      reads player`magnet, player`multiplier, player`jetpack, player`dead
    {
      && player.Valid() && world.Valid()
      && INITIAL_SPEED <= speed <= MAX_SPEED
      && score >= 0 && coins >= 0
      && distance == scrollOffset
      && (state == Over <==> player.dead)
    }

    /** new Game(): the stored high score and coin total are parameters. */
    constructor (storedHighScore: int, storedCoins: int)
      ensures Valid() && fresh(player) && fresh(world)
      ensures state == Loading && score == 0 && coins == 0 && speed == INITIAL_SPEED
      ensures distance == 0.0 && time == 0.0 && shakeTime == 0.0
      ensures notification == "" && notificationTimer == 0.0
      ensures highScore == storedHighScore && totalCoins == storedCoins
      ensures player.Initial() && world.Contents() == NoObjects
    {
      player := new Player();
      world := new WorldGenerator();
      state := Loading;
      score, coins := 0, 0;
      distance, speed, scrollOffset, time := 0.0, INITIAL_SPEED, 0.0, 0.0;
      shakeTime := 0.0;
      notification, notificationTimer := "", 0.0;
      highScore, totalCoins := storedHighScore, storedCoins;
    }

    /** Game.startGame: a new run from the start; the clock, the shake, the
        high score and the coin total carry over. */
    method StartGame()
      modifies this`state, this`score, this`coins, this`distance, this`speed, this`scrollOffset
      modifies this`notification, this`notificationTimer, player, world
      ensures Valid()
      ensures state == Playing && score == 0 && coins == 0 && distance == 0.0 && speed == INITIAL_SPEED
      ensures notification == "" && notificationTimer == 0.0
      ensures player.Initial()
      ensures world.Contents() == NoObjects && world.nextSpawnZ == INITIAL_SPAWN_Z
      ensures time == old(time) && shakeTime == old(shakeTime)
      ensures highScore == old(highScore) && totalCoins == old(totalCoins)
    {
      ResetRun();
      player.Reset();
      world.Reset();
    }

    /** The game's own part of startGame. */
    method ResetRun()
      modifies this`state, this`score, this`coins, this`distance, this`speed, this`scrollOffset
      modifies this`notification, this`notificationTimer
      ensures state == Playing && score == 0 && coins == 0 && distance == 0.0 && scrollOffset == 0.0
      ensures speed == INITIAL_SPEED && notification == "" && notificationTimer == 0.0
    {
      state := Playing;
      score, coins := 0, 0;
      distance, speed, scrollOffset := 0.0, INITIAL_SPEED, 0.0;
      notification, notificationTimer := "", 0.0;
    }

    /** Game.gameOver: the game-over screen, a screen shake, the best score
        kept and the run's coins banked. */
    method GameOver()
      modifies this`state, this`shakeTime, this`highScore, this`totalCoins
      ensures state == Over && shakeTime == SHAKE_TIME
      ensures highScore == Best(old(highScore), score)
      ensures highScore >= score && highScore >= old(highScore)
      ensures totalCoins == old(totalCoins) + coins
    {
      state := Over;
      shakeTime := SHAKE_TIME;
      if score > highScore {
        highScore := score;
      }
      totalCoins := totalCoins + coins;
    }

    method ShowNotification(text: string, duration: real)
      modifies this`notification, this`notificationTimer
      ensures notification == text && notificationTimer == duration
    {
      notification := text;
      notificationTimer := duration;
    }

    /** Game.activatePowerUp: the buff of `kind` runs for its full duration
        again, the other buffs are untouched, and its banner shows. */
    method ActivatePowerUp(kind: PowerUpKind)
      modifies player`magnet, player`multiplier, player`jetpack, this`notification, this`notificationTimer
      ensures player.magnet == Activated(kind, Magnet, old(player.magnet))
      ensures player.multiplier == Activated(kind, Multiplier, old(player.multiplier))
      ensures player.jetpack == Activated(kind, Jetpack, old(player.jetpack))
      ensures notification == Message(kind) && notificationTimer == NOTIFICATION_DURATION
    {
      match kind
      case Magnet =>
        player.magnet := Timer(true, MAGNET_DURATION);
        ShowNotification("COIN MAGNET!", NOTIFICATION_DURATION);
      case Multiplier =>
        player.multiplier := Timer(true, MULTIPLIER_DURATION);
        ShowNotification("\U{D7}2 SCORE!", NOTIFICATION_DURATION);
      case Jetpack =>
        player.jetpack := Timer(true, JETPACK_DURATION);
        ShowNotification("JETPACK!", NOTIFICATION_DURATION);
    }
  
    /** The coin half of checkCollisions: every touching coin is marked
        collected and counts COIN_VALUE once. */
    method PickUpCoins()
      modifies world`coins, this`coins
      ensures world.coins == CollectCoins(old(world.coins), player.x, player.y)
      ensures coins == old(coins) + COIN_VALUE * Touching(old(world.coins), player.x, player.y)
    {
      var px, py := player.x, player.y;
      ghost var cs := world.coins;
      for i := 0 to |world.coins|
        invariant |world.coins| == |cs|
        invariant forall j :: 0 <= j < |cs| ==> world.coins[j] == if j < i then CollectCoin(cs[j], px, py) else cs[j]
        invariant coins == old(coins) + COIN_VALUE * Touching(cs[..i], px, py)
      {
        assert cs[..i + 1][..i] == cs[..i];
        var coin := world.coins[i];
        if coin.collected {
          continue;
        }
        if Abs(coin.x - px) < 0.5 && Abs(coin.y - (py + 0.9)) < 0.8 && Abs(coin.z - 0.5) < 1.5 {
          world.coins := world.coins[i := coin.(collected := true)];
          coins := coins + COIN_VALUE;
        }
      }
      assert cs[..|cs|] == cs;
      assert world.coins == CollectCoins(cs, px, py);
    }

    /** The power-up half of checkCollisions: every touching power-up is
        marked collected and activated, in list order. */
    method PickUpPowerUps()
      modifies world`powerups, player`magnet, player`multiplier, player`jetpack
      modifies this`notification, this`notificationTimer
      ensures world.powerups == PickUpAll(old(world.powerups), player.x, player.y)
      ensures player.magnet == BuffAfter(old(world.powerups), player.x, player.y, Magnet, old(player.magnet))
      ensures player.multiplier == BuffAfter(old(world.powerups), player.x, player.y, Multiplier, old(player.multiplier))
      ensures player.jetpack == BuffAfter(old(world.powerups), player.x, player.y, Jetpack, old(player.jetpack))
      ensures notification == NoticeAfter(old(world.powerups), player.x, player.y, (old(notification), old(notificationTimer))).0
      ensures notificationTimer == NoticeAfter(old(world.powerups), player.x, player.y, (old(notification), old(notificationTimer))).1
    {
      var px, py := player.x, player.y;
      ghost var ps := world.powerups;
      ghost var m0, x0, j0 := player.magnet, player.multiplier, player.jetpack;
      ghost var notice := (notification, notificationTimer);
      for i := 0 to |world.powerups|
        invariant |world.powerups| == |ps|
        invariant forall j :: 0 <= j < |ps| ==> world.powerups[j] == if j < i then PickUp(ps[j], px, py) else ps[j]
        invariant player.magnet == BuffAfter(ps[..i], px, py, Magnet, m0)
        invariant player.multiplier == BuffAfter(ps[..i], px, py, Multiplier, x0)
        invariant player.jetpack == BuffAfter(ps[..i], px, py, Jetpack, j0)
        invariant notification == NoticeAfter(ps[..i], px, py, notice).0
        invariant notificationTimer == NoticeAfter(ps[..i], px, py, notice).1
      {
        assert ps[..i + 1][..i] == ps[..i];
        var pu := world.powerups[i];
        if pu.collected {
          continue;
        }
        if Abs(pu.x - px) < 0.5 && Abs(pu.y - (py + 1.0)) < 1.0 && Abs(pu.z - 0.5) < 1.5 {
          world.powerups := world.powerups[i := pu.(collected := true)];
          ActivatePowerUp(pu.kind);
        }
      }
      assert ps[..|ps|] == ps;
      assert world.powerups == PickUpAll(ps, px, py);
    }

    /** The obstacle half of checkCollisions: skipped while dead or under the
        jetpack; otherwise the player dies, and the game ends once, exactly
        when a train or barrier box overlaps the player's box. */
    method CheckObstacles()
      requires Valid()
      modifies player`dead, this`state, this`shakeTime, this`highScore, this`totalCoins
      ensures var hit := !old(player.dead) && !player.jetpack.on
                         && HitsObstacle(PlayerBox(player.x, player.y, player.slide.on), world.trains, world.barriers);
              && player.dead == (old(player.dead) || hit)
              && (hit ==> && state == Over && shakeTime == SHAKE_TIME
                          && highScore == Best(old(highScore), score)
                          && totalCoins == old(totalCoins) + coins)
              && (!hit ==> && state == old(state) && shakeTime == old(shakeTime)
                           && highScore == old(highScore) && totalCoins == old(totalCoins))
      ensures Valid()
    {
      if player.dead || player.jetpack.on {
        return;
      }
      var pBox := player.GetHitbox();
      for i := 0 to |world.trains|
        invariant !player.dead
        invariant forall j :: 0 <= j < i ==> !BoxesOverlap(pBox, TrainHitbox(world.trains[j]))
        invariant state == old(state) && shakeTime == old(shakeTime)
        invariant highScore == old(highScore) && totalCoins == old(totalCoins)
      {
        if BoxesOverlap(pBox, TrainHitbox(world.trains[i])) {
          player.dead := true;
          GameOver();
          return;
        }
      }
      for i := 0 to |world.barriers|
        invariant !player.dead
        invariant forall j :: 0 <= j < i ==> !BoxesOverlap(pBox, BarrierHitbox(world.barriers[j]))
        invariant state == old(state) && shakeTime == old(shakeTime)
        invariant highScore == old(highScore) && totalCoins == old(totalCoins)
      {
        if BoxesOverlap(pBox, BarrierHitbox(world.barriers[i])) {
          player.dead := true;
          GameOver();
          return;
        }
      }
    }

    /** Game.magnetEffect: every uncollected coin in range drawn towards the
        player. */
    method MagnetEffect()
      requires Valid()
      modifies world`coins
      ensures Valid()
      ensures world.coins == Magnetised(old(world.coins), player.x)
    {
      ghost var cs := world.coins;
      ghost var before := world.Contents();
      for i := 0 to |world.coins|
        invariant |world.coins| == |cs|
        invariant forall j :: 0 <= j < |cs| ==> world.coins[j] == if j < i then Pull(cs[j], player.x) else cs[j]
      {
        var coin := world.coins[i];
        if coin.collected {
          continue;
        }
        var dx := Abs(coin.x - player.x);
        var dz := coin.z;
        if dx < MAGNET_RANGE && dz > 0.0 && dz < MAGNET_RANGE * 2.0 {
          world.coins := world.coins[i := coin.(x := Lerp(coin.x, player.x, 0.15), z := Lerp(coin.z, 0.0, 0.1))];
        }
      }
      assert world.coins == Magnetised(cs, player.x);
      CoinsAside(before, world.Contents());
    }
  
    /** Game.checkCollisions: coins, then power-ups, then (unless dead or
        flying) the obstacles, all against the player as the frame left it. */
    method CheckCollisions()
      requires Valid()
      modifies world`coins, world`powerups, player`magnet, player`multiplier, player`jetpack, player`dead
      modifies this`coins, this`notification, this`notificationTimer
      modifies this`state, this`shakeTime, this`highScore, this`totalCoins
      ensures Valid()
      ensures world.coins == CollectCoins(old(world.coins), player.x, player.y)
      ensures coins == old(coins) + COIN_VALUE * Touching(old(world.coins), player.x, player.y)
      ensures world.powerups == PickUpAll(old(world.powerups), player.x, player.y)
      ensures player.magnet == BuffAfter(old(world.powerups), player.x, player.y, Magnet, old(player.magnet))
      ensures player.multiplier == BuffAfter(old(world.powerups), player.x, player.y, Multiplier, old(player.multiplier))
      ensures player.jetpack == BuffAfter(old(world.powerups), player.x, player.y, Jetpack, old(player.jetpack))
      ensures notification == NoticeAfter(old(world.powerups), player.x, player.y, (old(notification), old(notificationTimer))).0
      ensures notificationTimer == NoticeAfter(old(world.powerups), player.x, player.y, (old(notification), old(notificationTimer))).1
      ensures var hit := !old(player.dead) && !player.jetpack.on
                         && HitsObstacle(PlayerBox(player.x, player.y, player.slide.on), world.trains, world.barriers);
              && player.dead == (old(player.dead) || hit)
              && (hit ==> && state == Over && shakeTime == SHAKE_TIME
                          && highScore == Best(old(highScore), score)
                          && totalCoins == old(totalCoins) + coins)
              && (!hit ==> && state == old(state) && shakeTime == old(shakeTime)
                           && highScore == old(highScore) && totalCoins == old(totalCoins))
    {
      CollectPickups();
      CheckObstacles();
    }

    /** The coin and power-up halves of checkCollisions together.  A piece of
        checkCollisions split out to keep each proof small; the source has no
        such function. */
    method CollectPickups()
      requires Valid()
      modifies world`coins, world`powerups, player`magnet, player`multiplier, player`jetpack
      modifies this`coins, this`notification, this`notificationTimer
      ensures Valid()
      ensures world.coins == CollectCoins(old(world.coins), player.x, player.y)
      ensures coins == old(coins) + COIN_VALUE * Touching(old(world.coins), player.x, player.y)
      ensures world.powerups == PickUpAll(old(world.powerups), player.x, player.y)
      ensures player.magnet == BuffAfter(old(world.powerups), player.x, player.y, Magnet, old(player.magnet))
      ensures player.multiplier == BuffAfter(old(world.powerups), player.x, player.y, Multiplier, old(player.multiplier))
      ensures player.jetpack == BuffAfter(old(world.powerups), player.x, player.y, Jetpack, old(player.jetpack))
      ensures notification == NoticeAfter(old(world.powerups), player.x, player.y, (old(notification), old(notificationTimer))).0
      ensures notificationTimer == NoticeAfter(old(world.powerups), player.x, player.y, (old(notification), old(notificationTimer))).1
    {
      TakeCoins();
      TakePowerUps();
    }

    /** The coin pass, keeping the game's invariant.  Split out of
        checkCollisions to keep each proof small; the source has no such
        function. */
    method TakeCoins()
      requires Valid()
      modifies world`coins, this`coins
      ensures Valid()
      ensures world.coins == CollectCoins(old(world.coins), player.x, player.y)
      ensures coins == old(coins) + COIN_VALUE * Touching(old(world.coins), player.x, player.y)
    {
      PickUpCoins();
    }

    /** The power-up pass, keeping the game's invariant.  Split out of
        checkCollisions to keep each proof small; the source has no such
        function. */
    method TakePowerUps()
      requires Valid()
      modifies world`powerups, player`magnet, player`multiplier, player`jetpack
      modifies this`notification, this`notificationTimer
      ensures Valid()
      ensures world.powerups == PickUpAll(old(world.powerups), player.x, player.y)
      ensures player.magnet == BuffAfter(old(world.powerups), player.x, player.y, Magnet, old(player.magnet))
      ensures player.multiplier == BuffAfter(old(world.powerups), player.x, player.y, Multiplier, old(player.multiplier))
      ensures player.jetpack == BuffAfter(old(world.powerups), player.x, player.y, Jetpack, old(player.jetpack))
      ensures notification == NoticeAfter(old(world.powerups), player.x, player.y, (old(notification), old(notificationTimer))).0
      ensures notificationTimer == NoticeAfter(old(world.powerups), player.x, player.y, (old(notification), old(notificationTimer))).1
    {
      ghost var ps := world.powerups;
      ghost var px, py := player.x, player.y;
      ghost var m0, x0, j0 := player.magnet, player.multiplier, player.jetpack;
      PickUpPowerUps();
      BuffsStayWithin(ps, px, py, m0, x0, j0);
      assert player.Valid();
      PickUpKeepsShapes(world.Contents(), ps, px, py);
      assert world.Valid();
    }

    /** The game's own part of update: the clock, the speed ramp, the
        scroll, the score and the shake and banner timers, for a frame of
        (already capped) length dt. */
    method StepClock(dt: real)
      modifies this`time, this`speed, this`scrollOffset, this`distance, this`score
      modifies this`shakeTime, this`notification, this`notificationTimer
      ensures time == old(time) + dt
      ensures speed == NextSpeed(old(speed), dt)
      ensures scrollOffset == old(scrollOffset) + Travel(speed, dt) && distance == old(distance) + Travel(speed, dt)
      ensures score == old(score) + ScoreGain(speed, dt, player.multiplier.on)
      ensures shakeTime == if old(shakeTime) > 0.0 then old(shakeTime) - dt else old(shakeTime)
      ensures notificationTimer == if old(notificationTimer) > 0.0 then old(notificationTimer) - dt else old(notificationTimer)
      ensures notification == if 0.0 < old(notificationTimer) <= dt then "" else old(notification)
    {
      time := time + dt;
      speed := Min(MAX_SPEED, speed + SPEED_INCREMENT * dt);
      scrollOffset := scrollOffset + Travel(speed, dt);
      distance := distance + Travel(speed, dt);
      score := score + ScoreGain(speed, dt, player.multiplier.on);
      if shakeTime > 0.0 {
        shakeTime := shakeTime - dt;
      }
      if notificationTimer > 0.0 {
        notificationTimer := notificationTimer - dt;
        if notificationTimer <= 0.0 {
          notification := "";
        }
      }
    }

    /** Game.update for a frame of dt seconds (capped at MAX_DT): the clock,
        then the player, the world at the new speed, the collisions and the
        magnet.  The jump arc and the world's random draws are parameters. */
    method Update(dt: real, jumpArc: real, rolls: nat -> Draws, arc: seq<real>)
      requires Valid() && dt >= 0.0 && 0.0 <= jumpArc <= 1.0 && RollsOk(rolls) && ArcOk(arc)
      modifies this, player, world
      ensures Valid()
      ensures time == old(time) + CapDt(dt)
      ensures speed == NextSpeed(old(speed), CapDt(dt))
      ensures distance == old(distance) + Travel(speed, CapDt(dt))
      ensures score == old(score) + ScoreGain(speed, CapDt(dt), old(player.multiplier.on))
      ensures coins >= old(coins)
      ensures old(player.dead) ==> player.dead && state == old(state)
      ensures highScore >= old(highScore)
    {
      var d := CapDt(dt);
      StepClock(d);
      ScoreGainBounds(speed, d);
      ghost var s, travelled := speed, distance;
      StepObjects(d, jumpArc, rolls, arc);
      assert speed == s && distance == travelled;
    }

    /** The rest of update, after the clock: the player, the world at the
        new speed, the collisions and the magnet.  A piece of
        update split out to keep each proof small; the source has no such
        function. */
    method StepObjects(dt: real, jumpArc: real, rolls: nat -> Draws, arc: seq<real>)
      requires Consistent() && distance == world.totalDist + Travel(speed, dt)
      requires dt >= 0.0 && 0.0 <= jumpArc <= 1.0 && RollsOk(rolls) && ArcOk(arc)
      modifies player, world, this`coins, this`notification, this`notificationTimer
      modifies this`state, this`shakeTime, this`highScore, this`totalCoins
      ensures Valid() && time == old(time) && speed == old(speed) && distance == old(distance) && score == old(score)
      ensures coins >= old(coins) && highScore >= old(highScore)
      ensures old(player.dead) ==> player.dead && state == old(state)
    {
      MovePlayer(dt, jumpArc);
      MoveWorld(dt, rolls, arc);
      Interact();
    }

    /** checkCollisions and then, under the magnet, magnetEffect: what the
        rest of the frame relies on (the full effect is the contracts of
        CheckCollisions and MagnetEffect).  A piece of
        update split out to keep each proof small; the source has no such
        function. */
    method Interact()
      requires Valid()
      modifies world`coins, world`powerups, player`magnet, player`multiplier, player`jetpack, player`dead
      modifies this`coins, this`notification, this`notificationTimer
      modifies this`state, this`shakeTime, this`highScore, this`totalCoins
      ensures Valid()
      ensures coins >= old(coins) && highScore >= old(highScore)
      ensures old(player.dead) ==> player.dead && state == old(state)
    {
      CheckCollisions();
      if player.magnet.on {
        MagnetEffect();
      }
    }

    /** player.update(dt) inside the frame: what the rest of the frame relies
        on (the full effect is Player.Update's contract).  A piece of
        update split out to keep each proof small; the source has no such
        function. */
    method MovePlayer(dt: real, jumpArc: real)
      requires player.Valid() && dt >= 0.0 && 0.0 <= jumpArc <= 1.0
      modifies player
      ensures player.Valid() && player.dead == old(player.dead)
    {
      player.Update(dt, jumpArc);
    }

    /** world.update(speed, dt) inside the frame: the world stays valid and
        its distance keeps pace with the game's (the full effect is
        WorldGenerator.Update's contract).  A piece of
        update split out to keep each proof small; the source has no such
        function. */
    method MoveWorld(dt: real, rolls: nat -> Draws, arc: seq<real>)
      requires world.Valid() && speed >= 0.0 && dt >= 0.0 && RollsOk(rolls) && ArcOk(arc)
      requires distance == world.totalDist + Travel(speed, dt)
      modifies world
      ensures world.Valid() && world.totalDist == distance
    {
      world.Update(speed, dt, rolls, arc);
    }
  }

  /** Well-formedness does not look at the coins. */
  lemma CoinsAside(o: Objects, p: Objects)
    requires WellFormed(o) && o.trains == p.trains && o.barriers == p.barriers && o.powerups == p.powerups
    ensures WellFormed(p)
  {
  }

  /** Marking power-ups collected keeps them as their constructor built
      them. */
  lemma PickUpKeepsShapes(o: Objects, ps: seq<PowerUp>, px: real, py: real)
    requires WellFormed(o.(powerups := ps))
    requires o.powerups == PickUpAll(ps, px, py)
    ensures WellFormed(o)
  {
    forall p | p in o.powerups
      ensures ValidLane(p.lane) && p.x == LaneX(p.lane) && p.y == POWERUP_Y
    {
      var i :| 0 <= i < |o.powerups| && o.powerups[i] == p;
      assert ps[i] in ps;
    }
  }
}
