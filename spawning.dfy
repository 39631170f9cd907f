/** What WorldGenerator.spawnPattern and its spawn loop produce, as values.
    Every call of Math.random() is a parameter: a uniform draw in [0, 1). */
module Spawning {
  import opened Config
  import opened Geometry
  import opened Entities

  predicate Unit(u: real) { 0.0 <= u < 1.0 }

  /** The random draws one round of the spawn loop consumes: the archetype
      pick, up to five draws used by the archetype, four for the power-up
      roll and one for the gap to the next pattern. */
  datatype Draws = Draws(pick: real, u1: real, u2: real, u3: real, u4: real, u5: real,
                         power: real, powerLane: real, powerZ: real, powerKind: real,
                         gap: real)

  predicate DrawsOk(d: Draws) {
    && Unit(d.pick) && Unit(d.u1) && Unit(d.u2) && Unit(d.u3) && Unit(d.u4) && Unit(d.u5)
    && Unit(d.power) && Unit(d.powerLane) && Unit(d.powerZ) && Unit(d.powerKind)
    && Unit(d.gap)
  }

  /** sin(i / 6 * pi) for i = 0 .. 6, the heights of a coin arc. */
  predicate ArcOk(arc: seq<real>) {
    |arc| == COIN_ARC_COUNT && forall i :: 0 <= i < |arc| ==> 0.0 <= arc[i] <= 1.0
  }

  /** A fraction `u` of a positive length stays below it. */
  lemma FractionBelow(span: real, u: real)
    requires span > 0.0 && Unit(u)
    ensures 0.0 <= u * span < span
  {
    assert span * (1.0 - u) > 0.0;
  }

  /** Math.random() * span. */
  function Stretch(u: real, span: real): (r: real)
    requires span > 0.0 && Unit(u)
    ensures 0.0 <= r < span
  {
    FractionBelow(span, u);
    u * span
  }

  /** rand(min, max) on the draw `u`. */
  function Rand(u: real, lo: real, hi: real): (r: real)
    requires Unit(u) && lo < hi
    ensures lo <= r < hi
  {
    lo + Stretch(u, hi - lo)
  }

  /** randInt(min, max) = floor(rand(min, max + 1)) on the draw `u`. */
  function RandInt(u: real, lo: int, hi: int): (r: int)
    requires Unit(u) && lo <= hi
    ensures lo <= r <= hi
  {
    Rand(u, lo as real, (hi + 1) as real).Floor
  }

  /** randChoice(['magnet', 'multiplier', 'jetpack']) on the draw `u`. */
  function ChooseKind(u: real): PowerUpKind
    requires Unit(u)
  {
    var i := (u * 3.0).Floor;
    if i == 0 then Magnet else if i == 1 then Multiplier else Jetpack
  }

  /** Math.random() > 0.5 ? 'low' : 'high'. */
  function ChooseBarrier(u: real): BarrierKind {
    if u > 0.5 then Low else High
  }

  // ---------------------------------------------------------------
  // The four object lists
  // ---------------------------------------------------------------

  /** The generator's four lists: trains, barriers, coins, power-ups. */
  datatype Objects = Objects(trains: seq<Train>, barriers: seq<Barrier>, coins: seq<Coin>, powerups: seq<PowerUp>)

  const NoObjects: Objects := Objects([], [], [], [])

  /** Pushing the objects of `b`, list by list, after those of `a`. */
  function Join(a: Objects, b: Objects): (r: Objects)
    ensures |r.trains| == |a.trains| + |b.trains| && |r.coins| == |a.coins| + |b.coins|
    ensures |r.barriers| == |a.barriers| + |b.barriers| && |r.powerups| == |a.powerups| + |b.powerups|
  {
    Objects(a.trains + b.trains, a.barriers + b.barriers, a.coins + b.coins, a.powerups + b.powerups)
  }

  lemma JoinAssociative(a: Objects, b: Objects, c: Objects)
    ensures Join(Join(a, b), c) == Join(a, Join(b, c))
  {
    assert (a.trains + b.trains) + c.trains == a.trains + (b.trains + c.trains);
    assert (a.barriers + b.barriers) + c.barriers == a.barriers + (b.barriers + c.barriers);
    assert (a.coins + b.coins) + c.coins == a.coins + (b.coins + c.coins);
    assert (a.powerups + b.powerups) + c.powerups == a.powerups + (b.powerups + c.powerups);
  }

  // ---------------------------------------------------------------
  // Coin lines and arcs
  // ---------------------------------------------------------------

  /** spawnCoinLine at world x `x`: a coin every COIN_SPACING from startZ
      while z <= endZ. */
  function CoinLine(x: real, startZ: real, endZ: real): (r: seq<Coin>)
    ensures forall c :: c in r ==> c.x == x && c.y == COIN_HEIGHT && !c.collected && startZ <= c.z <= endZ
    decreases if startZ <= endZ then (endZ - startZ).Floor + 1 else 0
  {
    if startZ <= endZ then
      [NewCoin(x, COIN_HEIGHT, startZ)] + CoinLine(x, startZ + COIN_SPACING, endZ)
    else
      []
  }

  /** The i-th coin of a line sits i spacings after the first, and the line
      holds floor((endZ - startZ) / COIN_SPACING) + 1 coins. */
  lemma {:induction false} CoinLineSpacing(x: real, startZ: real, endZ: real)
    ensures var r := CoinLine(x, startZ, endZ);
            && |r| == (if startZ <= endZ then ((endZ - startZ) / COIN_SPACING).Floor + 1 else 0)
            && forall i :: 0 <= i < |r| ==> r[i] == Coin(x, COIN_HEIGHT, startZ + (i as real) * COIN_SPACING, false)
    decreases if startZ <= endZ then (endZ - startZ).Floor + 1 else 0
  {
    if startZ <= endZ {
      var next := startZ + COIN_SPACING;
      CoinLineSpacing(x, next, endZ);
      var rest := CoinLine(x, next, endZ);
      var r := CoinLine(x, startZ, endZ);
      assert r == [Coin(x, COIN_HEIGHT, startZ, false)] + rest;
      var q := (endZ - startZ) / COIN_SPACING;
      assert (endZ - next) / COIN_SPACING == q - 1.0;
      if next <= endZ {
        assert (q - 1.0).Floor == q.Floor - 1;
      } else {
        assert 0.0 <= q < 1.0;
      }
      forall i | 1 <= i < |r|
        ensures r[i] == Coin(x, COIN_HEIGHT, startZ + (i as real) * COIN_SPACING, false)
      {
        assert r[i] == rest[i - 1];
      }
    }
  }

  /** The i-th coin of spawnCoinArc: two units apart, lifted by the arc. */
  function ArcCoin(x: real, z: real, arc: seq<real>, i: int): (c: Coin)
    requires ArcOk(arc) && 0 <= i < COIN_ARC_COUNT
    ensures c.x == x && c.z == z + 2.0 * (i as real) && !c.collected
    ensures COIN_HEIGHT <= c.y <= COIN_HEIGHT + COIN_ARC_LIFT
  {
    NewCoin(x, COIN_HEIGHT + arc[i] * COIN_ARC_LIFT, z + (i as real) * 2.0)
  }

  function CoinArc(x: real, z: real, arc: seq<real>): (r: seq<Coin>)
    requires ArcOk(arc)
    ensures |r| == COIN_ARC_COUNT
    ensures forall i :: 0 <= i < |r| ==> r[i] == ArcCoin(x, z, arc, i)
  {
    seq(COIN_ARC_COUNT, i requires 0 <= i < COIN_ARC_COUNT => ArcCoin(x, z, arc, i))
  }

  // ---------------------------------------------------------------
  // Patterns
  // ---------------------------------------------------------------

  /** (lane + randInt(1, 2)) % 3: one of the two other lanes, chosen by `u`. */
  function OtherLane(lane: int, u: real): (r: int)
    requires ValidLane(lane) && Unit(u)
    ensures ValidLane(r) && r != lane
  {
    (lane + RandInt(u, 1, 2)) % 3
  }

  /** The two lanes other than `free`, in increasing order. */
  function OtherLanes(free: int): (r: seq<int>)
    requires ValidLane(free)
    ensures |r| == 2 && r[0] < r[1]
    ensures forall l :: l in r <==> ValidLane(l) && l != free
  {
    if free == 0 then [1, 2] else if free == 1 then [0, 2] else [0, 1]
  }

  /** [0, 1, 2].find(l => l !== l1 && l !== l2). */
  function FindFree(l1: int, l2: int): (r: Option<int>)
    ensures r.Some? ==> ValidLane(r.value) && r.value != l1 && r.value != l2
    ensures r.Some? && r.value > 0 ==> 0 == l1 || 0 == l2
    ensures r.Some? && r.value > 1 ==> 1 == l1 || 1 == l2
    ensures r.None? ==> forall l :: ValidLane(l) ==> l == l1 || l == l2
  {
    if 0 != l1 && 0 != l2 then Some(0)
    else if 1 != l1 && 1 != l2 then Some(1)
    else if 2 != l1 && 2 != l2 then Some(2)
    else None
  }

  datatype Option<T> = None | Some(value: T)

  /** Single train; coins on one of the other two lanes. */
  function SingleTrain(z: real, d: Draws): Objects
    requires DrawsOk(d)
  {
    var lane := RandInt(d.u1, 0, 2);
    Objects([NewTrain(lane, z, Rand(d.u2, TRAIN_LENGTH_MIN, TRAIN_LENGTH_MAX))], [],
            CoinLine(LaneX(OtherLane(lane, d.u3)), z, z + 8.0), [])
  }

  /** Two trains leaving one lane free; coins on the free lane. */
  function DoubleTrain(z: real, d: Draws): Objects
    requires DrawsOk(d)
  {
    var free := RandInt(d.u1, 0, 2);
    var ls := OtherLanes(free);
    Objects([NewTrain(ls[0], z, Rand(d.u2, 8.0, 14.0)), NewTrain(ls[1], z, Rand(d.u3, 8.0, 14.0))], [],
            CoinLine(LaneX(free), z, z + 6.0), [])
  }

  /** A row of two barriers of one kind; coins through the gap. */
  function BarrierRow(z: real, d: Draws): Objects
    requires DrawsOk(d)
  {
    var free := RandInt(d.u1, 0, 2);
    var kind := ChooseBarrier(d.u2);
    var ls := OtherLanes(free);
    Objects([], [NewBarrier(ls[0], z, kind), NewBarrier(ls[1], z, kind)],
            CoinLine(LaneX(free), z - 3.0, z + 3.0), [])
  }

  /** A train with a barrier on the next lane; coins on the third lane. */
  function TrainAndBarrier(z: real, d: Draws): Objects
    requires DrawsOk(d)
  {
    var tLane := RandInt(d.u1, 0, 2);
    Objects([NewTrain(tLane, z, Rand(d.u2, 10.0, 16.0))],
            [NewBarrier((tLane + 1) % 3, z + Rand(d.u3, 3.0, 6.0), ChooseBarrier(d.u4))],
            CoinLine(LaneX((tLane + 2) % 3), z, z + 8.0), [])
  }

  /** Two staggered trains on different lanes; coins on the lane left over. */
  function StaggeredTrains(z: real, d: Draws): Objects
    requires DrawsOk(d)
  {
    var l1 := RandInt(d.u1, 0, 2);
    var l2 := OtherLane(l1, d.u2);
    var free := FindFree(l1, l2);
    Objects([NewTrain(l1, z, Rand(d.u3, 10.0, 18.0)), NewTrain(l2, z + Rand(d.u4, 15.0, 25.0), Rand(d.u5, 10.0, 18.0))], [],
            if free.Some? then CoinLine(LaneX(free.value), z + 5.0, z + 15.0) else [], [])
  }

  /** Coins only: an arc, and on a coin toss a line on another lane. */
  function CoinRun(z: real, d: Draws, arc: seq<real>): Objects
    requires DrawsOk(d) && ArcOk(arc)
  {
    var lane := RandInt(d.u1, 0, 2);
    Objects([], [],
            CoinArc(LaneX(lane), z, arc) +
            (if d.u2 > 0.5 then CoinLine(LaneX(OtherLane(lane, d.u3)), z, z + 10.0) else []),
            [])
  }

  /** The obstacle-and-coin part of spawnPattern at depth z: the archetype is
      chosen by `d.pick` at the thresholds 0.25, 0.45, 0.6, 0.75 and 0.88. */
  function Archetype(z: real, d: Draws, arc: seq<real>): Objects
    requires DrawsOk(d) && ArcOk(arc)
  {
    if d.pick < 0.25 then SingleTrain(z, d)
    else if d.pick < 0.45 then DoubleTrain(z, d)
    else if d.pick < 0.6 then BarrierRow(z, d)
    else if d.pick < 0.75 then TrainAndBarrier(z, d)
    else if d.pick < 0.88 then StaggeredTrains(z, d)
    else CoinRun(z, d, arc)
  }

  /** The random power-up that may follow any pattern. */
  function PowerUpRoll(z: real, d: Draws): (r: seq<PowerUp>)
    requires DrawsOk(d)
    ensures |r| == if d.power < POWERUP_CHANCE then 1 else 0
    ensures forall p :: p in r ==> ValidLane(p.lane) && p == NewPowerUp(p.lane, p.z, p.kind) && z + 5.0 <= p.z < z + 15.0
  {
    if d.power < POWERUP_CHANCE then
      [NewPowerUp(RandInt(d.powerLane, 0, 2), z + Rand(d.powerZ, 5.0, 15.0), ChooseKind(d.powerKind))]
    else
      []
  }

  /** Everything spawnPattern pushes for the draws `d` at depth z. */
  function Pattern(z: real, d: Draws, arc: seq<real>): Objects
    requires DrawsOk(d) && ArcOk(arc)
  {
    Archetype(z, d, arc).(powerups := PowerUpRoll(z, d))
  }

  // ---------------------------------------------------------------
  // Properties of a pattern
  // ---------------------------------------------------------------

  /** No train and no barrier of `o` stands in lane `l`. */
  predicate LaneClear(o: Objects, l: int) {
    && (forall t :: t in o.trains ==> t.lane != l)
    && (forall b :: b in o.barriers ==> b.lane != l)
  }

  /** Every train, barrier and power-up as its constructor builds it, on a
      lane in range (a power-up may since have been collected). */
  predicate WellFormed(o: Objects) {
    && (forall t :: t in o.trains ==> ValidLane(t.lane) && t == NewTrain(t.lane, t.z, t.length) && t.length > 0.0)
    && (forall b :: b in o.barriers ==> ValidLane(b.lane) && b == NewBarrier(b.lane, b.z, b.kind))
    && (forall p :: p in o.powerups ==> ValidLane(p.lane) && p.x == LaneX(p.lane) && p.y == POWERUP_Y)
  }

  /** Nothing collected yet. */
  predicate Fresh(o: Objects) {
    && (forall c :: c in o.coins ==> !c.collected)
    && (forall p :: p in o.powerups ==> !p.collected)
  }

  /** Every coin of `o` is centred on a lane that `o` keeps clear. */
  predicate CoinsOnClearLanes(o: Objects) {
    forall c :: c in o.coins ==> exists l :: 0 <= l <= 2 && c.x == LaneX(l) && LaneClear(o, l)
  }

  /** What every archetype guarantees: well-formed, uncollected objects, a
      lane with no obstacle (so the pattern can be passed) and coins only on
      clear lanes. */
  predicate Passable(o: Objects) {
    && WellFormed(o) && Fresh(o)
    && (exists l :: 0 <= l <= 2 && LaneClear(o, l))
    && CoinsOnClearLanes(o)
  }

  /** Coins all on one clear lane make the coin part passable. */
  lemma CoinsOnOneClearLane(o: Objects, cs: seq<Coin>, l: int)
    requires ValidLane(l) && LaneClear(o, l)
    requires forall i :: 0 <= i < |cs| ==> cs[i].x == LaneX(l)
    ensures forall c :: c in cs ==> exists l' :: ValidLane(l') && c.x == LaneX(l') && LaneClear(o, l')
  {
    forall c | c in cs
      ensures exists l' :: ValidLane(l') && c.x == LaneX(l') && LaneClear(o, l')
    {
      var i :| 0 <= i < |cs| && cs[i] == c;
      assert ValidLane(l) && c.x == LaneX(l) && LaneClear(o, l);
    }
  }

  lemma SingleTrainPassable(z: real, d: Draws)
    requires DrawsOk(d)
    ensures Passable(SingleTrain(z, d))
  {
    var o := SingleTrain(z, d);
    var l := OtherLane(RandInt(d.u1, 0, 2), d.u3);
    CoinsOnOneClearLane(o, o.coins, l);
  }

  lemma DoubleTrainPassable(z: real, d: Draws)
    requires DrawsOk(d)
    ensures Passable(DoubleTrain(z, d))
  {
    var o := DoubleTrain(z, d);
    CoinsOnOneClearLane(o, o.coins, RandInt(d.u1, 0, 2));
  }

  lemma BarrierRowPassable(z: real, d: Draws)
    requires DrawsOk(d)
    ensures Passable(BarrierRow(z, d))
  {
    var o := BarrierRow(z, d);
    CoinsOnOneClearLane(o, o.coins, RandInt(d.u1, 0, 2));
  }

  lemma TrainAndBarrierPassable(z: real, d: Draws)
    requires DrawsOk(d)
    ensures Passable(TrainAndBarrier(z, d))
  {
    var o := TrainAndBarrier(z, d);
    CoinsOnOneClearLane(o, o.coins, (RandInt(d.u1, 0, 2) + 2) % 3);
  }

  /** The staggered trains stand on different lanes, so the search for the
      lane left over always succeeds. */
  lemma StaggeredTrainsPassable(z: real, d: Draws)
    requires DrawsOk(d)
    ensures var o := StaggeredTrains(z, d);
            Passable(o) && |o.trains| == 2 && o.trains[0].lane != o.trains[1].lane
    ensures var l1 := RandInt(d.u1, 0, 2);
            FindFree(l1, OtherLane(l1, d.u2)).Some?
  {
    var o := StaggeredTrains(z, d);
    var l1 := RandInt(d.u1, 0, 2);
    var l2 := OtherLane(l1, d.u2);
    assert FindFree(l1, l2).Some?;
    CoinsOnOneClearLane(o, o.coins, FindFree(l1, l2).value);
  }

  lemma CoinRunPassable(z: real, d: Draws, arc: seq<real>)
    requires DrawsOk(d) && ArcOk(arc)
    ensures Passable(CoinRun(z, d, arc))
  {
    var o := CoinRun(z, d, arc);
    var lane := RandInt(d.u1, 0, 2);
    var a := CoinArc(LaneX(lane), z, arc);
    var rest := o.coins[|a|..];
    assert o.coins == a + rest;
    CoinsOnOneClearLane(o, a, lane);
    if d.u2 > 0.5 {
      CoinsOnOneClearLane(o, rest, OtherLane(lane, d.u3));
    }
    assert LaneClear(o, 0);
  }

  /** Every pattern can be passed: it is well-formed and fresh, leaves at least one
      lane without trains and barriers and puts its coins on such lanes. */
  lemma PatternPassable(z: real, d: Draws, arc: seq<real>)
    requires DrawsOk(d) && ArcOk(arc)
    ensures Passable(Pattern(z, d, arc))
  {
    if d.pick < 0.25 { SingleTrainPassable(z, d); }
    else if d.pick < 0.45 { DoubleTrainPassable(z, d); }
    else if d.pick < 0.6 { BarrierRowPassable(z, d); }
    else if d.pick < 0.75 { TrainAndBarrierPassable(z, d); }
    else if d.pick < 0.88 { StaggeredTrainsPassable(z, d); }
    else { CoinRunPassable(z, d, arc); }
    var a := Archetype(z, d, arc);
    var o := Pattern(z, d, arc);
    assert forall l :: LaneClear(a, l) ==> LaneClear(o, l);
  }

  /** Obstacles are placed at or beyond the spawn depth, trains within their
      length range. */
  lemma PatternObstaclesAhead(z: real, d: Draws, arc: seq<real>)
    requires DrawsOk(d) && ArcOk(arc)
    ensures var o := Pattern(z, d, arc);
            && (forall t :: t in o.trains ==> z <= t.z < z + 25.0 && TRAIN_LENGTH_MIN <= t.length < TRAIN_LENGTH_MAX)
            && (forall b :: b in o.barriers ==> z <= b.z < z + 6.0)
  {
  }

  // ---------------------------------------------------------------
  // Difficulty, gaps and the spawn loop
  // ---------------------------------------------------------------

  /** 1 + floor(totalDist / 400) * 0.15. */
  function Difficulty(totalDist: real): (r: real)
    requires totalDist >= 0.0
    ensures r >= 1.0
  {
    1.0 + ((totalDist / DIFFICULTY_STEP_DISTANCE).Floor as real) * DIFFICULTY_STEP
  }

  lemma DifficultyMonotone(d1: real, d2: real)
    requires 0.0 <= d1 <= d2
    ensures Difficulty(d1) <= Difficulty(d2)
  {
    assert d1 / DIFFICULTY_STEP_DISTANCE <= d2 / DIFFICULTY_STEP_DISTANCE;
  }

  /** Difficulty rises one step every 400 units travelled. */
  lemma DifficultyStep(totalDist: real)
    requires totalDist >= 0.0
    ensures Difficulty(totalDist + DIFFICULTY_STEP_DISTANCE) == Difficulty(totalDist) + DIFFICULTY_STEP
  {
    var q := totalDist / DIFFICULTY_STEP_DISTANCE;
    assert (totalDist + DIFFICULTY_STEP_DISTANCE) / DIFFICULTY_STEP_DISTANCE == q + 1.0;
    assert (q + 1.0).Floor == q.Floor + 1;
  }

  /** The smallest gap between two patterns: the shortest draw at the
      difficulty cap. */
  const MIN_GAP: real := SPAWN_GAP_MIN / DIFFICULTY_GAP_CAP

  /** rand(SPAWN_GAP_MIN, SPAWN_GAP_MAX) / min(difficulty, 1.8). */
  function Gap(u: real, difficulty: real): (g: real)
    requires Unit(u) && difficulty >= 1.0
    ensures MIN_GAP <= g < SPAWN_GAP_MAX
  {
    var r := Rand(u, SPAWN_GAP_MIN, SPAWN_GAP_MAX);
    var m := Min(difficulty, DIFFICULTY_GAP_CAP);
    DivideAntitone(r, m, DIFFICULTY_GAP_CAP);
    DivideAntitone(r, 1.0, m);
    r / m
  }

  ghost predicate RollsOk(rolls: nat -> Draws) {
    forall k :: DrawsOk(rolls(k))
  }

  /** A bound on the rounds the spawn loop still runs from cursor `next`:
      the distance left to SPAWN_AHEAD, rounded down, plus one. */
  function Rounds(next: real): nat {
    if next < SPAWN_AHEAD then (SPAWN_AHEAD - next).Floor + 1 else 0
  }

  /** The spawn loop from cursor `next` onwards, round k drawing rolls(k):
      the lists `acc` with every pattern pushed, and where the cursor ends. */
  function SpawnFrom(acc: Objects, next: real, difficulty: real, rolls: nat -> Draws, k: nat, arc: seq<real>): (r: (Objects, real))
    requires difficulty >= 1.0 && RollsOk(rolls) && ArcOk(arc)
    ensures r.1 >= SPAWN_AHEAD && r.1 >= next
    ensures next >= SPAWN_AHEAD ==> r == (acc, next)
    ensures r.1 < Max(next, SPAWN_AHEAD) + SPAWN_GAP_MAX
    decreases Rounds(next)
  {
    if next < SPAWN_AHEAD then
      var d := rolls(k);
      SpawnFrom(Join(acc, Pattern(next, d, arc)), next + Gap(d.gap, difficulty), difficulty, rolls, k + 1, arc)
    else
      (acc, next)
  }

  /** One round of the spawn loop: with the pattern for rolls(k) pushed onto
      `before` and the cursor moved on by the gap, the rest of the loop ends
      where the whole loop from `before` ends. */
  lemma SpawnFromStep(before: Objects, after: Objects, next: real, cursor: real, difficulty: real, rolls: nat -> Draws,
                      k: nat, arc: seq<real>)
    requires difficulty >= 1.0 && RollsOk(rolls) && ArcOk(arc) && next < SPAWN_AHEAD
    requires after == Join(before, Pattern(next, rolls(k), arc)) && cursor == next + Gap(rolls(k).gap, difficulty)
    ensures SpawnFrom(after, cursor, difficulty, rolls, k + 1, arc) == SpawnFrom(before, next, difficulty, rolls, k, arc)
  {
  }

  /** Each round moves the cursor on by at least one unit. */
  lemma CursorProgress(next: real, gap: real)
    requires next < SPAWN_AHEAD && gap >= MIN_GAP
    ensures Rounds(next + gap) < Rounds(next)
  {
  }

  lemma WellFormedJoin(a: Objects, b: Objects)
    ensures WellFormed(a) && WellFormed(b) ==> WellFormed(Join(a, b))
    ensures Fresh(a) && Fresh(b) ==> Fresh(Join(a, b))
  {
  }

  /** The spawn loop only pushes well-formed, uncollected objects. */
  lemma {:induction false} SpawnFromKeepsShapes(acc: Objects, next: real, difficulty: real, rolls: nat -> Draws, k: nat, arc: seq<real>)
    requires difficulty >= 1.0 && RollsOk(rolls) && ArcOk(arc)
    ensures WellFormed(acc) ==> WellFormed(SpawnFrom(acc, next, difficulty, rolls, k, arc).0)
    ensures Fresh(acc) ==> Fresh(SpawnFrom(acc, next, difficulty, rolls, k, arc).0)
    decreases Rounds(next)
  {
    if next < SPAWN_AHEAD {
      var p := Pattern(next, rolls(k), arc);
      var j := Join(acc, p);
      var cursor := next + Gap(rolls(k).gap, difficulty);
      PatternPassable(next, rolls(k), arc);
      WellFormedJoin(acc, p);
      SpawnFromStep(acc, j, next, cursor, difficulty, rolls, k, arc);
      CursorProgress(next, Gap(rolls(k).gap, difficulty));
      SpawnFromKeepsShapes(j, cursor, difficulty, rolls, k + 1, arc);
    }
  }

  lemma PrefixTransitive<T>(a: seq<T>, b: seq<T>, c: seq<T>)
    requires a <= b <= c
    ensures a <= c
  {
    assert c[..|a|] == b[..|a|];
  }

  /** The spawn loop only ever appends: what was there before stays in
      front, unchanged. */
  lemma {:induction false} SpawnFromAppends(acc: Objects, next: real, difficulty: real, rolls: nat -> Draws, k: nat, arc: seq<real>)
    requires difficulty >= 1.0 && RollsOk(rolls) && ArcOk(arc)
    ensures var r := SpawnFrom(acc, next, difficulty, rolls, k, arc).0;
            && acc.trains <= r.trains && acc.barriers <= r.barriers
            && acc.coins <= r.coins && acc.powerups <= r.powerups
    decreases Rounds(next)
  {
    if next < SPAWN_AHEAD {
      var p := Pattern(next, rolls(k), arc);
      var j := Join(acc, p);
      var cursor := next + Gap(rolls(k).gap, difficulty);
      SpawnFromStep(acc, j, next, cursor, difficulty, rolls, k, arc);
      CursorProgress(next, Gap(rolls(k).gap, difficulty));
      SpawnFromAppends(j, cursor, difficulty, rolls, k + 1, arc);
      var r := SpawnFrom(j, cursor, difficulty, rolls, k + 1, arc).0;
      PrefixTransitive(acc.trains, j.trains, r.trains);
      PrefixTransitive(acc.barriers, j.barriers, r.barriers);
      PrefixTransitive(acc.coins, j.coins, r.coins);
      PrefixTransitive(acc.powerups, j.powerups, r.powerups);
    }
  }
}
