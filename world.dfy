/** The world generator (class WorldGenerator of js/game.js): scrolling the
    four object lists towards the player, the spawn loop, the clean-up of
    objects left behind and the back-to-front draw list. */
module WorldModel {
  import opened Config
  import opened Geometry
  import opened Entities
  import opened Spawning

  // ---------------------------------------------------------------
  // Scrolling
  // ---------------------------------------------------------------

  function ShiftTrains(ts: seq<Train>, move: real): seq<Train> {
    seq(|ts|, i requires 0 <= i < |ts| => ts[i].(z := ts[i].z - move))
  }

  function ShiftBarriers(bs: seq<Barrier>, move: real): seq<Barrier> {
    seq(|bs|, i requires 0 <= i < |bs| => bs[i].(z := bs[i].z - move))
  }

  function ShiftCoins(cs: seq<Coin>, move: real): seq<Coin> {
    seq(|cs|, i requires 0 <= i < |cs| => cs[i].(z := cs[i].z - move))
  }

  function ShiftPowerUps(ps: seq<PowerUp>, move: real): seq<PowerUp> {
    seq(|ps|, i requires 0 <= i < |ps| => ps[i].(z := ps[i].z - move))
  }

  /** Every object brought `move` units closer to the player. */
  function Scrolled(o: Objects, move: real): Objects {
    Objects(ShiftTrains(o.trains, move), ShiftBarriers(o.barriers, move),
            ShiftCoins(o.coins, move), ShiftPowerUps(o.powerups, move))
  }

  /** Two scrolls are one scroll by the sum, and scrolling by 0 changes nothing. */
  lemma ScrollAdditive(o: Objects, a: real, b: real)
    ensures Scrolled(Scrolled(o, a), b) == Scrolled(o, a + b)
    ensures Scrolled(o, 0.0) == o
  {
    assert ShiftTrains(ShiftTrains(o.trains, a), b) == ShiftTrains(o.trains, a + b);
    assert ShiftBarriers(ShiftBarriers(o.barriers, a), b) == ShiftBarriers(o.barriers, a + b);
    assert ShiftCoins(ShiftCoins(o.coins, a), b) == ShiftCoins(o.coins, a + b);
    assert ShiftPowerUps(ShiftPowerUps(o.powerups, a), b) == ShiftPowerUps(o.powerups, a + b);
    assert ShiftTrains(o.trains, 0.0) == o.trains;
    assert ShiftBarriers(o.barriers, 0.0) == o.barriers;
    assert ShiftCoins(o.coins, 0.0) == o.coins;
    assert ShiftPowerUps(o.powerups, 0.0) == o.powerups;
  }

  /** Scrolling keeps every object as its constructor built it, on its lane,
      and changes no collected flag. */
  lemma ScrollKeepsShapes(o: Objects, move: real)
    ensures WellFormed(o) ==> WellFormed(Scrolled(o, move))
    ensures Fresh(o) ==> Fresh(Scrolled(o, move))
  {
    if WellFormed(o) {
      ShiftKeepsTrains(o.trains, move);
      ShiftKeepsBarriers(o.barriers, move);
      ShiftKeepsPowerUps(o.powerups, move);
    }
    if Fresh(o) {
      ShiftKeepsCoins(o.coins, move);
      ShiftKeepsPowerUps(o.powerups, move);
    }
  }

  lemma ShiftKeepsTrains(ts: seq<Train>, move: real)
    requires forall t :: t in ts ==> ValidLane(t.lane) && t == NewTrain(t.lane, t.z, t.length) && t.length > 0.0
    ensures forall t :: t in ShiftTrains(ts, move) ==> ValidLane(t.lane) && t == NewTrain(t.lane, t.z, t.length) && t.length > 0.0
  {
    var r := ShiftTrains(ts, move);
    forall t | t in r
      ensures ValidLane(t.lane) && t == NewTrain(t.lane, t.z, t.length) && t.length > 0.0
    {
      var i :| 0 <= i < |r| && r[i] == t;
      assert ts[i] in ts;
    }
  }

  lemma ShiftKeepsBarriers(bs: seq<Barrier>, move: real)
    requires forall b :: b in bs ==> ValidLane(b.lane) && b == NewBarrier(b.lane, b.z, b.kind)
    ensures forall b :: b in ShiftBarriers(bs, move) ==> ValidLane(b.lane) && b == NewBarrier(b.lane, b.z, b.kind)
  {
    var r := ShiftBarriers(bs, move);
    forall b | b in r
      ensures ValidLane(b.lane) && b == NewBarrier(b.lane, b.z, b.kind)
    {
      var i :| 0 <= i < |r| && r[i] == b;
      assert bs[i] in bs;
    }
  }

  lemma ShiftKeepsCoins(cs: seq<Coin>, move: real)
    requires forall c :: c in cs ==> !c.collected
    ensures forall c :: c in ShiftCoins(cs, move) ==> !c.collected
  {
    var r := ShiftCoins(cs, move);
    forall c | c in r
      ensures !c.collected
    {
      var i :| 0 <= i < |r| && r[i] == c;
      assert cs[i] in cs;
    }
  }

  /** Shifted power-ups keep their lane, height and collected flag. */
  lemma ShiftKeepsPowerUps(ps: seq<PowerUp>, move: real)
    ensures forall p :: p in ShiftPowerUps(ps, move) ==>
              exists q :: q in ps && p.lane == q.lane && p.x == q.x && p.y == q.y && p.collected == q.collected
  {
    var r := ShiftPowerUps(ps, move);
    forall p | p in r
      ensures exists q :: q in ps && p.lane == q.lane && p.x == q.x && p.y == q.y && p.collected == q.collected
    {
      var i :| 0 <= i < |r| && r[i] == p;
      assert ps[i] in ps;
    }
  }

  /** Scrolling keeps a clear lane clear: no object changes lane. */
  lemma ScrollKeepsLanesClear(o: Objects, move: real, l: int)
    requires LaneClear(o, l)
    ensures LaneClear(Scrolled(o, move), l)
  {
    var r := Scrolled(o, move);
    assert forall t :: t in r.trains ==> exists i :: 0 <= i < |o.trains| && t == o.trains[i].(z := o.trains[i].z - move);
    assert forall b :: b in r.barriers ==> exists i :: 0 <= i < |o.barriers| && b == o.barriers[i].(z := o.barriers[i].z - move);
  }

  /** Scrolling commutes with adding objects at the end. */
  lemma ScrollJoin(a: Objects, b: Objects, move: real)
    ensures Scrolled(Join(a, b), move) == Join(Scrolled(a, move), Scrolled(b, move))
  {
    assert ShiftTrains(a.trains + b.trains, move) == ShiftTrains(a.trains, move) + ShiftTrains(b.trains, move);
    assert ShiftBarriers(a.barriers + b.barriers, move) == ShiftBarriers(a.barriers, move) + ShiftBarriers(b.barriers, move);
    assert ShiftCoins(a.coins + b.coins, move) == ShiftCoins(a.coins, move) + ShiftCoins(b.coins, move);
    assert ShiftPowerUps(a.powerups + b.powerups, move) == ShiftPowerUps(a.powerups, move) + ShiftPowerUps(b.powerups, move);
  }

  // ---------------------------------------------------------------
  // Clean-up
  // ---------------------------------------------------------------

  /** Array.prototype.filter: the elements of `s` that `keep` accepts, in order. */
  function Filter<T(!new)>(s: seq<T>, keep: T -> bool): (r: seq<T>)
    ensures |r| <= |s|
    ensures forall x :: x in r <==> x in s && keep(x)
  {
    if |s| == 0 then []
    else
      assert s == [s[0]] + s[1..];
      (if keep(s[0]) then [s[0]] else []) + Filter(s[1..], keep)
  }

  /** Filtering keeps every occurrence of what it keeps and nothing else. */
  lemma {:induction false} FilterCounts<T(!new)>(s: seq<T>, keep: T -> bool)
    ensures forall x :: multiset(Filter(s, keep))[x] == if keep(x) then multiset(s)[x] else 0
    decreases |s|
  {
    if |s| > 0 {
      assert s == [s[0]] + s[1..];
      FilterCounts(s[1..], keep);
    }
  }

  /** Filtering distributes over concatenation, so it keeps the relative
      order of what it keeps. */
  lemma {:induction false} FilterAppend<T(!new)>(a: seq<T>, b: seq<T>, keep: T -> bool)
    ensures Filter(a + b, keep) == Filter(a, keep) + Filter(b, keep)
    decreases |a|
  {
    if |a| == 0 {
      assert a + b == b;
    } else {
      assert (a + b)[0] == a[0];
      assert (a + b)[1..] == a[1..] + b;
      FilterAppend(a[1..], b, keep);
    }
  }

  /** A filter whose test accepts everything changes nothing. */
  lemma {:induction false} FilterKeepsAll<T(!new)>(s: seq<T>, keep: T -> bool)
    requires forall x :: x in s ==> keep(x)
    ensures Filter(s, keep) == s
    decreases |s|
  {
    if |s| > 0 {
      assert s == [s[0]] + s[1..];
      FilterKeepsAll(s[1..], keep);
    }
  }

  /** Filtering twice is filtering once. */
  lemma FilterIdempotent<T(!new)>(s: seq<T>, keep: T -> bool)
    ensures Filter(Filter(s, keep), keep) == Filter(s, keep)
  {
    FilterKeepsAll(Filter(s, keep), keep);
  }

  predicate TrainLive(t: Train) { t.z + t.length > -10.0 }

  predicate BarrierLive(b: Barrier) { b.z > -5.0 }

  predicate CoinLive(c: Coin) { c.z > -5.0 && !c.collected }

  predicate PowerUpLive(p: PowerUp) { p.z > -5.0 && !p.collected }

  /** WorldGenerator.cleanup on the four lists. */
  function Cleaned(o: Objects): Objects {
    Objects(Filter(o.trains, TrainLive), Filter(o.barriers, BarrierLive),
            Filter(o.coins, CoinLive), Filter(o.powerups, PowerUpLive))
  }

  /** Clean-up keeps exactly the trains whose tail is within 10 units behind
      the player, the barriers within 5 units and the uncollected coins and
      power-ups within 5 units, each as often as before. */
  lemma CleanedKeepsExactly(o: Objects)
    ensures var r := Cleaned(o);
            && (forall t :: multiset(r.trains)[t] == if t.z + t.length > -10.0 then multiset(o.trains)[t] else 0)
            && (forall b :: multiset(r.barriers)[b] == if b.z > -5.0 then multiset(o.barriers)[b] else 0)
            && (forall c :: multiset(r.coins)[c] == if c.z > -5.0 && !c.collected then multiset(o.coins)[c] else 0)
            && (forall p :: multiset(r.powerups)[p] == if p.z > -5.0 && !p.collected then multiset(o.powerups)[p] else 0)
  {
    FilterCounts(o.trains, TrainLive);
    FilterCounts(o.barriers, BarrierLive);
    FilterCounts(o.coins, CoinLive);
    FilterCounts(o.powerups, PowerUpLive);
  }

  lemma CleanedIdempotent(o: Objects)
    ensures Cleaned(Cleaned(o)) == Cleaned(o)
  {
    FilterIdempotent(o.trains, TrainLive);
    FilterIdempotent(o.barriers, BarrierLive);
    FilterIdempotent(o.coins, CoinLive);
    FilterIdempotent(o.powerups, PowerUpLive);
  }

  lemma CleanedJoin(a: Objects, b: Objects)
    ensures Cleaned(Join(a, b)) == Join(Cleaned(a), Cleaned(b))
  {
    FilterAppend(a.trains, b.trains, TrainLive);
    FilterAppend(a.barriers, b.barriers, BarrierLive);
    FilterAppend(a.coins, b.coins, CoinLive);
    FilterAppend(a.powerups, b.powerups, PowerUpLive);
  }

  /** Clean-up keeps well-formed lists well-formed and clear lanes clear. */
  lemma CleanedKeepsShapes(o: Objects)
    ensures WellFormed(o) ==> WellFormed(Cleaned(o))
    ensures Fresh(Cleaned(o))
    ensures forall l :: LaneClear(o, l) ==> LaneClear(Cleaned(o), l)
  {
  }

  // ---------------------------------------------------------------
  // The draw list
  // ---------------------------------------------------------------

  /** An entry of the draw list: the object and its kind. */
  datatype DrawItem =
    | TrainItem(train: Train)
    | BarrierItem(barrier: Barrier)
    | CoinItem(coin: Coin)
    | PowerUpItem(powerup: PowerUp)

  /** The depth the draw list is ordered by: a train's middle, any other
      object's own z. */
  function SortZ(it: DrawItem): real {
    match it
    case TrainItem(t) => t.z + t.length / 2.0
    case BarrierItem(b) => b.z
    case CoinItem(c) => c.z
    case PowerUpItem(p) => p.z
  }

  predicate SortedBackToFront(s: seq<DrawItem>) {
    forall i, j :: 0 <= i < j < |s| ==> SortZ(s[i]) >= SortZ(s[j])
  }

  /** Inserting into a back-to-front list: `x` goes before the first entry
      that is not farther than it, after all entries farther than it. */
  function Insert(x: DrawItem, s: seq<DrawItem>): seq<DrawItem> {
    if |s| == 0 || SortZ(s[0]) <= SortZ(x) then [x] + s
    else [s[0]] + Insert(x, s[1..])
  }

  /** The list ordered back to front, by insertion sort. */
  function SortBackToFront(s: seq<DrawItem>): seq<DrawItem> {
    if |s| == 0 then [] else Insert(s[0], SortBackToFront(s[1..]))
  }

  /** Insertion adds exactly `x` to the entries. */
  lemma {:induction false} InsertAddsOne(x: DrawItem, s: seq<DrawItem>)
    ensures multiset(Insert(x, s)) == multiset(s) + multiset{x}
    ensures forall y :: y in Insert(x, s) <==> y == x || y in s
    decreases |s|
  {
    if |s| == 0 || SortZ(s[0]) <= SortZ(x) {
      assert Insert(x, s) == [x] + s;
    } else {
      assert s == [s[0]] + s[1..];
      InsertAddsOne(x, s[1..]);
      assert Insert(x, s) == [s[0]] + Insert(x, s[1..]);
    }
  }

  /** Insertion keeps a back-to-front list back to front. */
  lemma {:induction false} InsertSorted(x: DrawItem, s: seq<DrawItem>)
    requires SortedBackToFront(s)
    ensures SortedBackToFront(Insert(x, s))
    decreases |s|
  {
    if |s| == 0 || SortZ(s[0]) <= SortZ(x) {
      assert Insert(x, s) == [x] + s;
      assert forall j :: 0 <= j < |s| ==> SortZ(s[j]) <= SortZ(s[0]);
    } else {
      var t := s[1..];
      InsertSorted(x, t);
      InsertAddsOne(x, t);
      var r := Insert(x, t);
      assert Insert(x, s) == [s[0]] + r;
      assert forall y :: y in t ==> SortZ(y) <= SortZ(s[0]);
      assert forall j :: 0 <= j < |r| ==> SortZ(r[j]) <= SortZ(s[0]) by {
        forall j | 0 <= j < |r| ensures SortZ(r[j]) <= SortZ(s[0]) {
          assert r[j] in r;
        }
      }
    }
  }

  /** The draw list sort returns a back-to-front ordering of exactly the
      entries it was given. */
  lemma {:induction false} SortBackToFrontCorrect(s: seq<DrawItem>)
    ensures SortedBackToFront(SortBackToFront(s))
    ensures multiset(SortBackToFront(s)) == multiset(s)
    decreases |s|
  {
    if |s| > 0 {
      assert s == [s[0]] + s[1..];
      SortBackToFrontCorrect(s[1..]);
      InsertSorted(s[0], SortBackToFront(s[1..]));
      InsertAddsOne(s[0], SortBackToFront(s[1..]));
    }
  }

  function Uncollected(c: Coin): bool { !c.collected }

  function Unpicked(p: PowerUp): bool { !p.collected }

  function TrainItems(ts: seq<Train>): seq<DrawItem> { seq(|ts|, i requires 0 <= i < |ts| => TrainItem(ts[i])) }

  function BarrierItems(bs: seq<Barrier>): seq<DrawItem> { seq(|bs|, i requires 0 <= i < |bs| => BarrierItem(bs[i])) }

  function CoinItems(cs: seq<Coin>): seq<DrawItem> { seq(|cs|, i requires 0 <= i < |cs| => CoinItem(cs[i])) }

  function PowerUpItems(ps: seq<PowerUp>): seq<DrawItem> { seq(|ps|, i requires 0 <= i < |ps| => PowerUpItem(ps[i])) }

  /** The draw list before sorting: every train, every barrier, the
      uncollected coins and the uncollected power-ups. */
  function Gathered(o: Objects): seq<DrawItem> {
    TrainItems(o.trains) + BarrierItems(o.barriers)
      + CoinItems(Filter(o.coins, Uncollected)) + PowerUpItems(Filter(o.powerups, Unpicked))
  }

  lemma TrainItemsMembers(ts: seq<Train>)
    ensures forall it: DrawItem :: it in TrainItems(ts) <==> it.TrainItem? && it.train in ts
  {
    forall it: DrawItem | it.TrainItem? && it.train in ts
      ensures it in TrainItems(ts)
    {
      var i :| 0 <= i < |ts| && ts[i] == it.train;
      assert TrainItems(ts)[i] == it;
    }
  }

  lemma BarrierItemsMembers(bs: seq<Barrier>)
    ensures forall it: DrawItem :: it in BarrierItems(bs) <==> it.BarrierItem? && it.barrier in bs
  {
    forall it: DrawItem | it.BarrierItem? && it.barrier in bs
      ensures it in BarrierItems(bs)
    {
      var i :| 0 <= i < |bs| && bs[i] == it.barrier;
      assert BarrierItems(bs)[i] == it;
    }
  }

  lemma CoinItemsMembers(cs: seq<Coin>)
    ensures forall it: DrawItem :: it in CoinItems(cs) <==> it.CoinItem? && it.coin in cs
  {
    forall it: DrawItem | it.CoinItem? && it.coin in cs
      ensures it in CoinItems(cs)
    {
      var i :| 0 <= i < |cs| && cs[i] == it.coin;
      assert CoinItems(cs)[i] == it;
    }
  }

  lemma PowerUpItemsMembers(ps: seq<PowerUp>)
    ensures forall it: DrawItem :: it in PowerUpItems(ps) <==> it.PowerUpItem? && it.powerup in ps
  {
    forall it: DrawItem | it.PowerUpItem? && it.powerup in ps
      ensures it in PowerUpItems(ps)
    {
      var i :| 0 <= i < |ps| && ps[i] == it.powerup;
      assert PowerUpItems(ps)[i] == it;
    }
  }

  /** What the draw list holds: every train and barrier, and of the coins
      and power-ups only those not yet collected. */
  lemma GatheredMembers(o: Objects)
    ensures forall it :: it in Gathered(o) <==>
              || (it.TrainItem? && it.train in o.trains)
              || (it.BarrierItem? && it.barrier in o.barriers)
              || (it.CoinItem? && it.coin in o.coins && !it.coin.collected)
              || (it.PowerUpItem? && it.powerup in o.powerups && !it.powerup.collected)
  {
    TrainItemsMembers(o.trains);
    BarrierItemsMembers(o.barriers);
    CoinItemsMembers(Filter(o.coins, Uncollected));
    PowerUpItemsMembers(Filter(o.powerups, Unpicked));
  }

  // ---------------------------------------------------------------
  // The generator
  // ---------------------------------------------------------------

  /** The draw-list entries of the trains, pushed one by one. */
  method GatherTrains(ts: seq<Train>) returns (items: seq<DrawItem>)
    ensures items == TrainItems(ts)
  {
    items := [];
    for i := 0 to |ts|
      invariant items == TrainItems(ts[..i])
    {
      assert TrainItems(ts[..i + 1]) == TrainItems(ts[..i]) + [TrainItem(ts[i])];
      items := items + [TrainItem(ts[i])];
    }
    assert ts[..|ts|] == ts;
  }

  method GatherBarriers(bs: seq<Barrier>) returns (items: seq<DrawItem>)
    ensures items == BarrierItems(bs)
  {
    items := [];
    for i := 0 to |bs|
      invariant items == BarrierItems(bs[..i])
    {
      assert BarrierItems(bs[..i + 1]) == BarrierItems(bs[..i]) + [BarrierItem(bs[i])];
      items := items + [BarrierItem(bs[i])];
    }
    assert bs[..|bs|] == bs;
  }

  /** The draw-list entries of the coins not yet collected. */
  method GatherCoins(cs: seq<Coin>) returns (items: seq<DrawItem>)
    ensures items == CoinItems(Filter(cs, Uncollected))
  {
    items := [];
    for i := 0 to |cs|
      invariant items == CoinItems(Filter(cs[..i], Uncollected))
    {
      assert cs[..i + 1] == cs[..i] + [cs[i]];
      FilterAppend(cs[..i], [cs[i]], Uncollected);
      ghost var kept := Filter(cs[..i], Uncollected);
      if !cs[i].collected {
        assert Filter(cs[..i + 1], Uncollected) == kept + [cs[i]];
        assert CoinItems(kept + [cs[i]]) == CoinItems(kept) + [CoinItem(cs[i])];
        items := items + [CoinItem(cs[i])];
      } else {
        assert Filter(cs[..i + 1], Uncollected) == kept;
      }
    }
    assert cs[..|cs|] == cs;
  }

  method GatherPowerUps(ps: seq<PowerUp>) returns (items: seq<DrawItem>)
    ensures items == PowerUpItems(Filter(ps, Unpicked))
  {
    items := [];
    for i := 0 to |ps|
      invariant items == PowerUpItems(Filter(ps[..i], Unpicked))
    {
      assert ps[..i + 1] == ps[..i] + [ps[i]];
      FilterAppend(ps[..i], [ps[i]], Unpicked);
      ghost var kept := Filter(ps[..i], Unpicked);
      if !ps[i].collected {
        assert Filter(ps[..i + 1], Unpicked) == kept + [ps[i]];
        assert PowerUpItems(kept + [ps[i]]) == PowerUpItems(kept) + [PowerUpItem(ps[i])];
        items := items + [PowerUpItem(ps[i])];
      } else {
        assert Filter(ps[..i + 1], Unpicked) == kept;
      }
    }
    assert ps[..|ps|] == ps;
  }

  /** The three phases of an update (scroll, spawn, clean up) keep every
      train, barrier and power-up as its constructor built it, and leave
      nothing collected behind. */
  lemma UpdateKeepsShapes(o: Objects, move: real, cursor: real, difficulty: real, rolls: nat -> Draws, arc: seq<real>,
                          spawned: Objects)
    requires difficulty >= 1.0 && RollsOk(rolls) && ArcOk(arc) && WellFormed(o)
    requires spawned == SpawnFrom(Scrolled(o, move), cursor, difficulty, rolls, 0, arc).0
    ensures WellFormed(Cleaned(spawned)) && Fresh(Cleaned(spawned))
  {
    ScrollKeepsShapes(o, move);
    SpawnFromKeepsShapes(Scrolled(o, move), cursor, difficulty, rolls, 0, arc);
    CleanedKeepsShapes(spawned);
  }

  /** What one update leaves on values: `o` scrolled by `move`, the
      patterns spawned from the moved cursor, then cleaned up, with the
      cursor where spawning stopped. */
  ghost predicate UpdatedFrom(o: Objects, next: real, move: real, difficulty: real, rolls: nat -> Draws, arc: seq<real>,
                              after: Objects, cursor: real)
    requires difficulty >= 1.0 && RollsOk(rolls) && ArcOk(arc)
  {
    && after == Cleaned(SpawnFrom(Scrolled(o, move), next - move, difficulty, rolls, 0, arc).0)
    && cursor == SpawnFrom(Scrolled(o, move), next - move, difficulty, rolls, 0, arc).1
  }

  /** The phases of an update, run one after another on values, give the
      result UpdatedFrom describes. */
  lemma UpdatedInPhases(o: Objects, next: real, move: real, difficulty: real, rolls: nat -> Draws, arc: seq<real>,
                        scrolled: Objects, cursor: real, spawned: Objects, last: real, after: Objects)
    requires difficulty >= 1.0 && RollsOk(rolls) && ArcOk(arc) && WellFormed(o)
    requires scrolled == Scrolled(o, move) && cursor == next - move
    requires spawned == SpawnFrom(scrolled, cursor, difficulty, rolls, 0, arc).0
    requires last == SpawnFrom(scrolled, cursor, difficulty, rolls, 0, arc).1
    requires after == Cleaned(spawned)
    ensures UpdatedFrom(o, next, move, difficulty, rolls, arc, after, last)
  {
    assert SpawnFrom(Scrolled(o, move), next - move, difficulty, rolls, 0, arc)
        == SpawnFrom(scrolled, cursor, difficulty, rolls, 0, arc);
  }

  class WorldGenerator {
    var trains: seq<Train>
    var barriers: seq<Barrier>
    var coins: seq<Coin>
    var powerups: seq<PowerUp>
    var nextSpawnZ: real
    var difficulty: real
    var totalDist: real

    ghost function Contents(): Objects
      reads this`trains, this`barriers, this`coins, this`powerups
    {
      Objects(trains, barriers, coins, powerups)
    }

    /** Distance is never negative, difficulty is the step function of it,
        and trains, barriers and power-ups are as their constructors built
        them. */
    ghost predicate Valid()
      reads this
    {
      totalDist >= 0.0 && difficulty == Difficulty(totalDist) && WellFormed(Contents())
    }

    constructor ()
      ensures Valid() && Contents() == NoObjects
      ensures nextSpawnZ == INITIAL_SPAWN_Z && difficulty == 1.0 && totalDist == 0.0
    {
      trains, barriers, coins, powerups := [], [], [], [];
      nextSpawnZ, difficulty, totalDist := INITIAL_SPAWN_Z, 1.0, 0.0;
    }

    method Reset()
      modifies this
      ensures Valid() && Contents() == NoObjects
      ensures nextSpawnZ == INITIAL_SPAWN_Z && difficulty == 1.0 && totalDist == 0.0
    {
      trains, barriers, coins, powerups := [], [], [], [];
      nextSpawnZ, difficulty, totalDist := INITIAL_SPAWN_Z, 1.0, 0.0;
    }

    /** One tick of the world at `speed`: scroll by speed * dt, advance the
        spawn cursor and the difficulty, spawn until the cursor is
        SPAWN_AHEAD away (round k drawing rolls(k)), then clean up. */
    method Update(speed: real, dt: real, rolls: nat -> Draws, arc: seq<real>)
      requires Valid() && speed >= 0.0 && dt >= 0.0 && RollsOk(rolls) && ArcOk(arc)
      modifies this
      ensures Valid()
      ensures totalDist == old(totalDist) + Travel(speed, dt) && difficulty == Difficulty(totalDist)
      ensures UpdatedFrom(old(Contents()), old(nextSpawnZ), Travel(speed, dt), difficulty, rolls, arc, Contents(), nextSpawnZ)
      ensures nextSpawnZ >= SPAWN_AHEAD && Fresh(Contents())
    {
      var move := Travel(speed, dt);
      ghost var before := Contents();
      Advance(move);
      ghost var scrolled, cursor := Contents(), nextSpawnZ;
      SpawnAhead(rolls, arc);
      ghost var spawned := Contents();
      Cleanup();
      UpdateKeepsShapes(before, move, cursor, difficulty, rolls, arc, spawned);
      UpdatedInPhases(before, old(nextSpawnZ), move, difficulty, rolls, arc, scrolled, cursor, spawned, nextSpawnZ, Contents());
    }

    /** The first half of update: everything scrolls by `move`, and so do
        the spawn cursor and the distance the difficulty steps on. */
    method Advance(move: real)
      requires totalDist >= 0.0 && move >= 0.0
      modifies this`trains, this`barriers, this`coins, this`powerups, this`nextSpawnZ, this`totalDist, this`difficulty
      ensures Contents() == Scrolled(old(Contents()), move)
      ensures nextSpawnZ == old(nextSpawnZ) - move
      ensures totalDist == old(totalDist) + move && difficulty == Difficulty(totalDist)
    {
      Scroll(move);
      nextSpawnZ := nextSpawnZ - move;
      totalDist := totalDist + move;
      difficulty := Difficulty(totalDist);
    }

    /** Every object moved `move` units towards the player. */
    method Scroll(move: real)
      modifies this`trains, this`barriers, this`coins, this`powerups
      ensures Contents() == Scrolled(old(Contents()), move)
    {
      ScrollTrains(move);
      ScrollBarriers(move);
      ScrollCoins(move);
      ScrollPowerUps(move);
    }

    method ScrollTrains(move: real)
      modifies this`trains
      ensures trains == ShiftTrains(old(trains), move)
    {
      for i := 0 to |trains|
        invariant |trains| == |old(trains)|
        invariant forall j :: 0 <= j < |trains| ==>
                    trains[j] == if j < i then old(trains)[j].(z := old(trains)[j].z - move) else old(trains)[j]
      {
        trains := trains[i := trains[i].(z := trains[i].z - move)];
      }
    }

    method ScrollBarriers(move: real)
      modifies this`barriers
      ensures barriers == ShiftBarriers(old(barriers), move)
    {
      for i := 0 to |barriers|
        invariant |barriers| == |old(barriers)|
        invariant forall j :: 0 <= j < |barriers| ==>
                    barriers[j] == if j < i then old(barriers)[j].(z := old(barriers)[j].z - move) else old(barriers)[j]
      {
        barriers := barriers[i := barriers[i].(z := barriers[i].z - move)];
      }
    }

    method ScrollCoins(move: real)
      modifies this`coins
      ensures coins == ShiftCoins(old(coins), move)
    {
      for i := 0 to |coins|
        invariant |coins| == |old(coins)|
        invariant forall j :: 0 <= j < |coins| ==>
                    coins[j] == if j < i then old(coins)[j].(z := old(coins)[j].z - move) else old(coins)[j]
      {
        coins := coins[i := coins[i].(z := coins[i].z - move)];
      }
    }

    method ScrollPowerUps(move: real)
      modifies this`powerups
      ensures powerups == ShiftPowerUps(old(powerups), move)
    {
      for i := 0 to |powerups|
        invariant |powerups| == |old(powerups)|
        invariant forall j :: 0 <= j < |powerups| ==>
                    powerups[j] == if j < i then old(powerups)[j].(z := old(powerups)[j].z - move) else old(powerups)[j]
      {
        powerups := powerups[i := powerups[i].(z := powerups[i].z - move)];
      }
    }

    /** The spawn loop: one pattern per round, then a gap. */
    method SpawnAhead(rolls: nat -> Draws, arc: seq<real>)
      requires difficulty >= 1.0 && RollsOk(rolls) && ArcOk(arc)
      modifies this`trains, this`barriers, this`coins, this`powerups, this`nextSpawnZ
      ensures Contents() == SpawnFrom(old(Contents()), old(nextSpawnZ), difficulty, rolls, 0, arc).0
      ensures nextSpawnZ == SpawnFrom(old(Contents()), old(nextSpawnZ), difficulty, rolls, 0, arc).1
    {
      ghost var total := SpawnFrom(Contents(), nextSpawnZ, difficulty, rolls, 0, arc);
      var k: nat := 0;
      while nextSpawnZ < SPAWN_AHEAD
        invariant SpawnFrom(Objects(trains, barriers, coins, powerups), nextSpawnZ, difficulty, rolls, k, arc) == total
        decreases Rounds(nextSpawnZ)
      {
        SpawnRound(rolls, k, arc);
        k := k + 1;
      }
    }

    /** One round of the spawn loop: the pattern for rolls(k) at the cursor,
        then the cursor moves on by the gap; what remains of the loop is
        unchanged. */
    method SpawnRound(rolls: nat -> Draws, k: nat, arc: seq<real>)
      requires difficulty >= 1.0 && RollsOk(rolls) && ArcOk(arc) && nextSpawnZ < SPAWN_AHEAD
      modifies this`trains, this`barriers, this`coins, this`powerups, this`nextSpawnZ
      ensures SpawnFrom(Contents(), nextSpawnZ, difficulty, rolls, k + 1, arc)
              == SpawnFrom(old(Contents()), old(nextSpawnZ), difficulty, rolls, k, arc)
      ensures Rounds(nextSpawnZ) < Rounds(old(nextSpawnZ))
    {
      var d := rolls(k);
      var gap := Gap(d.gap, difficulty);
      ghost var before := Contents();
      CursorProgress(nextSpawnZ, gap);
      SpawnPattern(d, arc);
      nextSpawnZ := nextSpawnZ + gap;
      SpawnFromStep(before, Contents(), old(nextSpawnZ), nextSpawnZ, difficulty, rolls, k, arc);
    }

    /** WorldGenerator.spawnPattern for the draws `d`, at the spawn cursor:
        one of six archetypes, then possibly a power-up. */
    method SpawnPattern(d: Draws, arc: seq<real>)
      requires DrawsOk(d) && ArcOk(arc)
      modifies this`trains, this`barriers, this`coins, this`powerups
      ensures Contents() == Join(old(Contents()), Pattern(nextSpawnZ, d, arc))
    {
      var z := nextSpawnZ;
      if d.pick < 0.25 {
        SpawnSingleTrain(z, d);
      } else if d.pick < 0.45 {
        SpawnDoubleTrain(z, d);
      } else if d.pick < 0.6 {
        SpawnBarrierRow(z, d);
      } else if d.pick < 0.75 {
        SpawnTrainAndBarrier(z, d);
      } else if d.pick < 0.88 {
        SpawnStaggeredTrains(z, d);
      } else {
        SpawnCoinRun(z, d, arc);
      }
      // Random power-up
      if d.power < POWERUP_CHANCE {
        powerups := powerups + [NewPowerUp(RandInt(d.powerLane, 0, 2), z + Rand(d.powerZ, 5.0, 15.0), ChooseKind(d.powerKind))];
      }
    }

    method SpawnSingleTrain(z: real, d: Draws)
      requires DrawsOk(d)
      modifies this`trains, this`coins
      ensures var o := SingleTrain(z, d);
              trains == old(trains) + o.trains && coins == old(coins) + o.coins && o.barriers == [] && o.powerups == []
    {
      var lane := RandInt(d.u1, 0, 2);
      trains := trains + [NewTrain(lane, z, Rand(d.u2, TRAIN_LENGTH_MIN, TRAIN_LENGTH_MAX))];
      SpawnCoinLine(OtherLane(lane, d.u3), z, z + 8.0);
    }

    /** Trains on the two lanes other than `free`, each with its own length. */
    method SpawnDoubleTrain(z: real, d: Draws)
      requires DrawsOk(d)
      modifies this`trains, this`coins
      ensures var o := DoubleTrain(z, d);
              trains == old(trains) + o.trains && coins == old(coins) + o.coins && o.barriers == [] && o.powerups == []
    {
      var free := RandInt(d.u1, 0, 2);
      ghost var ls := OtherLanes(free);
      ghost var row := DoubleTrain(z, d).trains;
      assert row == [NewTrain(ls[0], z, Rand(d.u2, 8.0, 14.0)), NewTrain(ls[1], z, Rand(d.u3, 8.0, 14.0))];
      var n := 0;
      for l := 0 to 3
        invariant n == if l <= free then l else l - 1
        invariant trains == old(trains) + row[..n]
        invariant coins == old(coins)
      {
        if l != free {
          assert ls[n] == l;
          assert row[..n + 1] == row[..n] + [NewTrain(l, z, Rand(if n == 0 then d.u2 else d.u3, 8.0, 14.0))];
          trains := trains + [NewTrain(l, z, Rand(if n == 0 then d.u2 else d.u3, 8.0, 14.0))];
          n := n + 1;
        }
      }
      assert row[..n] == row;
      SpawnCoinLine(free, z, z + 6.0);
    }

    method SpawnBarrierRow(z: real, d: Draws)
      requires DrawsOk(d)
      modifies this`barriers, this`coins
      ensures var o := BarrierRow(z, d);
              barriers == old(barriers) + o.barriers && coins == old(coins) + o.coins && o.trains == [] && o.powerups == []
    {
      var free := RandInt(d.u1, 0, 2);
      var kind := ChooseBarrier(d.u2);
      ghost var ls := OtherLanes(free);
      ghost var row := BarrierRow(z, d).barriers;
      assert row == [NewBarrier(ls[0], z, kind), NewBarrier(ls[1], z, kind)];
      var n := 0;
      for l := 0 to 3
        invariant n == if l <= free then l else l - 1
        invariant barriers == old(barriers) + row[..n]
        invariant coins == old(coins)
      {
        if l != free {
          assert ls[n] == l;
          assert row[..n + 1] == row[..n] + [NewBarrier(l, z, kind)];
          barriers := barriers + [NewBarrier(l, z, kind)];
          n := n + 1;
        }
      }
      assert row[..n] == row;
      SpawnCoinLine(free, z - 3.0, z + 3.0);
    }

    method SpawnTrainAndBarrier(z: real, d: Draws)
      requires DrawsOk(d)
      modifies this`trains, this`barriers, this`coins
      ensures var o := TrainAndBarrier(z, d);
              && trains == old(trains) + o.trains && barriers == old(barriers) + o.barriers
              && coins == old(coins) + o.coins && o.powerups == []
    {
      var tLane := RandInt(d.u1, 0, 2);
      trains := trains + [NewTrain(tLane, z, Rand(d.u2, 10.0, 16.0))];
      var bLane := (tLane + 1) % 3;
      barriers := barriers + [NewBarrier(bLane, z + Rand(d.u3, 3.0, 6.0), ChooseBarrier(d.u4))];
      SpawnCoinLine((tLane + 2) % 3, z, z + 8.0);
    }

    method SpawnStaggeredTrains(z: real, d: Draws)
      requires DrawsOk(d)
      modifies this`trains, this`coins
      ensures var o := StaggeredTrains(z, d);
              trains == old(trains) + o.trains && coins == old(coins) + o.coins && o.barriers == [] && o.powerups == []
    {
      var l1 := RandInt(d.u1, 0, 2);
      var l2 := OtherLane(l1, d.u2);
      trains := trains + [NewTrain(l1, z, Rand(d.u3, 10.0, 18.0))];
      trains := trains + [NewTrain(l2, z + Rand(d.u4, 15.0, 25.0), Rand(d.u5, 10.0, 18.0))];
      // Coins between them
      var freeLane := FindFree(l1, l2);
      if freeLane.Some? {
        SpawnCoinLine(freeLane.value, z + 5.0, z + 15.0);
      }
    }

    method SpawnCoinRun(z: real, d: Draws, arc: seq<real>)
      requires DrawsOk(d) && ArcOk(arc)
      modifies this`coins
      ensures var o := CoinRun(z, d, arc);
              coins == old(coins) + o.coins && o.trains == [] && o.barriers == [] && o.powerups == []
    {
      var lane := RandInt(d.u1, 0, 2);
      SpawnCoinArc(lane, z, arc);
      if d.u2 > 0.5 {
        SpawnCoinLine(OtherLane(lane, d.u3), z, z + 10.0);
      }
    }

    /** A coin every COIN_SPACING along `lane` from startZ up to endZ. */
    method SpawnCoinLine(lane: int, startZ: real, endZ: real)
      modifies this`coins
      ensures coins == old(coins) + CoinLine(LaneX(lane), startZ, endZ)
    {
      var x := LaneX(lane);
      var z := startZ;
      while z <= endZ
        invariant coins + CoinLine(x, z, endZ) == old(coins) + CoinLine(x, startZ, endZ)
        decreases if z <= endZ then (endZ - z).Floor + 1 else 0
      {
        assert CoinLine(x, z, endZ) == [NewCoin(x, COIN_HEIGHT, z)] + CoinLine(x, z + COIN_SPACING, endZ);
        coins := coins + [NewCoin(x, COIN_HEIGHT, z)];
        z := z + COIN_SPACING;
      }
    }

    /** Seven coins two units apart along `lane`, lifted along the arc. */
    method SpawnCoinArc(lane: int, z: real, arc: seq<real>)
      requires ArcOk(arc)
      modifies this`coins
      ensures coins == old(coins) + CoinArc(LaneX(lane), z, arc)
    {
      var x := LaneX(lane);
      for i := 0 to COIN_ARC_COUNT
        invariant coins == old(coins) + CoinArc(x, z, arc)[..i]
      {
        var arcZ := z + (i as real) * 2.0;
        var arcY := COIN_HEIGHT + arc[i] * COIN_ARC_LIFT;
        coins := coins + [NewCoin(x, arcY, arcZ)];
        assert CoinArc(x, z, arc)[..i + 1] == CoinArc(x, z, arc)[..i] + [ArcCoin(x, z, arc, i)];
      }
    }

    /** The draw list: every train, every barrier and the uncollected coins
        and power-ups, ordered farthest first. */
    method GetSortedObjects() returns (all: seq<DrawItem>)
      ensures SortedBackToFront(all)
      ensures multiset(all) == multiset(Gathered(Contents()))
      ensures forall it :: it in all <==>
                || (it.TrainItem? && it.train in trains)
                || (it.BarrierItem? && it.barrier in barriers)
                || (it.CoinItem? && it.coin in coins && !it.coin.collected)
                || (it.PowerUpItem? && it.powerup in powerups && !it.powerup.collected)
    {
      var ts := GatherTrains(trains);
      var bs := GatherBarriers(barriers);
      var cs := GatherCoins(coins);
      var ps := GatherPowerUps(powerups);
      var gathered := ts + bs + cs + ps;
      all := SortBackToFront(gathered);
      SortBackToFrontCorrect(gathered);
      GatheredMembers(Contents());
      forall it: DrawItem ensures it in all <==> it in gathered {
        assert it in all <==> it in multiset(all);
        assert it in gathered <==> it in multiset(gathered);
      }
    }

    method Cleanup()
      modifies this`trains, this`barriers, this`coins, this`powerups
      ensures Contents() == Cleaned(old(Contents()))
    {
      trains := Filter(trains, TrainLive);
      barriers := Filter(barriers, BarrierLive);
      coins := Filter(coins, CoinLive);
      powerups := Filter(powerups, PowerUpLive);
    }
  }
}
