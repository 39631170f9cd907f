# Subway runner core in Dafny

This project models the simulation core of a browser endless-runner in the
style of Subway Surfers (`js/game.js`). The player runs in one of three
lanes. They can switch lanes, jump, slide and fly with a jetpack, and carry
timed buffs (coin magnet, score multiplier, jetpack). Trains, barriers,
coins and power-ups scroll towards them.

The model covers:

- the numeric helpers, the box overlap test and the renderer's perspective
  projection (`Geometry`);
- the entities and their hit boxes (`Entities`);
- the player state machine (`PlayerModel`, a class whose methods update
  its fields);
- what one round of pattern spawning produces, as values (`Spawning`);
- the world generator: scrolling, the spawn loop, clean-up and the
  back-to-front draw list (`WorldModel`, a class holding the four object
  lists);
- the game's frame update, collision checks, power-up activation and coin
  magnet (`GameModel`).

JavaScript numbers are modelled as mathematical reals. Every
`Math.random()` draw is a parameter: a uniform value in [0, 1). Each round
of the spawn loop takes its draws from an oracle `rolls: nat -> Draws`.
The sines of the jump arc and of the coin arc are also parameters:
`jumpArc` in [0, 1] and `arc`, seven values in [0, 1].

The state-changing operations are methods. Each is proved against a
function of the old state:

- scrolling against `Scrolled`;
- the spawn loop against `SpawnFrom`;
- clean-up against `Cleaned`;
- the pickup passes against `CollectCoins`, `PickUpAll` and `BuffAfter`;
- the magnet against `Magnetised`.

The properties the game relies on are lemmas about those functions:

- a coin counts once;
- a buff runs for its full time exactly when a power-up of its kind was
  picked up;
- clean-up keeps exactly the live objects, in order;
- the draw list is sorted and holds exactly the right objects;
- every spawned pattern leaves a lane free;
- a corrected lane interpolation always arrives (see Findings).

## Model

| member | source | states |
|---|---|---|
| Geometry.Lerp | js/game.js:87 | the distance left to `b` is the old distance times 1 - t; for t in [0, 1] the result lies between `a` and `b` |
| Geometry.Clamp | js/game.js:88 | for lo <= hi the result is in [lo, hi]; it is `v` inside the range, `lo` below it and `hi` above it |
| Geometry.BoxesOverlapSymmetric | js/game.js:100-107 | the overlap test gives the same answer with its arguments swapped |
| Geometry.TouchingBoxesDoNotOverlap | js/game.js:100-107 | the comparisons are strict: boxes that only share a face on any axis do not overlap |
| Geometry.OverlapMeansSharedPoint | js/game.js:100-107 | reference meaning: two boxes of positive size overlap iff some point lies strictly inside both |
| Geometry.Viewport | js/game.js:516-521 | resize: the camera depth is the constant, the road centre is half the width, and the horizon lies above the ground line inside the height |
| Geometry.Project | js/game.js:524-532 | the scale lies strictly between 0 and 1; a point on the centre line projects to the road centre |
| Geometry.ProjectClampsNearPlane | js/game.js:525 | every depth below 0.1 projects exactly like depth 0.1 |
| Geometry.ScaleNonIncreasing | js/game.js:525-526 | a farther point is never drawn larger |
| Geometry.ScaleStrictlyDecreasing | js/game.js:526 | beyond the near plane a farther point is drawn strictly smaller |
| Entities.NewTrain | js/game.js:316-324 | definition, no contract of its own: the lane, x = lane - 1, z, the given length, and the configured width and height; the constructor's default length `rand(8, 22)` is drawn by `Spawning.SingleTrain`, and only the colour is not modelled |
| Entities.NewBarrier | js/game.js:331-338 | definition, no contract of its own: x = lane - 1, with height 0.9 for a low barrier and 2.8 for a high one |
| Entities.NewCoin | js/game.js:348-354 | definition, no contract of its own: uncollected; a height of 0 is falsy and falls back to the coin height |
| Entities.NewPowerUp | js/game.js:358-366 | definition, no contract of its own: x = lane - 1, y = 1.6, uncollected |
| Entities.TrainHitbox | js/game.js:325-327 | the box is centred on the train's x, as wide and high as the train, starts at its z and is its length deep |
| Entities.BarrierHitbox | js/game.js:339-344 | a high barrier's box floats at 1.2 and is 1.6 high; a low barrier's box stands on the ground at the barrier's height; both are 0.8 deep and centred on the lane |
| Entities.PlayerBox | js/game.js:304-309 | the box is 0.35 wide around the player's x, starts at the player's y, is 0.6 high sliding and 1.7 otherwise, and covers depths -0.5 to 0.5 |
| Entities.BarrierBoxReachesItsHeight | js/game.js:337-344 | for both kinds, a new barrier's box reaches exactly up to the barrier's height |
| Entities.SlidePassesUnderHighBarrier | js/game.js:339-342 | a sliding player on the ground never overlaps a high barrier |
| Entities.RunningHitsHighBarrier | js/game.js:339-342 | a running player in the barrier's lane and at its depth does overlap a high barrier |
| Entities.JumpClearsLowBarrier | js/game.js:343 | a player at least 0.9 above the ground clears any low barrier |
| Entities.OtherLaneTrainMisses | js/game.js:315-327 | a player centred on another lane never touches a train |
| Entities.OtherLaneBarrierMisses | js/game.js:330-344 | a player centred on another lane never touches a barrier |
| Entities.TrainInLaneHitsIff | js/game.js:325-327 | a player in a train's lane, below its roof, is hit iff the train's extent covers part of the player's depth |
| PlayerModel.LaneStepAsWrittenOscillates | js/game.js:261-268 | as written, at dt = 0.04 the move from x = 0 to x = 1 bounces between 0.8 and 1.2 for ever |
| PlayerModel.LaneStep | js/game.js:261-268 | corrected step: stays between the old x and the target, never moves away from the target, lands on it when it is within one step, and otherwise comes exactly one step closer |
| PlayerModel.LaneStepAsWritten | js/game.js:261-268 | definition, no contract of its own: the written lane step, a fixed 10 × dt towards the target, snapped only when it lands within 0.05 or starts within 0.02 of it; its behaviour is stated by `LaneStepAsWrittenOscillates` |
| PlayerModel.LaneAfterAsWritten | js/game.js:259-269 | definition, no contract of its own: n frames of the written step at a constant dt |
| PlayerModel.BouncesBetween | js/game.js:263-265 | from 0.8 or 1.2 towards 1 at dt = 0.04, the written step stays at 0.8 or 1.2 after any number of frames |
| PlayerModel.LaneAfter | js/game.js:259-269 | definition, no contract of its own: n frames of the corrected step; its behaviour is stated by `LaneArrives` and `StaysOnTarget` |
| PlayerModel.StaysOnTarget | js/game.js:266-267 | a player already on the target lane stays there for any number of frames |
| PlayerModel.LaneStepAgreesWithoutOvershoot | js/game.js:263-265 | when a step cannot reach the target, the corrected step is the written one |
| PlayerModel.LaneArrives | js/game.js:261-269 | with the correction the player is on the target lane after any number of ticks whose steps add up to at least the distance |
| PlayerModel.Countdown | js/game.js:295-297 | an active buff loses dt and stays on iff time remains; an inactive one is unchanged |
| PlayerModel.Advance | js/game.js:272-275 | a running move gains dt and stays on iff it is short of its duration; a move that is not running is unchanged |
| PlayerModel.CountdownStaysWithin | js/game.js:295-297 | counting down keeps a running buff's time within (0, duration] |
| PlayerModel.RunAnimation | js/game.js:300-301 | the frame stays in 0..7; it advances, with the timer reset, iff more than 0.07 s has accumulated |
| PlayerModel.Player.constructor | js/game.js:206-225 | a new player is in the reset state and valid |
| PlayerModel.Player.Reset | js/game.js:208-225 | middle lane, on the ground, no move, no buff, not dead; the invariant holds |
| PlayerModel.Player.MoveLeft | js/game.js:227 | refused, returning false, iff already at lane 0; otherwise the target lane drops by one; lanes stay in range |
| PlayerModel.Player.MoveRight | js/game.js:228 | refused iff already at lane 2; otherwise the target lane rises by one; lanes stay in range |
| PlayerModel.Player.Jump | js/game.js:230-239 | starts iff there is no jetpack and no jump; it restarts the jump clock and cancels a slide; a refusal changes nothing |
| PlayerModel.Player.Slide | js/game.js:241-257 | starts iff there is no jetpack and the player is jumping or not sliding; in the air it is a fast fall to y = 0; a refusal changes nothing |
| PlayerModel.Player.Update | js/game.js:259-302 | every section of the tick: lane step, jump clock and height, jetpack hold and its expiry into a half jump, slide clock, buff countdowns, run animation; the invariant is kept |
| PlayerModel.Player.StepLane | js/game.js:260-269 | x takes one corrected lane step (`LaneStep`, not the overshooting written step) towards the target; the lane becomes the target lane |
| PlayerModel.Player.StepJump | js/game.js:271-277 | the jump clock advances; on landing y = 0, otherwise y follows the arc |
| PlayerModel.Player.StepJetpack | js/game.js:279-286 | under the jetpack: pinned at 4.32, no jump or slide, and on expiry a jump at half its duration; without it nothing changes |
| PlayerModel.Player.StepSlide | js/game.js:288-292 | the slide clock advances and ends at 0.5 s |
| PlayerModel.Player.StepBuffs | js/game.js:294-297 | magnet and multiplier count down |
| PlayerModel.Player.StepRun | js/game.js:299-301 | the run frame and timer step as RunAnimation says |
| PlayerModel.Player.GetHitbox | js/game.js:304-309 | the player's box for the current x, y and slide state |
| Spawning.Rand | js/game.js:89 | rand(min, max) lies in [min, max) |
| Spawning.RandInt | js/game.js:90 | randInt(min, max) lies in [min, max] |
| Spawning.CoinLine | js/game.js:465-470 | every coin of a line is uncollected, on the line's x, at coin height, with z between start and end |
| Spawning.CoinLineSpacing | js/game.js:465-470 | the i-th coin is at start + 2.2 i; the line holds floor((end - start) / 2.2) + 1 coins |
| Spawning.ArcCoin | js/game.js:474-478 | the i-th arc coin is 2 i ahead, on the lane, and between coin height and coin height + 1.8 |
| Spawning.CoinArc | js/game.js:472-479 | an arc is exactly seven coins |
| Spawning.OtherLane | js/game.js:416 | (lane + randInt(1, 2)) % 3 is a lane in range other than `lane` |
| Spawning.OtherLanes | js/game.js:420-421 | the lanes a double row fills are exactly the two lanes other than the free one, in order |
| Spawning.FindFree | js/game.js:446 | the search returns the lowest lane different from both trains, and finds none only when l1 and l2 cover every lane |
| Spawning.ChooseKind | js/game.js:460-461 | definition, no contract of its own: `randChoice` over magnet, multiplier and jetpack |
| Spawning.ChooseBarrier | js/game.js:427 | definition, no contract of its own: low when the draw is above 0.5, otherwise high |
| Spawning.SingleTrain | js/game.js:412-416 | definition, no contract of its own: one train, and coins from z to z + 8 on one of the other two lanes; its meaning is stated by `SingleTrainPassable` |
| Spawning.DoubleTrain | js/game.js:417-423 | definition, no contract of its own: trains of length 8 to 14 on the two lanes other than the free one, and coins from z to z + 6 on the free lane; see `DoubleTrainPassable` |
| Spawning.BarrierRow | js/game.js:424-431 | definition, no contract of its own: two barriers of one kind, and coins from z - 3 to z + 3 on the free lane; see `BarrierRowPassable` |
| Spawning.TrainAndBarrier | js/game.js:432-438 | definition, no contract of its own: the train, a barrier 3 to 6 ahead on the next lane, and coins on the third lane; see `TrainAndBarrierPassable` |
| Spawning.StaggeredTrains | js/game.js:439-447 | definition, no contract of its own: two trains on different lanes, the second 15 to 25 ahead, and coins on the lane `find` returns; see `StaggeredTrainsPassable` |
| Spawning.CoinRun | js/game.js:448-456 | definition, no contract of its own: the coin arc, and on a toss above 0.5 a line on another lane; see `CoinRunPassable` |
| Spawning.Archetype | js/game.js:410-456 | definition, no contract of its own: the branch chosen at the thresholds 0.25, 0.45, 0.6, 0.75 and 0.88 |
| Spawning.Pattern | js/game.js:408-463 | definition, no contract of its own: the chosen branch plus the power-up roll; its meaning is stated by `PatternPassable` and `PatternObstaclesAhead` |
| Spawning.SingleTrainPassable | js/game.js:412-416 | a single-train pattern is well formed, leaves a lane clear and puts its coins on a clear lane |
| Spawning.DoubleTrainPassable | js/game.js:417-423 | likewise for the double train, whose coins run on the free lane |
| Spawning.BarrierRowPassable | js/game.js:424-431 | likewise for the barrier row |
| Spawning.TrainAndBarrierPassable | js/game.js:432-438 | likewise for the train and barrier combination |
| Spawning.StaggeredTrainsPassable | js/game.js:439-447 | the two staggered trains are on different lanes, the free-lane search always succeeds, and the pattern is passable |
| Spawning.CoinRunPassable | js/game.js:448-456 | a coin run has no obstacle and is passable |
| Spawning.PowerUpRoll | js/game.js:458-462 | exactly one power-up iff the roll is below 0.06; it is on a lane, built by its constructor, and 5 to 15 ahead |
| Spawning.PatternPassable | js/game.js:408-463 | every pattern, with its power-up, is well formed and fresh, leaves a lane free and puts its coins on clear lanes |
| Spawning.PatternObstaclesAhead | js/game.js:412-447 | trains start within 25 of the spawn depth and barriers within 6 of it, never behind it; train lengths lie within [8, 22) |
| Spawning.Difficulty | js/game.js:396 | the difficulty never drops below 1 |
| Spawning.DifficultyMonotone | js/game.js:396 | the difficulty never decreases with distance |
| Spawning.DifficultyStep | js/game.js:396 | the difficulty rises by exactly 0.15 every 400 units |
| Spawning.Gap | js/game.js:401 | the gap between patterns lies in [28 / 1.8, 48) |
| Spawning.SpawnFrom | js/game.js:399-403 | the spawn loop stops with the cursor at or beyond 280, never behind where it started, and less than one maximal gap past the larger of the two |
| Spawning.SpawnFromStep | js/game.js:399-403 | one round (push the pattern, add the gap) leaves the rest of the loop ending where the whole loop ends |
| Spawning.CursorProgress | js/game.js:399-403 | every round strictly lowers the bound on the rounds left, so the loop terminates |
| Spawning.SpawnFromKeepsShapes | js/game.js:399-403 | the loop only pushes well-formed, uncollected objects |
| Spawning.SpawnFromAppends | js/game.js:399-403 | the loop only appends: every list before it is a prefix of the list after it |
| WorldModel.Scrolled | js/game.js:389-392 | definition, no contract of its own: every object's z lowered by `move`; its meaning is stated by `ScrollAdditive`, `ScrollKeepsShapes` and `ScrollKeepsLanesClear` |
| WorldModel.ScrollAdditive | js/game.js:389-392 | two scrolls are one scroll by the sum; a scroll by 0 changes nothing |
| WorldModel.ScrollKeepsShapes | js/game.js:389-392 | scrolling keeps the objects well formed (as their constructors built them, on a lane) and uncollected |
| WorldModel.ScrollKeepsLanesClear | js/game.js:389-392 | scrolling moves no object to another lane |
| WorldModel.ScrollJoin | js/game.js:389-392 | scrolling commutes with appending objects |
| WorldModel.Filter | js/game.js:482-485 | the filtered list holds exactly the kept elements and is no longer |
| WorldModel.FilterCounts | js/game.js:482-485 | filtering keeps every occurrence of a kept element and nothing else |
| WorldModel.FilterAppend | js/game.js:482-485 | filtering distributes over concatenation, so the order of what is kept is preserved |
| WorldModel.Cleaned | js/game.js:481-486 | definition, no contract of its own: the four filters of `cleanup`; its meaning is stated by `CleanedKeepsExactly`, `CleanedIdempotent` and `CleanedJoin` |
| WorldModel.CleanedKeepsExactly | js/game.js:481-486 | clean-up keeps every train whose tail is above -10, every barrier above -5, and uncollected coins and power-ups above -5, each as often as before, and nothing else |
| WorldModel.CleanedIdempotent | js/game.js:481-486 | a second clean-up changes nothing |
| WorldModel.CleanedJoin | js/game.js:481-486 | cleaning a concatenation is concatenating the cleaned parts (order is kept) |
| WorldModel.CleanedKeepsShapes | js/game.js:481-486 | clean-up keeps objects well formed and clear lanes clear, and leaves nothing collected |
| WorldModel.SortZ | js/game.js:490-493 | definition, no contract of its own: a train's middle (z + length / 2), any other object's z |
| WorldModel.Insert | js/game.js:494 | definition, no contract of its own: one insertion step of the draw-list sort; see `InsertAddsOne` and `InsertSorted` |
| WorldModel.InsertAddsOne | js/game.js:494 | an insertion adds exactly the new entry to the list, as a multiset and as a set of members |
| WorldModel.InsertSorted | js/game.js:494 | inserting into a list sorted farthest first keeps it sorted |
| WorldModel.SortBackToFront | js/game.js:494 | definition, no contract of its own: `all.sort((a, b) => b.sortZ - a.sortZ)` as an insertion sort; its meaning is stated by `SortBackToFrontCorrect` |
| WorldModel.SortBackToFrontCorrect | js/game.js:494 | the draw list sort is ordered farthest first and is a permutation of its input |
| WorldModel.Gathered | js/game.js:489-493 | definition, no contract of its own: the four gather loops concatenated, unsorted; its meaning is stated by `GatheredMembers` |
| WorldModel.GatheredMembers | js/game.js:489-493 | the unsorted draw list holds every train and barrier and exactly the uncollected coins and power-ups |
| WorldModel.GatherTrains | js/game.js:490 | one train entry per train, in order |
| WorldModel.GatherBarriers | js/game.js:491 | one barrier entry per barrier, in order |
| WorldModel.GatherCoins | js/game.js:492 | one entry per uncollected coin, in order |
| WorldModel.GatherPowerUps | js/game.js:493 | one entry per uncollected power-up, in order |
| WorldModel.UpdateKeepsShapes | js/game.js:385-405 | scroll, spawn and clean-up together keep every object well formed and leave nothing collected |
| WorldModel.UpdatedInPhases | js/game.js:385-405 | the three phases run one after another give the update described on values |
| WorldModel.WorldGenerator.constructor | js/game.js:373-383 | a new generator is empty, with cursor 60, difficulty 1 and distance 0 |
| WorldModel.WorldGenerator.Reset | js/game.js:375-383 | all four lists empty, cursor 60, difficulty 1, distance 0 |
| WorldModel.WorldGenerator.Update | js/game.js:385-405 | the distance grows by speed × dt and sets the difficulty; the lists become the old ones scrolled, then with patterns spawned from the moved cursor, then cleaned; the cursor ends at or beyond 280; nothing collected remains; the invariant is kept |
| WorldModel.WorldGenerator.Advance | js/game.js:386-396 | objects and cursor move by `move`; the distance grows by it and sets the difficulty |
| WorldModel.WorldGenerator.Scroll | js/game.js:389-392 | every list is scrolled by `move` |
| WorldModel.WorldGenerator.ScrollTrains | js/game.js:389 | every train's z drops by `move` |
| WorldModel.WorldGenerator.ScrollBarriers | js/game.js:390 | every barrier's z drops by `move` |
| WorldModel.WorldGenerator.ScrollCoins | js/game.js:391 | every coin's z drops by `move` |
| WorldModel.WorldGenerator.ScrollPowerUps | js/game.js:392 | every power-up's z drops by `move` |
| WorldModel.WorldGenerator.SpawnAhead | js/game.js:399-403 | the lists and the cursor end as the spawn loop on values says |
| WorldModel.WorldGenerator.SpawnRound | js/game.js:400-402 | one round leaves what is left of the loop with the same outcome, and strictly lowers the round bound |
| WorldModel.WorldGenerator.SpawnPattern | js/game.js:408-463 | the lists gain exactly the pattern that the draws select at the cursor |
| WorldModel.WorldGenerator.SpawnSingleTrain | js/game.js:412-416 | pushes the single-train pattern |
| WorldModel.WorldGenerator.SpawnDoubleTrain | js/game.js:417-423 | pushes trains on the two lanes other than the free one, then the free lane's coins |
| WorldModel.WorldGenerator.SpawnBarrierRow | js/game.js:424-431 | pushes the two barriers of one kind, then the coins through the gap |
| WorldModel.WorldGenerator.SpawnTrainAndBarrier | js/game.js:432-438 | pushes the train, the barrier on the next lane and the coins on the third lane |
| WorldModel.WorldGenerator.SpawnStaggeredTrains | js/game.js:439-447 | pushes the two trains and the coins on the lane left over |
| WorldModel.WorldGenerator.SpawnCoinRun | js/game.js:448-456 | pushes the arc and, on the coin toss, a line on another lane |
| WorldModel.WorldGenerator.SpawnCoinLine | js/game.js:465-470 | appends exactly the coin line |
| WorldModel.WorldGenerator.SpawnCoinArc | js/game.js:472-479 | appends exactly the seven arc coins |
| WorldModel.WorldGenerator.GetSortedObjects | js/game.js:488-496 | the draw list is sorted farthest first and is a permutation of the gathered entries: every train and barrier and exactly the uncollected coins and power-ups |
| WorldModel.WorldGenerator.Cleanup | js/game.js:481-486 | the lists become their cleaned versions |
| GameModel.Best | js/game.js:1344-1348 | the high score is at least the old one and the run's score, is one of them, and is the run's score iff that is not below the old one |
| GameModel.CapDt | js/game.js:1364 | the frame is never longer than dt or than 0.05, and is one of the two |
| GameModel.NextSpeed | js/game.js:1368 | the speed never exceeds 200, never decreases, and grows by 0.4 dt below the cap |
| GameModel.SpeedAfterRamps | js/game.js:1368 | over n equal frames the speed is min(200, speed + 0.4 n dt) |
| GameModel.ScoreGainBounds | js/game.js:1375-1376 | a frame never loses score; under the multiplier it earns between double and double plus one |
| GameModel.ScoreGain | js/game.js:1375-1376 | definition, no contract of its own: `Math.floor(speed * dt * mult)`; see `ScoreGainBounds` |
| GameModel.SpeedAfter | js/game.js:1368 | definition, no contract of its own: n frames of the speed ramp; see `SpeedAfterRamps` |
| GameModel.CoinTouches | js/game.js:1426-1430 | definition, no contract of its own: an uncollected coin within 0.5 across, 0.8 of y + 0.9 and 1.5 of depth 0.5 |
| GameModel.CollectCoins | js/game.js:1425-1437 | definition, no contract of its own: every touching coin marked collected, the rest unchanged; its meaning is stated by `CollectCoinsCounts` and `CollectCoinsOnce` |
| GameModel.CollectCoinsCounts | js/game.js:1425-1437 | the collected count rises by exactly the number of coins picked up |
| GameModel.CollectCoinsOnce | js/game.js:1426-1431 | a coin counts once: after a pass nothing touches any more, and a second pass changes nothing |
| GameModel.PowerUpTouches | js/game.js:1441-1445 | definition, no contract of its own: an uncollected power-up within 0.5 across, 1.0 of y + 1 and 1.5 of depth 0.5 |
| GameModel.PickUpAll | js/game.js:1440-1452 | definition, no contract of its own: every touching power-up marked collected, the rest unchanged; its meaning is stated by `PickUpAllOnce` and `BuffAfterIff` |
| GameModel.PickUpAllOnce | js/game.js:1441-1446 | a second pass changes nothing and picks up no power-up of any kind |
| GameModel.BuffAfter | js/game.js:1440-1452 | definition, no contract of its own: each buff after the pass, with `activatePowerUp` applied per pickup in list order; its meaning is stated by `BuffAfterIff` |
| GameModel.Activated | js/game.js:1476-1494 | the buff of the picked kind is on with its full duration; a buff of another kind is unchanged |
| GameModel.BuffAfterIff | js/game.js:1440-1452 | after the pass a buff runs for its full time iff a power-up of its kind was picked up; otherwise it is as before |
| GameModel.BuffsStayWithin | js/game.js:1440-1452 | the pass keeps every buff timer within its duration, and a jetpack it changes is on |
| GameModel.NoticeAfter | js/game.js:1445-1448 | the banner is unchanged, or is a power-up's message shown for 2 s |
| GameModel.JetpackPickupShields | js/game.js:1440-1455 | picking up a jetpack turns it on before the obstacle check of the same frame |
| GameModel.HitsObstacle | js/game.js:1457-1473 | definition, no contract of its own: some train or barrier box overlaps the player's box; `CheckObstacles` uses it |
| GameModel.InMagnetRange | js/game.js:1411-1414 | definition, no contract of its own: an uncollected coin less than 3 across and between 0 and 6 ahead |
| GameModel.Pull | js/game.js:1414-1417 | definition, no contract of its own: the two lerps of `magnetEffect` on a coin in range; its meaning is stated by `PullDrawsIn` |
| GameModel.Magnetised | js/game.js:1410-1418 | definition, no contract of its own: `Pull` on every coin, in place; its meaning is stated by `PullDrawsIn` |
| GameModel.PullDrawsIn | js/game.js:1411-1417 | a coin in range comes nearer: to 85% of its distance across and 90% of its depth, still ahead; other coins stay put; no coin changes height or collected flag |
| GameModel.Game.constructor | js/game.js:1251-1280 | the loading state at the initial speed with nothing scored, the stored high score and coins, a reset player, an empty world and the invariant |
| GameModel.Game.StartGame | js/game.js:1295-1314 | playing from zero score, coins and distance at the initial speed, with no banner and a reset player and world; the high score and coin total carry over |
| GameModel.Game.ResetRun | js/game.js:1297-1304 | the game's own fields back to the start of a run |
| GameModel.Game.GameOver | js/game.js:1331-1356 | the game-over state with a 0.3 s shake; the high score is replaced only by a better score; the run's coins are banked |
| GameModel.Game.ShowNotification | js/game.js:1358-1361 | the banner text and its timer are set |
| GameModel.Game.ActivatePowerUp | js/game.js:1476-1494 | the flag of the kind is set with its full timer, the other buffs are unchanged, and the kind's banner shows for 2 s |
| GameModel.Game.PickUpCoins | js/game.js:1425-1437 | the coins become the collected pass over them; the coin count rises by one per coin picked up |
| GameModel.Game.PickUpPowerUps | js/game.js:1440-1452 | the power-ups become the pickup pass over them; each buff and the banner end as the pass over the list says |
| GameModel.Game.CheckObstacles | js/game.js:1455-1473 | no check while dead or under the jetpack; otherwise the player dies, and the game ends once, iff some train or barrier box overlaps the player's box; nothing changes when nothing is hit |
| GameModel.Game.MagnetEffect | js/game.js:1408-1419 | the coins become their magnetised versions; the invariant is kept |
| GameModel.Game.CheckCollisions | js/game.js:1421-1474 | coins, then power-ups, then obstacles, with the combined effect of the three passes; the invariant is kept |
| GameModel.Game.CollectPickups | js/game.js:1424-1452 | the coin pass and then the power-up pass, keeping the invariant. A piece of `checkCollisions` split out to keep each proof small; the source has no such function. |
| GameModel.Game.TakeCoins | js/game.js:1425-1437 | the coin pass, keeping the invariant. A piece of `checkCollisions` split out to keep each proof small; the source has no such function. |
| GameModel.Game.TakePowerUps | js/game.js:1440-1452 | the power-up pass, keeping the invariant. A piece of `checkCollisions` split out to keep each proof small; the source has no such function. |
| GameModel.Game.StepClock | js/game.js:1364-1385 | the clock grows by dt; the speed ramps; scroll offset and distance grow by speed × dt; the score grows by the frame's gain; the shake and banner timers count down and the banner clears when its time runs out |
| GameModel.Game.Update | js/game.js:1363-1406 | the frame is capped at 0.05; time, speed, distance and score change exactly as the frame says; the invariant is kept; coins and the high score never drop; a dead player stays dead |
| GameModel.Game.StepObjects | js/game.js:1387-1402 | player, world, collisions and magnet leave the clock, speed, distance and score alone and restore the invariant. A piece of `update` split out to keep each proof small; the source has no such function. |
| GameModel.Game.Interact | js/game.js:1397-1402 | collisions and then the magnet keep the invariant; coins and the high score never drop; a dead player stays dead. A piece of `update` split out to keep each proof small; the source has no such function. |
| GameModel.Game.MovePlayer | js/game.js:1388 | the player update keeps the player valid and does not change death. A piece of `update` split out to keep each proof small; the source has no such function. |
| GameModel.Game.MoveWorld | js/game.js:1391 | the world update keeps the world valid and brings its distance level with the game's. A piece of `update` split out to keep each proof small; the source has no such function. |

## Left out

- Drawing is not modelled: the Renderer's draw methods, `roundRect`, `Game.render`, the colour helpers `lightenColor` and `darkenColor`, train colours and coin bob phases. They do not affect the simulation.
- Audio, particles, the input handler and the UI controller are not modelled. Neither are `ui.updateHUD` in `update` and the delayed `ui.showGameOver` in `gameOver`. They only consume the state.
- localStorage is not modelled. The stored high score and coin total are constructor parameters. Writing them back, and the first-game flag, are not modelled.
- `init`, `gameLoop` and requestAnimationFrame are left out. The frame length is a parameter.
- GameModel.Game.Update, PlayerModel.Player.Update and WorldModel.WorldGenerator.Update: they assume dt >= 0, and nothing in the source guarantees it. `resume` sets `lastTime` from `performance.now()` (js/game.js:1326). `gameLoop` then takes dt from the next frame timestamp (js/game.js:1542), which can be earlier. `update` caps dt only from above (js/game.js:1364). In that first frame after a resume, time, scroll offset, distance and world distance go backwards, and the speed and score drop. That negative frame is not modelled.
- `pause` and `resume` are left out.
- Character selection is left out.
- `Math.random()` draws are parameters, and so are the sines of the jump arc and the coin arc.
- Floating point is modelled as exact reals. A coin line's `z += 2.2` loop can gain or lose the boundary coin under rounding; the model has no rounding.
- `shakeTime` is never initialised by the constructor (it is `undefined` until the first crash, and `undefined > 0` is false). The model starts it at 0.
- The entities are values. The draw list holds copies, not references to the objects, so aliasing is not modelled.
- `spawnPattern` (js/game.js:408-463) checks no lane against patterns already spawned. Each pattern on its own is proved passable (`Spawning.PatternPassable`). Two patterns spawned close together can still block all three lanes.
- GameModel.Game.Update: states the clock, speed, distance and score exactly. For the player, the world and the collisions it states only the invariant, the monotonicity of coins and the high score, and that death persists. Their full effect is stated by `PlayerModel.Player.Update`, `WorldModel.WorldGenerator.Update` and `GameModel.Game.CheckCollisions`, which it calls. Composing all of them into one contract makes the proof too costly.
- GameModel.Game.StepObjects: states only what `GameModel.Game.Update` needs, for the same reason.
- GameModel.Game.Interact: states only the invariant, the monotonicity of coins and the high score, and that death persists. The full effect is the contracts of `CheckCollisions` and `MagnetEffect`.
- GameModel.Game.MovePlayer: states only validity and that death is unchanged. The full effect is `PlayerModel.Player.Update`.
- GameModel.Game.MoveWorld: states only validity and the distance tie. The full effect is `WorldModel.WorldGenerator.Update`.
- PlayerModel.Player.Update: uses the corrected lane step `PlayerModel.LaneStep`, not the written one (see Findings).
- PlayerModel.Player.StepLane: applies the corrected lane step `PlayerModel.LaneStep`, not the overshooting step of js/game.js:263-265 (see Findings).

## Findings

| source | as written | input that shows it | evidently intended | confidence | as-written member | corrected member |
|---|---|---|---|---|---|---|
| js/game.js:263-265 | each frame the lateral position moves 10 × dt towards the target lane and snaps only if it lands within 0.05 of it; a step that overshoots by more than that is kept | a steady dt = 0.04 (25 frames per second), moving from the middle lane (x = 0) to the right lane (x = 1): x goes 0.4, 0.8, 1.2, 0.8, 1.2, … and never settles | the player settles on the target lane; a step that would reach or pass it lands on it | not executed | PlayerModel.LaneStepAsWrittenOscillates | PlayerModel.LaneArrives |
