/** The player state machine: lane changes, jump, slide, the jetpack flight,
    the timed buffs and the hit box (class Player of js/game.js). */
module PlayerModel {
  import opened Config
  import opened Geometry
  import opened Entities

  /** A lane offset at or below this is snapped to the target lane. */
  const LANE_SNAP: real := 0.02
  /** After a step, a distance below this to the target lane snaps to it. */
  const LANE_ARRIVE: real := 0.05

  // ---------------------------------------------------------------
  // Lateral movement towards the target lane
  // ---------------------------------------------------------------

  /** The lane interpolation of Player.update exactly as written: a fixed
      step of LANE_SWITCH_SPEED * dt towards the target, snapped only when
      it lands within LANE_ARRIVE of it.  A step that jumps past the target
      by more than that is kept. */
  function LaneStepAsWritten(x: real, targetX: real, dt: real): real {
    var dx := targetX - x;
    if Abs(dx) > LANE_SNAP then
      var nx := x + Sign(dx) * LANE_SWITCH_SPEED * dt;
      if Abs(nx - targetX) < LANE_ARRIVE then targetX else nx
    else
      targetX
  }

  /** `n` ticks of the as-written interpolation at a constant time step. */
  function LaneAfterAsWritten(x: real, targetX: real, dt: real, n: nat): real
    decreases n
  {
    if n == 0 then x else LaneAfterAsWritten(LaneStepAsWritten(x, targetX, dt), targetX, dt, n - 1)
  }

  /** At a steady 25 frames per second (dt = 0.04) a player moving from the
      middle lane (x = 0) to the right lane (x = 1) passes 0.4 and 0.8 and
      then bounces between 1.2 and 0.8 for ever. */
  lemma {:induction false} LaneStepAsWrittenOscillates(n: nat)
    ensures LaneAfterAsWritten(0.0, 1.0, 0.04, 2) == 0.8
    ensures var x := LaneAfterAsWritten(0.0, 1.0, 0.04, n + 2); (x == 0.8 || x == 1.2) && x != 1.0
  {
    assert LaneStepAsWritten(0.0, 1.0, 0.04) == 0.4;
    assert LaneStepAsWritten(0.4, 1.0, 0.04) == 0.8;
    assert LaneAfterAsWritten(0.4, 1.0, 0.04, 1) == LaneAfterAsWritten(0.8, 1.0, 0.04, 0);
    assert LaneAfterAsWritten(0.0, 1.0, 0.04, n + 2) == LaneAfterAsWritten(0.4, 1.0, 0.04, n + 1);
    assert LaneAfterAsWritten(0.4, 1.0, 0.04, n + 1) == LaneAfterAsWritten(0.8, 1.0, 0.04, n);
    BouncesBetween(0.8, n);
  }

  lemma {:induction false} BouncesBetween(x: real, n: nat)
    requires x == 0.8 || x == 1.2
    ensures var r := LaneAfterAsWritten(x, 1.0, 0.04, n); r == 0.8 || r == 1.2
    decreases n
  {
    if n > 0 {
      var nx := LaneStepAsWritten(x, 1.0, 0.04);
      assert x == 0.8 ==> nx == 1.2;
      assert x == 1.2 ==> nx == 0.8;
      BouncesBetween(nx, n - 1);
    }
  }

  /** Corrected interpolation: as written, except that a step that would
      reach or pass the target lands on it. */
  function LaneStep(x: real, targetX: real, dt: real): (nx: real)
    requires dt >= 0.0
    ensures Min(x, targetX) <= nx <= Max(x, targetX)
    ensures Abs(targetX - nx) <= Abs(targetX - x)
    ensures Abs(targetX - x) <= LANE_SWITCH_SPEED * dt ==> nx == targetX
    ensures nx == targetX || Abs(targetX - nx) == Abs(targetX - x) - LANE_SWITCH_SPEED * dt
  {
    var dx := targetX - x;
    if Abs(dx) > LANE_SNAP then
      var step := LANE_SWITCH_SPEED * dt;
      var nx := x + Sign(dx) * step;
      if Abs(dx) <= step || Abs(nx - targetX) < LANE_ARRIVE then targetX else nx
    else
      targetX
  }

  /** Where the step does not overshoot, the correction changes nothing. */
  lemma LaneStepAgreesWithoutOvershoot(x: real, targetX: real, dt: real)
    requires dt >= 0.0 && Abs(targetX - x) > LANE_SWITCH_SPEED * dt
    ensures LaneStep(x, targetX, dt) == LaneStepAsWritten(x, targetX, dt)
  {
  }

  function LaneAfter(x: real, targetX: real, dt: real, n: nat): real
    requires dt >= 0.0
    decreases n
  {
    if n == 0 then x else LaneAfter(LaneStep(x, targetX, dt), targetX, dt, n - 1)
  }

  /** With the correction the player settles on the target lane after at
      most ceil(distance / (LANE_SWITCH_SPEED * dt)) ticks, and stays there. */
  lemma {:induction false} LaneArrives(x: real, targetX: real, dt: real, n: nat)
    requires dt >= 0.0 && Abs(targetX - x) <= (n as real) * LANE_SWITCH_SPEED * dt
    ensures LaneAfter(x, targetX, dt, n) == targetX
    decreases n
  {
    if n > 0 {
      var nx := LaneStep(x, targetX, dt);
      if nx == targetX {
        StaysOnTarget(targetX, dt, n - 1);
      } else {
        assert Abs(targetX - nx) == Abs(targetX - x) - LANE_SWITCH_SPEED * dt;
        assert (n as real) * LANE_SWITCH_SPEED * dt == ((n - 1) as real) * LANE_SWITCH_SPEED * dt + LANE_SWITCH_SPEED * dt;
        LaneArrives(nx, targetX, dt, n - 1);
      }
    }
  }

  lemma {:induction false} StaysOnTarget(targetX: real, dt: real, n: nat)
    requires dt >= 0.0
    ensures LaneAfter(targetX, targetX, dt, n) == targetX
    decreases n
  {
    if n > 0 {
      assert LaneStep(targetX, targetX, dt) == targetX;
      StaysOnTarget(targetX, dt, n - 1);
    }
  }

  // ---------------------------------------------------------------
  // Timers
  // ---------------------------------------------------------------

  /** A boolean state of the player together with its timer: jumping and
      jumpTime, sliding and slideTime, hasMagnet and magnetTime, and so on. */
  datatype Timer = Timer(on: bool, time: real)

  /** An active buff (magnet, multiplier, jetpack) that is counting down by
      dt, switching off once its time is used up.  An inactive one is left alone. */
  function Countdown(t: Timer, dt: real): (r: Timer)
    ensures r.on ==> t.on && r.time > 0.0
    ensures t.on ==> r.time == t.time - dt && (r.on <==> t.time - dt > 0.0)
    ensures !t.on ==> r == t
  {
    if t.on then Timer(t.time - dt > 0.0, t.time - dt) else t
  }

  /** A running move (jump, slide) whose elapsed time grows by dt, ending once
      it reaches `duration`.  A move that is not running is left alone. */
  function Advance(t: Timer, dt: real, duration: real): (r: Timer)
    ensures r.on ==> t.on && r.time < duration
    ensures t.on ==> r.time == t.time + dt && (r.on <==> t.time + dt < duration)
    ensures !t.on ==> r == t
  {
    if t.on then Timer(t.time + dt < duration, t.time + dt) else t
  }

  /** A timer that is running lies within (0, duration]. */
  predicate Within(t: Timer, duration: real) {
    t.on ==> 0.0 < t.time <= duration
  }

  /** Counting down keeps a buff within its duration for any dt >= 0. */
  lemma CountdownStaysWithin(t: Timer, dt: real, duration: real)
    requires Within(t, duration) && dt >= 0.0
    ensures Within(Countdown(t, dt), duration)
  {
  }

  /** The run-cycle animation: a new frame (of RUN_FRAMES) once more than
      RUN_FRAME_TIME has accumulated. */
  function RunAnimation(frame: int, timer: real, dt: real): (r: (int, real))
    requires 0 <= frame < RUN_FRAMES
    ensures 0 <= r.0 < RUN_FRAMES
    ensures r.0 == frame <==> timer + dt <= RUN_FRAME_TIME
    ensures r.0 != frame ==> r.0 == (frame + 1) % RUN_FRAMES && r.1 == 0.0
    ensures r.0 == frame ==> r.1 == timer + dt
  {
    var t := timer + dt;
    if t > RUN_FRAME_TIME then ((frame + 1) % RUN_FRAMES, 0.0) else (frame, t)
  }

  // ---------------------------------------------------------------
  // The player
  // ---------------------------------------------------------------

  class Player {
    var lane: int
    var targetLane: int
    var x: real
    var y: real
    var jump: Timer        // jumping, jumpTime
    var slide: Timer       // sliding, slideTime
    var runFrame: int
    var runTimer: real
    var dead: bool
    var magnet: Timer      // hasMagnet, magnetTime
    var multiplier: Timer  // hasMultiplier, multiplierTime
    var jetpack: Timer     // hasJetpack, jetpackTime

    /** The state machine's invariant: lanes in range, the player on the
        ground unless jumping or flying, and every running timer inside its
        duration. */
    ghost predicate Valid()
      reads this`lane, this`targetLane, this`y, this`jump, this`slide, this`runFrame, this`runTimer
      reads this`magnet, this`multiplier, this`jetpack
    {
      && ValidLane(lane) && ValidLane(targetLane)
      && 0 <= runFrame < RUN_FRAMES && runTimer >= 0.0
      && 0.0 <= y <= JETPACK_Y
      && (!jump.on && !jetpack.on ==> y == 0.0)
      && (jump.on ==> 0.0 <= jump.time < JUMP_DURATION)
      && (slide.on ==> 0.0 <= slide.time < SLIDE_DURATION)
      && Within(magnet, MAGNET_DURATION)
      && Within(multiplier, MULTIPLIER_DURATION)
      && Within(jetpack, JETPACK_DURATION)
    }

    /** The state Player.reset leaves behind. */
    ghost predicate Initial()
      reads this
    {
      && lane == 1 && targetLane == 1 && x == 0.0 && y == 0.0
      && jump == Timer(false, 0.0) && slide == Timer(false, 0.0)
      && runFrame == 0 && runTimer == 0.0 && !dead
      && magnet == Timer(false, 0.0)
      && multiplier == Timer(false, 0.0)
      && jetpack == Timer(false, 0.0)
    }

    constructor ()
      ensures Valid() && Initial()
    {
      lane, targetLane, x, y := 1, 1, 0.0, 0.0;
      jump, slide := Timer(false, 0.0), Timer(false, 0.0);
      runFrame, runTimer, dead := 0, 0.0, false;
      magnet, multiplier, jetpack := Timer(false, 0.0), Timer(false, 0.0), Timer(false, 0.0);
    }

    method Reset()
      modifies this
      ensures Valid() && Initial()
    {
      lane, targetLane, x, y := 1, 1, 0.0, 0.0;
      jump, slide := Timer(false, 0.0), Timer(false, 0.0);
      runFrame, runTimer, dead := 0, 0.0, false;
      magnet, multiplier, jetpack := Timer(false, 0.0), Timer(false, 0.0), Timer(false, 0.0);
    }

    /** Refused at the leftmost lane; otherwise the target lane moves one left. */
    method MoveLeft() returns (moved: bool)
      requires Valid()
      modifies this`targetLane
      ensures Valid()
      ensures moved <==> old(targetLane) > 0
      ensures targetLane == if moved then old(targetLane) - 1 else old(targetLane)
    {
      if targetLane > 0 {
        targetLane := targetLane - 1;
        return true;
      }
      return false;
    }

    /** Refused at the rightmost lane; otherwise the target lane moves one right. */
    method MoveRight() returns (moved: bool)
      requires Valid()
      modifies this`targetLane
      ensures Valid()
      ensures moved <==> old(targetLane) < 2
      ensures targetLane == if moved then old(targetLane) + 1 else old(targetLane)
    {
      if targetLane < 2 {
        targetLane := targetLane + 1;
        return true;
      }
      return false;
    }

    /** Refused under the jetpack or while already in the air; otherwise
        starts a new arc and cancels a slide (keeping the slide's timer). */
    method Jump() returns (started: bool)
      requires Valid()
      modifies this`jump, this`slide
      ensures Valid()
      ensures started <==> !old(jetpack.on) && !old(jump.on)
      ensures started ==> jump == Timer(true, 0.0) && slide == old(slide).(on := false)
      ensures !started ==> unchanged(this)
    {
      if jetpack.on {
        return false;
      }
      if !jump.on {
        jump := Timer(true, 0.0);
        slide := slide.(on := false);
        return true;
      }
      return false;
    }

    /** Refused under the jetpack, and when already sliding on the ground.
        In the air it is a fast fall: the jump ends (keeping its timer), the
        player drops to the ground and slides. */
    method Slide() returns (started: bool)
      requires Valid()
      modifies this`jump, this`y, this`slide
      ensures Valid()
      ensures started <==> !old(jetpack.on) && (old(jump.on) || !old(slide.on))
      ensures started ==> slide == Timer(true, 0.0) && jump == old(jump).(on := false)
      ensures started ==> y == (if old(jump.on) then 0.0 else old(y))
      ensures !started ==> unchanged(this)
    {
      if jetpack.on {
        return false;
      }
      if jump.on {
        jump := jump.(on := false);
        y := 0.0;
        slide := Timer(true, 0.0);
        return true;
      }
      if !slide.on {
        slide := Timer(true, 0.0);
        return true;
      }
      return false;
    }

    /** One tick of the player, section by section as in Player.update.
        `jumpArc` stands for sin(pi * t) at the jump's progress t, a value
        in [0, 1]. */
    method Update(dt: real, jumpArc: real)
      requires Valid() && dt >= 0.0 && 0.0 <= jumpArc <= 1.0
      modifies this
      ensures Valid()
      ensures targetLane == old(targetLane) && lane == targetLane
      ensures x == LaneStep(old(x), LaneX(old(targetLane)), dt)
      ensures dead == old(dead)
      // Under the jetpack: pinned at flight height, not sliding; on expiry
      // the player is put half-way into a jump.
      ensures old(jetpack.on) ==>
                && jetpack == Countdown(old(jetpack), dt)
                && y == JETPACK_Y && slide == old(slide).(on := false)
                && jump == (if jetpack.on then Advance(old(jump), dt, JUMP_DURATION).(on := false)
                            else Timer(true, JUMP_DURATION / 2.0))
      // Otherwise the jump and the slide run their course.
      ensures !old(jetpack.on) ==>
                && jetpack == old(jetpack)
                && jump == Advance(old(jump), dt, JUMP_DURATION)
                && y == (if jump.on then JUMP_HEIGHT * jumpArc else if old(jump.on) then 0.0 else old(y))
                && slide == Advance(old(slide), dt, SLIDE_DURATION)
      ensures magnet == Countdown(old(magnet), dt)
      ensures multiplier == Countdown(old(multiplier), dt)
      ensures (runFrame, runTimer) == RunAnimation(old(runFrame), old(runTimer), dt)
    {
      StepLane(dt);
      StepJump(dt, jumpArc);
      StepJetpack(dt);
      StepSlide(dt);
      StepBuffs(dt);
      StepRun(dt);
    }

    /** Smooth lane switching (with the overshoot correction of LaneStep). */
    method StepLane(dt: real)
      requires dt >= 0.0
      modifies this`x, this`lane
      ensures x == LaneStep(old(x), LaneX(targetLane), dt) && lane == targetLane
    {
      x := LaneStep(x, LaneX(targetLane), dt);
      lane := targetLane;
    }

    /** The jump's clock; it lands once t = jumpTime / JUMP_DURATION reaches 1. */
    method StepJump(dt: real, jumpArc: real)
      modifies this`jump, this`y
      ensures jump == Advance(old(jump), dt, JUMP_DURATION)
      ensures y == (if jump.on then JUMP_HEIGHT * jumpArc else if old(jump.on) then 0.0 else old(y))
    {
      if jump.on {
        jump := jump.(time := jump.time + dt);
        var t := jump.time / JUMP_DURATION;
        if t >= 1.0 {
          jump := jump.(on := false);
          y := 0.0;
        } else {
          y := JUMP_HEIGHT * jumpArc;
        }
      }
    }

    /** The jetpack holds the player at flight height; when it runs out the
        player falls from the top of a jump. */
    method StepJetpack(dt: real)
      modifies this`jetpack, this`y, this`jump, this`slide
      ensures old(jetpack.on) ==>
                && jetpack == Countdown(old(jetpack), dt)
                && y == JETPACK_Y && slide == old(slide).(on := false)
                && jump == (if jetpack.on then old(jump).(on := false) else Timer(true, JUMP_DURATION / 2.0))
      ensures !old(jetpack.on) ==> jetpack == old(jetpack) && y == old(y) && jump == old(jump) && slide == old(slide)
    {
      if jetpack.on {
        jetpack := jetpack.(time := jetpack.time - dt);
        y := JETPACK_Y;
        jump := jump.(on := false);
        slide := slide.(on := false);
        if jetpack.time <= 0.0 {
          jetpack := jetpack.(on := false);
          jump := Timer(true, JUMP_DURATION * 0.5);
        }
      }
    }

    method StepSlide(dt: real)
      modifies this`slide
      ensures slide == Advance(old(slide), dt, SLIDE_DURATION)
    {
      if slide.on {
        slide := slide.(time := slide.time + dt);
        if slide.time >= SLIDE_DURATION {
          slide := slide.(on := false);
        }
      }
    }

    /** The magnet and the multiplier count down. */
    method StepBuffs(dt: real)
      modifies this`magnet, this`multiplier
      ensures magnet == Countdown(old(magnet), dt)
      ensures multiplier == Countdown(old(multiplier), dt)
    {
      if magnet.on {
        magnet := magnet.(time := magnet.time - dt);
        if magnet.time <= 0.0 {
          magnet := magnet.(on := false);
        }
      }
      if multiplier.on {
        multiplier := multiplier.(time := multiplier.time - dt);
        if multiplier.time <= 0.0 {
          multiplier := multiplier.(on := false);
        }
      }
    }

    method StepRun(dt: real)
      requires 0 <= runFrame < RUN_FRAMES
      modifies this`runFrame, this`runTimer
      ensures (runFrame, runTimer) == RunAnimation(old(runFrame), old(runTimer), dt)
    {
      runTimer := runTimer + dt;
      if runTimer > RUN_FRAME_TIME {
        runFrame := (runFrame + 1) % RUN_FRAMES;
        runTimer := 0.0;
      }
    }

    /** Player.getHitbox. */
    function GetHitbox(): (b: Box)
      reads this
      ensures b == PlayerBox(x, y, slide.on)
      ensures b.height == (if slide.on then PLAYER_SLIDE_HEIGHT else PLAYER_HEIGHT)
    {
      PlayerBox(x, y, slide.on)
    }
  }
}
