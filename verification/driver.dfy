/**
 The fixed-timestep driver of main.cpp (`update`): elapsed wall-clock time is
 folded into an accumulator, and whole sub-steps of FIXED_TIMESTEP are run
 while the accumulator holds one and the player has neither won nor lost.
 Each sub-step moves the obstacle, steps the player against every platform
 and applies the world-boundary lose rule.
 */
module Driver {
  import opened Entities
  import opened Game

  /** FIXED_TIMESTEP in seconds; its single-precision rounding is not modelled. */
  const FixedTimestep: real := 0.0166666
  const MillisecondsInSecond: real := 1000.0
  /** The player loses once its x leaves [-WorldBound, WorldBound]. */
  const WorldBound: real := 4.8

  /** The clock reading in seconds, from the millisecond tick counter. */
  function Ticks(nowMillis: nat): real
  {
    nowMillis as real / MillisecondsInSecond
  }

  predicate OutOfBounds(e: Entity)
  {
    e.position.x < -WorldBound || e.position.x > WorldBound
  }

  /** The player's physics step of one sub-step, against the platforms as
      they stand after the obstacle has moved. */
  function PlayerStep(b: Behaviour, platforms: seq<Entity>, player: Entity): Entity
  {
    b.update(player, FixedTimestep, platforms)
  }

  /** One pass of the loop body, without the decrement of the time budget.
      `orbit` stands for the obstacle's cos/sin placement as a function of
      the angle. */
  function SubStep(b: Behaviour, orbit: real -> Vec3, s: GameState): (r: GameState)
    requires Wf(s)
    ensures Wf(r)
    ensures r.angle == s.angle + FixedTimestep
  {
    // The obstacle's own physics step, then set_position onto its orbit.
    var reaper := SetPosition(b.update(s.platforms[ReaperSlot], FixedTimestep, []), orbit(s.angle));
    var platforms := s.platforms[ReaperSlot := reaper];
    var moved := PlayerStep(b, platforms, s.player);
    // The world-boundary rule: object_loses on the stepped player.
    var player := if OutOfBounds(moved) then ObjectLoses(moved) else moved;
    s.(player := player, platforms := platforms, angle := s.angle + FixedTimestep)
  }

  /** What a sub-step does: the obstacle takes its own physics step against
      no other entity and is then placed on its orbit at the old angle, and
      nothing else on the platform list moves; the player is
      stepped against the moved obstacle, and the driver adds at most the
      lose flag, which it adds whenever the player ends up out of bounds. */
  lemma SubStepEffect(b: Behaviour, orbit: real -> Vec3, s: GameState)
    requires Wf(s)
    ensures var r := SubStep(b, orbit, s);
      && r.platforms[ReaperSlot] == SetPosition(b.update(s.platforms[ReaperSlot], FixedTimestep, []), orbit(s.angle))
      && r.platforms[ReaperSlot].position == orbit(s.angle)
      && (forall i :: 0 <= i < PlatformCount && i != ReaperSlot ==> r.platforms[i] == s.platforms[i])
      && ChangesOnly(PlayerStep(b, r.platforms, s.player), r.player, {Lost})
      && (OutOfBounds(r.player) ==> r.player.loseGame)
      && (!OutOfBounds(r.player) ==> r.player == PlayerStep(b, r.platforms, s.player))
      && r.fuel == s.fuel && r.previousTicks == s.previousTicks && r.accumulator == s.accumulator
  {
  }

  /** `n` sub-steps one after the other, regardless of time or outcome. */
  function Simulate(b: Behaviour, orbit: real -> Vec3, s: GameState, n: nat): (r: GameState)
    requires Wf(s)
    ensures Wf(r)
    decreases n
  {
    if n == 0 then s else Simulate(b, orbit, SubStep(b, orbit, s), n - 1)
  }

  /** The outcome of the catch-up loop: the state, the unspent time and the
      number of sub-steps run. */
  datatype Catch = Catch(state: GameState, leftover: real, steps: nat)

  /** The while loop of `update` on a time budget `dt`. */
  function CatchUp(b: Behaviour, orbit: real -> Vec3, s: GameState, dt: real): (c: Catch)
    requires Wf(s)
    ensures Wf(c.state)
    ensures c.steps == 0 <==> dt < FixedTimestep || Terminal(s.player)
    ensures c.steps == 0 ==> c.state == s && c.leftover == dt
    decreases if dt < FixedTimestep then 0 else (dt / FixedTimestep).Floor
  {
    if dt >= FixedTimestep && !Terminal(s.player) then
      var c := CatchUp(b, orbit, SubStep(b, orbit, s), dt - FixedTimestep);
      Catch(c.state, c.leftover, c.steps + 1)
    else
      Catch(s, dt, 0)
  }

  /** The loop conserves time (leftover = budget - steps * FIXED_TIMESTEP),
      advances the angle by FIXED_TIMESTEP per sub-step, and stops only when
      less than a timestep is left or the player has won or lost; it runs
      nothing for a terminal player or a budget under one timestep. */
  lemma {:induction false} CatchUpFacts(b: Behaviour, orbit: real -> Vec3, s: GameState, dt: real)
    requires Wf(s)
    ensures var c := CatchUp(b, orbit, s, dt);
      && c.leftover == dt - c.steps as real * FixedTimestep
      && c.state.angle == s.angle + c.steps as real * FixedTimestep
      && (c.leftover < FixedTimestep || Terminal(c.state.player))
      && (Terminal(s.player) || dt < FixedTimestep ==> c.steps == 0 && c.state == s)
      && (dt >= 0.0 ==> c.leftover >= 0.0)
      && (c.steps > 0 && OutOfBounds(c.state.player) ==> c.state.player.loseGame)
      && c.state.fuel == s.fuel
      && c.state.previousTicks == s.previousTicks && c.state.accumulator == s.accumulator
    decreases if dt < FixedTimestep then 0 else (dt / FixedTimestep).Floor
  {
    if dt >= FixedTimestep && !Terminal(s.player) {
      var s' := SubStep(b, orbit, s);
      SubStepEffect(b, orbit, s);
      CatchUpUnfold(b, orbit, s, dt);
      CatchUpFacts(b, orbit, s', dt - FixedTimestep);
    }
  }

  /** A frame's worth of `update`: the new state and the number of sub-steps. */
  datatype Stepped = Stepped(state: GameState, steps: nat)

  /** `update` as a function of the clock reading `nowMillis`. */
  function Tick(b: Behaviour, orbit: real -> Vec3, s: GameState, nowMillis: nat): (r: Stepped)
    requires Wf(s)
    ensures Wf(r.state)
    ensures r.state.previousTicks == Ticks(nowMillis)
    ensures r.state.accumulator
      == s.accumulator + (Ticks(nowMillis) - s.previousTicks) - r.steps as real * FixedTimestep
    ensures r.state.angle == s.angle + r.steps as real * FixedTimestep
    ensures r.state.accumulator < FixedTimestep || Terminal(r.state.player)
    ensures s.accumulator + (Ticks(nowMillis) - s.previousTicks) < FixedTimestep || Terminal(s.player) ==>
      && r.steps == 0
      && r.state == s.(previousTicks := Ticks(nowMillis),
                       accumulator := s.accumulator + (Ticks(nowMillis) - s.previousTicks))
    ensures s.accumulator + (Ticks(nowMillis) - s.previousTicks) >= 0.0 ==> r.state.accumulator >= 0.0
    ensures r.steps > 0 && OutOfBounds(r.state.player) ==> r.state.player.loseGame
    ensures r.state.fuel == s.fuel
  {
    var ticks := Ticks(nowMillis);
    var deltaTime := ticks - s.previousTicks + s.accumulator;
    if deltaTime < FixedTimestep then
      Stepped(s.(previousTicks := ticks, accumulator := deltaTime), 0)
    else
      var c := CatchUp(b, orbit, s.(previousTicks := ticks), deltaTime);
      CatchUpFacts(b, orbit, s.(previousTicks := ticks), deltaTime);
      Stepped(c.state.(accumulator := c.leftover), c.steps)
  }

  /** The imperative `update`, proved to agree with `Tick`. */
  method Update(b: Behaviour, orbit: real -> Vec3, s: GameState, nowMillis: nat)
    returns (r: GameState, steps: nat)
    requires Wf(s)
    ensures Stepped(r, steps) == Tick(b, orbit, s, nowMillis)
    ensures r.accumulator == s.accumulator + (Ticks(nowMillis) - s.previousTicks) - steps as real * FixedTimestep
    ensures r.angle == s.angle + steps as real * FixedTimestep
    ensures r.accumulator < FixedTimestep || Terminal(r.player)
  {
    var ticks := Ticks(nowMillis);
    var deltaTime := ticks - s.previousTicks;
    var state := s.(previousTicks := ticks);
    deltaTime := deltaTime + s.accumulator;
    if deltaTime < FixedTimestep {
      r := state.(accumulator := deltaTime);
      steps := 0;
      return;
    }
    var leftover;
    state, leftover, steps := CatchUpLoop(b, orbit, state, deltaTime);
    r := state.(accumulator := leftover);
  }

  /** The while loop of `update`, with the time budget kept in a local as the
      source does: it computes what `CatchUp` describes. */
  method CatchUpLoop(b: Behaviour, orbit: real -> Vec3, s: GameState, dt: real)
    returns (state: GameState, deltaTime: real, steps: nat)
    requires Wf(s)
    ensures Catch(state, deltaTime, steps) == CatchUp(b, orbit, s, dt)
    ensures deltaTime == dt - steps as real * FixedTimestep
    ensures state.angle == s.angle + steps as real * FixedTimestep
    ensures deltaTime < FixedTimestep || Terminal(state.player)
  {
    ghost var goal := CatchUp(b, orbit, s, dt);
    state, deltaTime, steps := s, dt, 0;
    while deltaTime >= FixedTimestep && !Terminal(state.player)
      invariant Wf(state)
      invariant deltaTime == dt - steps as real * FixedTimestep
      invariant state.angle == s.angle + steps as real * FixedTimestep
      invariant Remaining(CatchUp(b, orbit, state, deltaTime), goal, steps)
      decreases (deltaTime / FixedTimestep).Floor
    {
      CatchUpUnfold(b, orbit, state, deltaTime);
      RemainingShrinks(CatchUp(b, orbit, state, deltaTime),
                       CatchUp(b, orbit, SubStep(b, orbit, state), deltaTime - FixedTimestep), goal, steps);
      state := SubStep(b, orbit, state);
      deltaTime := deltaTime - FixedTimestep;
      steps := steps + 1;
    }
  }

  /** `rest` is what is left of the loop `goal` after `done` sub-steps. */
  predicate Remaining(rest: Catch, goal: Catch, done: nat)
  {
    rest.state == goal.state && rest.leftover == goal.leftover && rest.steps + done == goal.steps
  }

  lemma RemainingShrinks(rest: Catch, next: Catch, goal: Catch, done: nat)
    requires Remaining(rest, goal, done)
    requires rest == Catch(next.state, next.leftover, next.steps + 1)
    ensures Remaining(next, goal, done + 1)
  {
  }

  /** One turn of the loop, and the shrinking of the loop's measure. */
  lemma CatchUpUnfold(b: Behaviour, orbit: real -> Vec3, s: GameState, dt: real)
    requires Wf(s) && dt >= FixedTimestep && !Terminal(s.player)
    ensures var c := CatchUp(b, orbit, SubStep(b, orbit, s), dt - FixedTimestep);
      CatchUp(b, orbit, s, dt) == Catch(c.state, c.leftover, c.steps + 1)
    ensures ((dt - FixedTimestep) / FixedTimestep).Floor < (dt / FixedTimestep).Floor
  {
    assert (dt - FixedTimestep) / FixedTimestep == dt / FixedTimestep - 1.0;
  }

  // ----- properties of the driver -----

  /** With the player alive from start to finish and a non-negative budget,
      the loop runs exactly floor(budget / FIXED_TIMESTEP) sub-steps. */
  lemma StepCountIsFloor(total: real, steps: nat, leftover: real)
    requires leftover == total - steps as real * FixedTimestep
    requires 0.0 <= leftover < FixedTimestep
    ensures (total / FixedTimestep).Floor == steps
  {
    var q := total / FixedTimestep;
    assert q == steps as real + leftover / FixedTimestep;
    assert 0.0 <= leftover / FixedTimestep < 1.0;
  }

  /** A frame that leaves the player alive, on a non-negative budget, runs
      floor((accumulator + elapsed) / FIXED_TIMESTEP) sub-steps. */
  lemma TickStepCount(b: Behaviour, orbit: real -> Vec3, s: GameState, nowMillis: nat)
    requires Wf(s)
    requires s.accumulator + (Ticks(nowMillis) - s.previousTicks) >= 0.0
    requires !Terminal(Tick(b, orbit, s, nowMillis).state.player)
    ensures Tick(b, orbit, s, nowMillis).steps
      == ((s.accumulator + (Ticks(nowMillis) - s.previousTicks)) / FixedTimestep).Floor
  {
    var r := Tick(b, orbit, s, nowMillis);
    StepCountIsFloor(s.accumulator + (Ticks(nowMillis) - s.previousTicks), r.steps, r.state.accumulator);
  }

  /** The loop runs exactly the sub-steps that `Simulate` would, and the
      player is alive before each of them: no sub-step follows a win or a loss. */
  lemma {:induction false} CatchUpSimulates(b: Behaviour, orbit: real -> Vec3, s: GameState, dt: real)
    requires Wf(s)
    ensures CatchUp(b, orbit, s, dt).state == Simulate(b, orbit, s, CatchUp(b, orbit, s, dt).steps)
    ensures forall k :: 0 <= k < CatchUp(b, orbit, s, dt).steps ==> !Terminal(Simulate(b, orbit, s, k).player)
    decreases if dt < FixedTimestep then 0 else (dt / FixedTimestep).Floor
  {
    if dt >= FixedTimestep && !Terminal(s.player) {
      var s' := SubStep(b, orbit, s);
      CatchUpSimulates(b, orbit, s', dt - FixedTimestep);
      var n := CatchUp(b, orbit, s, dt).steps;
      forall k | 0 <= k < n
        ensures !Terminal(Simulate(b, orbit, s, k).player)
      {
        if k > 0 {
          assert Simulate(b, orbit, s, k) == Simulate(b, orbit, s', k - 1);
        }
      }
    }
  }

  /** A sub-step that carries the player past either world boundary ends the
      loop: it is the last sub-step of the frame. */
  lemma BoundaryEndsTheLoop(b: Behaviour, orbit: real -> Vec3, s: GameState, dt: real, k: nat)
    requires Wf(s)
    requires 1 <= k <= CatchUp(b, orbit, s, dt).steps
    requires OutOfBounds(Simulate(b, orbit, s, k).player)
    ensures k == CatchUp(b, orbit, s, dt).steps
    ensures Simulate(b, orbit, s, k).player.loseGame
  {
    CatchUpSimulates(b, orbit, s, dt);
    SimulateLastStep(b, orbit, s, k);
  }

  /** The state after `n + 1` sub-steps is one sub-step after the state after `n`. */
  lemma {:induction false} SimulateLastStep(b: Behaviour, orbit: real -> Vec3, s: GameState, n: nat)
    requires Wf(s) && n >= 1
    ensures Simulate(b, orbit, s, n) == SubStep(b, orbit, Simulate(b, orbit, s, n - 1))
    decreases n
  {
    if n > 1 {
      SimulateLastStep(b, orbit, SubStep(b, orbit, s), n - 1);
    }
  }

  /** The obstacle's angle grows by FIXED_TIMESTEP per sub-step. */
  lemma {:induction false} SimulateAngle(b: Behaviour, orbit: real -> Vec3, s: GameState, n: nat)
    requires Wf(s)
    ensures Simulate(b, orbit, s, n).angle == s.angle + n as real * FixedTimestep
    decreases n
  {
    if n > 0 {
      SimulateAngle(b, orbit, SubStep(b, orbit, s), n - 1);
    }
  }

  /** A loop budget of two and a half timesteps runs two sub-steps and
      carries half a timestep over, provided the player survives them. The
      budget is a sum of accumulator and elapsed time, not a pair of clock
      readings. */
  lemma TwoAndAHalfSteps(b: Behaviour, orbit: real -> Vec3, s: GameState)
    requires Wf(s)
    requires !Terminal(CatchUp(b, orbit, s, 2.5 * FixedTimestep).state.player)
    ensures CatchUp(b, orbit, s, 2.5 * FixedTimestep).steps == 2
    ensures CatchUp(b, orbit, s, 2.5 * FixedTimestep).leftover == 0.5 * FixedTimestep
  {
    var c := CatchUp(b, orbit, s, 2.5 * FixedTimestep);
    CatchUpFacts(b, orbit, s, 2.5 * FixedTimestep);
    StepCountIsFloor(2.5 * FixedTimestep, c.steps, c.leftover);
    assert (2.5 * FixedTimestep) / FixedTimestep == 2.5;
  }

  /** Sub-steps leave the clock bookkeeping alone. */
  lemma {:induction false} SimulateKeepsClock(b: Behaviour, orbit: real -> Vec3, s: GameState, n: nat)
    requires Wf(s)
    ensures Simulate(b, orbit, s, n).accumulator == s.accumulator
    ensures Simulate(b, orbit, s, n).previousTicks == s.previousTicks
    decreases n
  {
    if n > 0 {
      SimulateKeepsClock(b, orbit, SubStep(b, orbit, s), n - 1);
    }
  }

  /** A frame's new player, platforms and angle are those of `steps`
      consecutive sub-steps from the input state with the clock reading
      stored, and the player is in play before each of them. */
  lemma TickSimulates(b: Behaviour, orbit: real -> Vec3, s: GameState, nowMillis: nat)
    requires Wf(s)
    ensures var s0 := s.(previousTicks := Ticks(nowMillis));
      var r := Tick(b, orbit, s, nowMillis);
      && r.state.(accumulator := s.accumulator) == Simulate(b, orbit, s0, r.steps)
      && (forall k :: 0 <= k < r.steps ==> !Terminal(Simulate(b, orbit, s0, k).player))
  {
    var s0 := s.(previousTicks := Ticks(nowMillis));
    var deltaTime := Ticks(nowMillis) - s.previousTicks + s.accumulator;
    if deltaTime >= FixedTimestep {
      var c := CatchUp(b, orbit, s0, deltaTime);
      CatchUpSimulates(b, orbit, s0, deltaTime);
      SimulateKeepsClock(b, orbit, s0, c.steps);
    }
  }
}
