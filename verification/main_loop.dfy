/**
 The game loop of main.cpp as a fold over frames: each frame handles input
 (`process_input`) and then advances the simulation (`update`). Rendering
 and quitting are not part of this model. Each frame's input is the arrow
 keys held and the millisecond clock reading.
 */
module MainLoop {
  import opened Entities
  import opened Game
  import opened Driver

  datatype FrameInput = FrameInput(keys: Keys, nowMillis: nat)

  /** One turn of the game loop. */
  function Frame(b: Behaviour, orbit: real -> Vec3, s: GameState, input: FrameInput): (r: Stepped)
    requires Wf(s)
    ensures Wf(r.state)
    ensures r.state.previousTicks == Ticks(input.nowMillis)
    ensures r.state.fuel <= s.fuel && (s.fuel >= 0 ==> r.state.fuel >= 0)
    ensures Terminal(s.player) ==> r.steps == 0 && r.state.platforms == s.platforms && r.state.angle == s.angle
  {
    Tick(b, orbit, ProcessInput(b, input.keys, s), input.nowMillis)
  }

  /** The frames one after the other; `steps` counts every sub-step run. */
  function Run(b: Behaviour, orbit: real -> Vec3, s: GameState, inputs: seq<FrameInput>): (r: Stepped)
    requires Wf(s)
    ensures Wf(r.state)
    ensures r.state.previousTicks == LastTicks(s, inputs)
    decreases |inputs|
  {
    if |inputs| == 0 then Stepped(s, 0)
    else
      var f := Frame(b, orbit, s, inputs[0]);
      var rest := Run(b, orbit, f.state, inputs[1..]);
      Stepped(rest.state, f.steps + rest.steps)
  }

  /** The clock reading of the last frame, in seconds; the stored previous
      reading when there are no frames. */
  function LastTicks(s: GameState, inputs: seq<FrameInput>): real
  {
    if |inputs| == 0 then s.previousTicks else Ticks(inputs[|inputs| - 1].nowMillis)
  }

  /** The clock never runs backwards, starting from the reading `prev`. */
  predicate ClockMonotone(prev: real, inputs: seq<FrameInput>)
    decreases |inputs|
  {
    |inputs| == 0
    || (prev <= Ticks(inputs[0].nowMillis) && ClockMonotone(Ticks(inputs[0].nowMillis), inputs[1..]))
  }

  /** Time is conserved across any number of frames: the accumulator ends up
      holding the starting accumulator plus all elapsed clock time, less one
      timestep per sub-step run; the angle counts the same sub-steps. */
  lemma {:induction false} RunConservesTime(b: Behaviour, orbit: real -> Vec3, s: GameState, inputs: seq<FrameInput>)
    requires Wf(s)
    ensures var r := Run(b, orbit, s, inputs);
      && r.state.previousTicks == LastTicks(s, inputs)
      && r.state.accumulator
         == s.accumulator + (LastTicks(s, inputs) - s.previousTicks) - r.steps as real * FixedTimestep
      && r.state.angle == s.angle + r.steps as real * FixedTimestep
    decreases |inputs|
  {
    if |inputs| > 0 {
      var f := Frame(b, orbit, s, inputs[0]);
      RunConservesTime(b, orbit, f.state, inputs[1..]);
      assert LastTicks(f.state, inputs[1..]) == LastTicks(s, inputs);
    }
  }

  /** With a clock that never runs backwards and a non-negative starting
      accumulator, the accumulator stays non-negative; after at least one
      frame it holds less than a timestep unless the player has won or lost. */
  lemma {:induction false} RunAccumulatorBounds(b: Behaviour, orbit: real -> Vec3, s: GameState, inputs: seq<FrameInput>)
    requires Wf(s)
    requires ClockMonotone(s.previousTicks, inputs) && s.accumulator >= 0.0
    ensures Run(b, orbit, s, inputs).state.accumulator >= 0.0
    ensures |inputs| > 0 ==>
      var r := Run(b, orbit, s, inputs);
      r.state.accumulator < FixedTimestep || Terminal(r.state.player)
    decreases |inputs|
  {
    if |inputs| > 0 {
      var f := Frame(b, orbit, s, inputs[0]);
      RunAccumulatorBounds(b, orbit, f.state, inputs[1..]);
    }
  }

  /** The sub-step count is exact: if the player is still in play after the
      frames, the simulation ran floor(total time / FIXED_TIMESTEP) sub-steps,
      where total time is the starting accumulator plus all elapsed clock time. */
  lemma RunStepCount(b: Behaviour, orbit: real -> Vec3, s: GameState, inputs: seq<FrameInput>)
    requires Wf(s) && |inputs| > 0
    requires ClockMonotone(s.previousTicks, inputs) && s.accumulator >= 0.0
    requires !Terminal(Run(b, orbit, s, inputs).state.player)
    ensures Run(b, orbit, s, inputs).steps
      == ((s.accumulator + (LastTicks(s, inputs) - s.previousTicks)) / FixedTimestep).Floor
  {
    var r := Run(b, orbit, s, inputs);
    RunConservesTime(b, orbit, s, inputs);
    RunAccumulatorBounds(b, orbit, s, inputs);
    StepCountIsFloor(s.accumulator + (LastTicks(s, inputs) - s.previousTicks), r.steps, r.state.accumulator);
  }

  /** Fuel never increases, and fuel that starts non-negative stays so. */
  lemma {:induction false} RunFuel(b: Behaviour, orbit: real -> Vec3, s: GameState, inputs: seq<FrameInput>)
    requires Wf(s)
    ensures Run(b, orbit, s, inputs).state.fuel <= s.fuel
    ensures s.fuel >= 0 ==> Run(b, orbit, s, inputs).state.fuel >= 0
    decreases |inputs|
  {
    if |inputs| > 0 {
      var f := Frame(b, orbit, s, inputs[0]);
      RunFuel(b, orbit, f.state, inputs[1..]);
    }
  }

  /** From the initial state, fuel stays between zero and its starting amount. */
  lemma FuelStaysInTank(b: Behaviour, orbit: real -> Vec3, blank: Blank, inputs: seq<FrameInput>)
    ensures 0 <= Run(b, orbit, Initialise(b, blank), inputs).state.fuel <= InitialFuel
  {
    RunFuel(b, orbit, Initialise(b, blank), inputs);
  }

  /** The world freezes once the player has won or lost: no sub-step runs,
      the obstacle's angle, the platforms and the fuel stay put, and the
      player only has its movement intent cleared, keeping both flags. */
  lemma {:induction false} OutcomeFreezesTheWorld(b: Behaviour, orbit: real -> Vec3, s: GameState, inputs: seq<FrameInput>)
    requires Wf(s) && Terminal(s.player) && |inputs| > 0
    ensures var r := Run(b, orbit, s, inputs);
      && r.steps == 0
      && r.state.player == SetMovement(s.player, Zero)
      && r.state.platforms == s.platforms
      && r.state.angle == s.angle
      && r.state.fuel == s.fuel
    decreases |inputs|
  {
    var f := Frame(b, orbit, s, inputs[0]);
    assert f.state.player == SetMovement(s.player, Zero);
    if |inputs| > 1 {
      OutcomeFreezesTheWorld(b, orbit, f.state, inputs[1..]);
    }
  }
}
