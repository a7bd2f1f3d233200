# Lunar lander simulation core in Dafny

This project models the control logic of a small lander game: a craft thrusts
between landing pads and hazards under gravity. The model covers four parts:

- the `Entity` class's own members (Entity.h). These are the setters, the sticky
  win/lose outcome flags, the active flag, the in-class default values and the
  getters that truncate width and height to `int`.
- the level that `initialise` builds (main.cpp). Pads 0–4 are winning platforms
  and slots 5–12 are losing ones. The player starts at (-3, 2, 0) under gravity.
- the thrust and fuel decision of `process_input`. A player who has won or lost
  is frozen. Otherwise the branches are tried in the order left, right, up, then
  drag. Each thrust branch needs fuel and burns `fuel_consumption`.
- the fixed-timestep driver `update`. Elapsed clock time goes into an
  accumulator. Whole sub-steps of `FIXED_TIMESTEP` then run while the
  accumulator holds one and the player has neither won nor lost. Each sub-step
  moves the obstacle along its orbit, steps the player against all thirteen
  platforms and applies the lose rule at the world boundary x = ±4.8.

Every C++ member that changes an entity in place is a pure function here, from
the old value to the new one. Floats are `real`s.

The process-wide globals are gathered into one `GameState`: the player, the
platforms, the fuel, the previous clock reading, the accumulator and the
obstacle angle `ANGLE`.

Some bodies live in Entity.cpp, which is not part of this model:
`Entity::update`, `player_accelerate_left/right` and `player_drag`. They are
fields of a `Behaviour` record of uninterpreted functions. No property
relies on the values they compute. `Game.DesignationAfterInitialise` is the one
exception, and it states its assumption as a precondition. The model does rely
on their shape: each returns only the entity it steps, so `Entity::update` is
taken to leave the array of collidable entities it is handed unchanged (see
"## Left out").

The obstacle's cos/sin placement is an uninterpreted `orbit` function of the
angle. The clock is a parameter: each frame receives the millisecond tick count.

Modules:

- `Entities` (entities.dfy): the data model, the setters and the getters.
- `EntityCalls` (entity_calls.dfy): sequences of calls on one entity, and the
  monotone outcome flags.
- `Game` (game.dfy): the constants, the level layout, `initialise` and
  `process_input`.
- `Driver` (driver.dfy): `update`, written as a recursive function (`Tick`,
  `CatchUp`) and as a loop method (`Update`, `CatchUpLoop`) proved equal to it.
- `MainLoop` (main_loop.dfy): the game loop as a fold over frames. Each frame
  handles input and then runs `update`.

Two facts about `update` shape the driver's properties:

- The floor(total / FIXED_TIMESTEP) sub-step count holds only while the player
  stays in play, because the loop at main.cpp:452 also stops on a win or a loss
  (`TickStepCount`, `RunStepCount`).
- `update` has no cap on sub-steps per frame, and neither does the model.

The code also shows this behaviour: `UpThrustPersists` proves that up-thrust
outlasts the key. Up sets the y-acceleration to 0.2. Only the drag branch
restores gravity, and that branch needs a non-zero x-acceleration. So after an
up burn with no horizontal thrust, the y-acceleration stays at 0.2. What that
does to the craft's motion depends on `Entity::update`. This is modelled as
written.

## Model

| member | source | states |
|---|---|---|
| Entities.NewEntity | Entity.h:6-63 | a new entity is active, 1×1, neither won nor lost, has no collision flag up and is not jumping (jump power 0); the constructor supplies the other fields |
| Entities.SetPosition | Entity.h:95 | the position becomes the argument and no other field changes |
| Entities.SetMovement | Entity.h:96 | the movement intent becomes the argument and no other field changes |
| Entities.SetVelocity | Entity.h:97 | the velocity becomes the argument and no other field changes |
| Entities.SetAcceleration | Entity.h:98 | the acceleration becomes the argument and no other field changes |
| Entities.SetAccelerationX | Entity.h:99 | only the x component of the acceleration changes; y, z and every other field are kept |
| Entities.SetAccelerationY | Entity.h:100 | only the y component of the acceleration changes; x, z and every other field are kept |
| Entities.SetWidth | Entity.h:101 | the width becomes the argument and no other field changes |
| Entities.SetHeight | Entity.h:102 | the height becomes the argument and no other field changes |
| Entities.SetScale | Entity.h:103 | the scale becomes the argument and no other field changes (width and height are not re-derived) |
| Entities.SetDimensions | Entity.h:104-108 | the scale becomes the argument, width = scale.x and height = scale.y, and only those three fields change |
| Entities.ObjectWins | Entity.h:109 | the win flag is up afterwards (the entity is terminal) and nothing else changes |
| Entities.ObjectLoses | Entity.h:110 | the lose flag is up afterwards (the entity is terminal) and nothing else changes |
| Entities.Activate | Entity.h:77 | the entity is active afterwards and nothing else changes |
| Entities.Deactivate | Entity.h:78 | the entity is inactive afterwards and nothing else changes |
| Entities.TruncateToInt | Entity.h:89-90 | the float-to-int conversion rounds toward zero: for v ≥ 0 the result r has r ≤ v < r+1; for v < 0 it has r-1 < v ≤ r |
| Entities.TruncationFacts | Entity.h:89-90 | truncation is odd-symmetric and exact on whole numbers |
| Entities.GetWidth | Entity.h:89 | the integer width is the float width truncated toward zero |
| Entities.GetHeight | Entity.h:90 | the integer height is the float height truncated toward zero |
| EntityCalls.OneCallOutcome | Entity.h:95-110 | one call raises the win flag exactly when it is `object_wins`, and no call lowers it; the same holds for the lose flag and `object_loses` |
| EntityCalls.WinFlagAfterCalls | Entity.h:91-110 | after any sequence of calls, the win flag is up exactly when it was up before or some call was `object_wins` |
| EntityCalls.LoseFlagAfterCalls | Entity.h:91-110 | after any sequence of calls, the lose flag is up exactly when it was up before or some call was `object_loses` |
| EntityCalls.OutcomeIsSticky | Entity.h:24-25 | outcome flags are monotone: a flag that is up stays up after any calls, so a terminal entity stays terminal |
| EntityCalls.OnlyOutcomeCallsEndTheGame | Entity.h:109-110 | a call sequence with neither `object_wins` nor `object_loses` leaves a live entity live |
| Game.Layout | main.cpp:245-332 | thirteen platforms; slots 0–4 are winning and not losing; slots 5–12 are losing and not winning; every platform is active and its width and height agree with its scale |
| Game.NewPlayer | main.cpp:340-360 | the player starts at (-3, 2, 0) with acceleration (0, gravity, 0), zero movement, speed 1, size 0.6×0.8 from its scale, and jump power 3; it is active and neither won nor lost |
| Game.Initialise | main.cpp:245-360 | the start state has thirteen platforms, each refreshed by a zero-time step of its laid-out value; it has the new player, fuel 100000, and previous ticks, accumulator and angle all 0 |
| Game.DesignationAfterInitialise | main.cpp:247-254 | if a zero-time physics step that touches nothing keeps the outcome flags, the level starts with pads 0–4 winning and slots 5–12 losing |
| Game.PlayerStart | main.cpp:340-345 | the player starts in play with fuel; its integer width and height read 0 because 0.6 and 0.8 truncate |
| Game.Choose | main.cpp:400-423 | the branch priority: frozen exactly when terminal; left when there is fuel and left is held; right when there is fuel, right is held and left is not; up when there is fuel, up is held and neither side is; drag exactly when no thrust fires and x-acceleration is non-zero |
| Game.ProcessInput | main.cpp:369-424 | only the player and the fuel change; a terminal player keeps fuel and acceleration and only has movement cleared; a thrust branch needs fuel > 0 and burns exactly `fuel_consumption`; fuel never rises and never goes negative from non-negative; left is `player_accelerate_left(0.01, 20)` and right is `player_accelerate_right(0.01, 20)` on the player with movement cleared; up clears the movement intent and sets only the y-acceleration, to 0.2; drag is `player_drag(0.001)` followed by y-acceleration := gravity |
| Game.UpThrustPersists | main.cpp:415-423 | with no key held and no x-acceleration, a live player's acceleration is unchanged, so an earlier up-thrust stays in force |
| Game.EmptyTankIgnoresKeys | main.cpp:403-419 | with fuel ≤ 0, the keys held make no difference to the frame |
| Driver.SubStepEffect | main.cpp:455-462 | one sub-step gives the obstacle its own physics step of FIXED_TIMESTEP against no other entity, then places it on its orbit at the old angle and moves no other platform; the player is stepped against the moved obstacle, and the driver adds at most the lose flag, always when x is outside [-4.8, 4.8] |
| Driver.SubStep | main.cpp:455-457 | a sub-step advances the angle by exactly FIXED_TIMESTEP and keeps thirteen platforms |
| Driver.SimulateAngle | main.cpp:457 | after n sub-steps, the angle has grown by n × FIXED_TIMESTEP |
| Driver.CatchUp | main.cpp:452-466 | the while loop on a budget: it runs no sub-step exactly when the budget is under one timestep or the player has won or lost, and then hands back the state and the budget unchanged |
| Driver.CatchUpFacts | main.cpp:452-466 | the loop conserves time (leftover = budget − steps × FIXED_TIMESTEP) and advances the angle by steps × FIXED_TIMESTEP; it stops only with leftover < FIXED_TIMESTEP or a terminal player; it runs nothing for a terminal player or a budget under one step; a non-negative budget leaves a non-negative leftover |
| Driver.CatchUpSimulates | main.cpp:452-466 | the loop's final state is that of `steps` consecutive sub-steps, and the player is in play before every one of them |
| Driver.BoundaryEndsTheLoop | main.cpp:452-462 | a sub-step that leaves the player outside [-4.8, 4.8] sets the lose flag and is the last sub-step of the frame |
| Driver.Tick | main.cpp:437-471 | `update` stores the clock reading and conserves time (new accumulator = old + elapsed − steps × FIXED_TIMESTEP); if old + elapsed < FIXED_TIMESTEP, or the player is terminal, no sub-step runs and the whole sum becomes the accumulator; on exit the accumulator is below one step unless the player is terminal |
| Driver.TickSimulates | main.cpp:437-468 | a frame's new player, platforms and angle are those of `steps` consecutive sub-steps from the input state with the new clock reading, and the player is in play before each of them |
| Driver.SimulateKeepsClock | main.cpp:452-466 | sub-steps leave the accumulator and the stored clock reading alone; only the loop's own bookkeeping changes them |
| Driver.Update | main.cpp:437-471 | the imperative `update` computes exactly what `Tick` describes, with time conservation, the angle count and the exit condition |
| Driver.CatchUpLoop | main.cpp:452-468 | the while loop, with the budget in a local, computes what `CatchUp` describes; its loop invariants carry time conservation and the angle count |
| Driver.TickStepCount | main.cpp:443-468 | a frame that leaves the player in play, on a non-negative budget, runs floor((accumulator + elapsed) / FIXED_TIMESTEP) sub-steps |
| Driver.TwoAndAHalfSteps | main.cpp:452-466 | a loop budget (accumulator plus elapsed time) of 2.5 timesteps runs exactly 2 sub-steps and carries over 0.5 of a timestep, if the player survives them |
| MainLoop.Frame | main.cpp:532-535 | one turn of the game loop, `process_input` then `update`: the clock reading is stored, fuel never rises nor goes negative from non-negative, and a player who has won or lost makes no sub-step run and moves neither the angle nor the platforms |
| MainLoop.Run | main.cpp:532-537 | the game loop over a sequence of frames: the stored clock reading is that of the last frame, or the old one when there are no frames |
| MainLoop.RunConservesTime | main.cpp:437-468 | over any number of frames, accumulator = start + total elapsed − steps × FIXED_TIMESTEP, and angle = start + steps × FIXED_TIMESTEP |
| MainLoop.RunAccumulatorBounds | main.cpp:443-468 | with a clock that never runs backwards, the accumulator stays ≥ 0; after a frame it is below one step unless the player is terminal |
| MainLoop.RunStepCount | main.cpp:443-468 | if the player is still in play after the frames, the total sub-step count is floor((start accumulator + total elapsed) / FIXED_TIMESTEP) |
| MainLoop.RunFuel | main.cpp:400-423 | over any frames, fuel never increases, and fuel that starts non-negative stays non-negative |
| MainLoop.FuelStaysInTank | main.cpp:92-93 | from the initial state, fuel stays within [0, 100000] |
| MainLoop.OutcomeFreezesTheWorld | main.cpp:400-452 | once the player has won or lost, later frames run no sub-step; the angle, platforms and fuel stay unchanged, and the player only has its movement cleared |

## Left out

- The bodies of `Entity::update`, `check_collision`, `check_collision_x/_y`, `player_accelerate_left/right`, `player_drag`, `render`, the constructor and the destructor: Entity.cpp is not part of this model. They appear only as uninterpreted functions in `Behaviour` and as the `Blank` constructor values.
- Collision and thrust properties: AABB symmetry, flush contact after resolution, landing on a pad, the fall scenario and the thrust clamp. They are properties of the Entity.cpp bodies.
- `Entity::update` writing to the collidable entities it receives through a non-const `Entity*` (Entity.h:70): `Behaviour.update` returns only the stepped entity, so the model assumes the platform array is left as it was. The "no other platform moves" part of `Driver.SubStepEffect` rests on that assumption.
- Game.DesignationAfterInitialise: holds only under the stated assumption that a zero-time physics step which touches nothing keeps the outcome flags, because that step's body is not part of this model.
- Driver.Tick: `FIXED_TIMESTEP` is the exact decimal 0.0166666 and clock readings are exact reals. The single-precision rounding of the source is not modelled, and neither is the wrap-around of the 32-bit millisecond counter after about 49 days.
- Entities.TruncateToInt: a float outside the `int` range is undefined behaviour in C++; the model truncates every real.
- The obstacle's cos/sin position: floating-point trigonometry. Only the `ANGLE` counter is computed; the position is the uninterpreted `orbit` of the angle.
- Movement normalisation at the end of `process_input`: float vector maths, and the movement intent has just been cleared anyway.
- SDL event polling and quitting, window and OpenGL setup, `load_texture`, `draw_text`, `render`, `shutdown` and `main`'s render call: I/O only.
- Textures, the model matrix, animation tables and indices, the render blink `TIMER`, and the background and points entities: they only feed rendering.
- The 32-bit `int` range of `fuel`: it starts at 100000 and only ever drops by 1 while positive, so it cannot overflow.
