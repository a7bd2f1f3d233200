/**
 The game-wide state of main.cpp (the player, the thirteen platforms, the fuel
 counter, the clock bookkeeping and the obstacle's angle), the level set up by
 `initialise`, and the thrust and fuel decision of `process_input`.
 */
module Game {
  import opened Entities

  // ----- constants and tuning globals of main.cpp -----

  const PlatformCount: nat := 13
  /** Platforms 0 to 4 are landing pads; the rest end the game on contact. */
  const WinningPlatforms: nat := 5
  /** The slot of the moving obstacle (the Reaper Leviathan). */
  const ReaperSlot: nat := 5

  const Gravity: real := -0.09
  const DragValue: real := 0.001
  const HorizontalAcceleration: real := 20.0
  const AccelerationRate: real := 0.01
  const VerticalAcceleration: real := 0.2
  const InitialFuel: int := 100000
  const FuelConsumption: int := 1

  /** All process-wide state the simulation reads and writes. */
  datatype GameState = GameState(
    player: Entity,
    platforms: seq<Entity>,
    fuel: int,
    previousTicks: real,
    accumulator: real,
    angle: real)

  /** The platform array always has its thirteen slots. */
  predicate Wf(s: GameState)
  {
    |s.platforms| == PlatformCount
  }

  // ----- initialise -----

  function Place(e: Entity, position: Vec3, dimensions: Vec3): Entity
  {
    SetDimensions(SetPosition(e, position), dimensions)
  }

  /** The designation loops: win for slots 0-4, lose for slots 5-12. */
  function Designate(e: Entity, i: int): Entity
  {
    if i < WinningPlatforms then ObjectWins(e) else ObjectLoses(e)
  }

  /** The thirteen platforms as `initialise` lays them out, before the
      zero-time `update` each of them receives. */
  function Layout(blank: Blank): (ps: seq<Entity>)
    ensures |ps| == PlatformCount
    ensures forall i :: 0 <= i < WinningPlatforms ==> ps[i].winGame && !ps[i].loseGame
    ensures forall i :: WinningPlatforms <= i < PlatformCount ==> ps[i].loseGame && !ps[i].winGame
    ensures forall i :: 0 <= i < PlatformCount ==> ps[i].active && DimensionsAgree(ps[i])
    ensures forall i :: 0 <= i < PlatformCount ==> Terminal(ps[i])
  {
    seq(PlatformCount, i requires 0 <= i < PlatformCount =>
      var p := Place(Designate(NewEntity(blank), i), PlatformPositions[i], PlatformScales[i]);
      if i == ReaperSlot then p.(speed := 1.0) else p)
  }

  /** Where `initialise` puts each platform, by slot. */
  const PlatformPositions: seq<Vec3> := [
    Vec3(-4.0, -0.9, 0.0), Vec3(-0.5, 0.6, 0.0), Vec3(0.9, -0.8, 0.0), Vec3(-1.7, -1.0, 0.0),
    Vec3(2.1, -2.5, 0.0), Vec3(3.0, 2.0, 0.0), Vec3(-2.4, -0.5, 0.0), Vec3(-4.7, -0.5, 0.0),
    Vec3(-3.1, -1.2, 0.0), Vec3(-0.6, -0.5, 0.0), Vec3(0.3, -0.9, 0.0), Vec3(1.5, -1.1, 0.0),
    Vec3(3.7, -1.3, 0.0)]

  /** The dimensions `initialise` gives each platform, by slot. */
  const PlatformScales: seq<Vec3> := [
    Vec3(0.8, 1.0, 0.0), Vec3(0.6, 1.0, 0.0), Vec3(0.7, 1.0, 0.0), Vec3(0.8, 1.0, 0.0),
    Vec3(0.5, 1.0, 0.0), Vec3(1.5, 1.0, 0.0), Vec3(0.5, 2.5, 0.0), Vec3(0.5, 1.0, 0.0),
    Vec3(0.8, 1.0, 0.0), Vec3(1.3, 2.5, 0.0), Vec3(0.6, 1.0, 0.0), Vec3(0.6, 2.5, 0.0),
    Vec3(2.5, 1.4, 0.0)]

  /** The player as `initialise` builds it. */
  function NewPlayer(blank: Blank): (p: Entity)
    ensures p.position == Vec3(-3.0, 2.0, 0.0)
    ensures p.acceleration == Vec3(0.0, Gravity, 0.0)
    ensures p.movement == Zero && p.speed == 1.0 && p.jumpingPower == 3.0
    ensures p.width == 0.6 && p.height == 0.8 && DimensionsAgree(p)
    ensures p.active && !Terminal(p)
  {
    var p := NewEntity(blank);
    var p := SetPosition(p, Vec3(-3.0, 2.0, 0.0));
    var p := SetMovement(p, Zero);
    var p := SetDimensions(p, Vec3(0.6, 0.8, 0.0));
    var p := p.(speed := 1.0);
    var p := SetAcceleration(p, Vec3(0.0, Gravity, 0.0));
    p.(jumpingPower := 3.0)
  }

  /** The state after `initialise`, with every platform refreshed by a
      zero-time physics step against no other entity. */
  function Initialise(b: Behaviour, blank: Blank): (s: GameState)
    ensures Wf(s)
    ensures s.player == NewPlayer(blank)
    ensures forall i :: 0 <= i < PlatformCount ==> s.platforms[i] == b.update(Layout(blank)[i], 0.0, [])
    ensures s.fuel == InitialFuel
    ensures s.previousTicks == 0.0 && s.accumulator == 0.0 && s.angle == 0.0
  {
    GameState(NewPlayer(blank), Refresh(b, Layout(blank)), InitialFuel, 0.0, 0.0, 0.0)
  }

  /** Each entity after one zero-time physics step against no other entity. */
  function Refresh(b: Behaviour, es: seq<Entity>): (r: seq<Entity>)
    ensures |r| == |es|
    ensures forall i :: 0 <= i < |es| ==> r[i] == b.update(es[i], 0.0, [])
  {
    seq(|es|, i requires 0 <= i < |es| => b.update(es[i], 0.0, []))
  }

  /** A zero-time physics step of an entity against no other entity leaves
      its outcome flags alone. This is an assumption about Entity.cpp, which
      is not part of this model. */
  ghost predicate LoneStepKeepsOutcome(b: Behaviour)
  {
    forall e: Entity {:trigger b.update(e, 0.0, [])} ::
      b.update(e, 0.0, []).winGame == e.winGame && b.update(e, 0.0, []).loseGame == e.loseGame
  }

  /** If the hidden zero-time physics step keeps the flags of an entity that
      touches nothing, the level starts with pads 0-4 winning and 5-12 losing. */
  lemma DesignationAfterInitialise(b: Behaviour, blank: Blank)
    requires LoneStepKeepsOutcome(b)
    ensures var s := Initialise(b, blank);
      && (forall i :: 0 <= i < WinningPlatforms ==> s.platforms[i].winGame && !s.platforms[i].loseGame)
      && (forall i :: WinningPlatforms <= i < PlatformCount ==> s.platforms[i].loseGame && !s.platforms[i].winGame)
  {
    var s := Initialise(b, blank);
    var laid := Layout(blank);
    forall i | 0 <= i < PlatformCount
      ensures s.platforms[i].winGame == laid[i].winGame && s.platforms[i].loseGame == laid[i].loseGame
    {
      assert s.platforms[i] == b.update(laid[i], 0.0, []);
    }
  }

  /** The player starts alive, inside the world, with full fuel and
      an integer width and height of zero (0.6 and 0.8 truncate to 0). */
  lemma PlayerStart(b: Behaviour, blank: Blank)
    ensures var s := Initialise(b, blank);
      && !Terminal(s.player) && s.fuel > 0
      && GetWidth(s.player) == 0 && GetHeight(s.player) == 0
  {
  }

  // ----- process_input: thrust and fuel -----

  /** The arrow keys held down this frame. */
  datatype Keys = Keys(left: bool, right: bool, up: bool)

  /** The branch of the thrust decision that a frame takes. */
  datatype Branch = Frozen | ThrustLeft | ThrustRight | ThrustUp | Drag | Coast
  {
    predicate Burns() { this == ThrustLeft || this == ThrustRight || this == ThrustUp }
  }

  /** The priority rule: nothing for a terminal player; otherwise left, then
      right, then up, each only with fuel left; otherwise drag, only while
      there is horizontal acceleration to drag. */
  function Choose(keys: Keys, player: Entity, fuel: int): (br: Branch)
    ensures br == Frozen <==> Terminal(player)
    ensures br.Burns() ==> fuel > 0 && !Terminal(player)
    ensures br == ThrustLeft <==> !Terminal(player) && fuel > 0 && keys.left
    ensures br == ThrustRight <==> !Terminal(player) && fuel > 0 && keys.right && !keys.left
    ensures br == ThrustUp <==> !Terminal(player) && fuel > 0 && keys.up && !keys.left && !keys.right
    ensures br == Drag <==>
      && !Terminal(player)
      && (fuel <= 0 || !(keys.left || keys.right || keys.up))
      && player.acceleration.x != 0.0
  {
    if player.loseGame || player.winGame then Frozen
    else if keys.left && fuel > 0 then ThrustLeft
    else if keys.right && fuel > 0 then ThrustRight
    else if keys.up && fuel > 0 then ThrustUp
    else if player.acceleration.x != 0.0 then Drag
    else Coast
  }

  /** The per-frame input handling: the movement intent is cleared, then at
      most one thrust or drag branch fires. Only the player and the fuel change. */
  function ProcessInput(b: Behaviour, keys: Keys, s: GameState): (r: GameState)
    ensures r.platforms == s.platforms && r.angle == s.angle
    ensures r.previousTicks == s.previousTicks && r.accumulator == s.accumulator
    ensures Terminal(s.player) ==> r.fuel == s.fuel && r.player == SetMovement(s.player, Zero)
    ensures Choose(keys, s.player, s.fuel).Burns() ==> s.fuel > 0 && r.fuel == s.fuel - FuelConsumption
    ensures !Choose(keys, s.player, s.fuel).Burns() ==> r.fuel == s.fuel
    ensures r.fuel <= s.fuel
    ensures s.fuel >= 0 ==> r.fuel >= 0
    ensures Choose(keys, s.player, s.fuel) == ThrustUp ==>
      r.player == SetAccelerationY(SetMovement(s.player, Zero), VerticalAcceleration)
    ensures Choose(keys, s.player, s.fuel) == ThrustLeft ==>
      r.player == b.accelerateLeft(SetMovement(s.player, Zero), AccelerationRate, HorizontalAcceleration)
    ensures Choose(keys, s.player, s.fuel) == ThrustRight ==>
      r.player == b.accelerateRight(SetMovement(s.player, Zero), AccelerationRate, HorizontalAcceleration)
    ensures Choose(keys, s.player, s.fuel) == Drag ==>
      r.player == SetAccelerationY(b.drag(SetMovement(s.player, Zero), DragValue), Gravity)
    ensures Choose(keys, s.player, s.fuel) == Drag ==> r.player.acceleration.y == Gravity
    ensures Choose(keys, s.player, s.fuel) == Coast ==> r.player == SetMovement(s.player, Zero)
  {
    var p := SetMovement(s.player, Zero);
    match Choose(keys, p, s.fuel)
    case Frozen => s.(player := p)
    case ThrustLeft =>
      s.(player := b.accelerateLeft(p, AccelerationRate, HorizontalAcceleration),
         fuel := s.fuel - FuelConsumption)
    case ThrustRight =>
      s.(player := b.accelerateRight(p, AccelerationRate, HorizontalAcceleration),
         fuel := s.fuel - FuelConsumption)
    case ThrustUp =>
      s.(player := SetAccelerationY(p, VerticalAcceleration), fuel := s.fuel - FuelConsumption)
    case Drag => s.(player := SetAccelerationY(b.drag(p, DragValue), Gravity))
    case Coast => s.(player := p)
  }

  /** Up-thrust outlasts the key: with no horizontal acceleration and no key
      held, nothing resets the vertical acceleration to gravity, so whatever
      up-thrust last set stays in force. */
  lemma UpThrustPersists(b: Behaviour, s: GameState)
    requires !Terminal(s.player) && s.player.acceleration.x == 0.0
    ensures ProcessInput(b, Keys(false, false, false), s).player.acceleration == s.player.acceleration
  {
  }

  /** With an empty tank no key burns fuel or applies thrust. */
  lemma EmptyTankIgnoresKeys(b: Behaviour, keys: Keys, s: GameState)
    requires s.fuel <= 0
    ensures ProcessInput(b, keys, s) == ProcessInput(b, Keys(false, false, false), s)
  {
  }
}
