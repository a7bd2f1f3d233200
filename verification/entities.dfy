/**
 The state of one game entity (Entity.h) and the members whose bodies sit in
 the class declaration: the setters, the outcome flags, the active flag and
 the truncating width/height getters. Every member of the C++ class mutates
 the object in place; here each one is a pure function from the old entity to
 the new one. Floats are read as reals.
 */
module Entities {

  /** A glm::vec3 with its float components read as reals. */
  datatype Vec3 = Vec3(x: real, y: real, z: real)

  const Zero := Vec3(0.0, 0.0, 0.0)

  datatype EntityType = Platform | Player | Item

  /** The simulation-relevant fields of Entity. Texture, model matrix and the
      animation tables only feed the renderer and are not part of this model. */
  datatype Entity = Entity(
    active: bool,
    position: Vec3,
    velocity: Vec3,
    acceleration: Vec3,
    width: real,
    height: real,
    winGame: bool,
    loseGame: bool,
    kind: EntityType,
    speed: real,
    movement: Vec3,
    scale: Vec3,
    isJumping: bool,
    jumpingPower: real,
    collidedTop: bool,
    collidedBottom: bool,
    collidedLeft: bool,
    collidedRight: bool)

  /** The fields of an entity, used to say which ones an operation may change. */
  datatype Field =
    | Active | Position | Velocity | Acceleration | Width | Height
    | Won | Lost | Kind | Speed | Movement | Scale | Jumping | JumpingPower
    | Collisions

  /** `b` agrees with `a` in every field outside `fs`. */
  predicate ChangesOnly(a: Entity, b: Entity, fs: set<Field>)
  {
    && (Active !in fs ==> a.active == b.active)
    && (Position !in fs ==> a.position == b.position)
    && (Velocity !in fs ==> a.velocity == b.velocity)
    && (Acceleration !in fs ==> a.acceleration == b.acceleration)
    && (Width !in fs ==> a.width == b.width)
    && (Height !in fs ==> a.height == b.height)
    && (Won !in fs ==> a.winGame == b.winGame)
    && (Lost !in fs ==> a.loseGame == b.loseGame)
    && (Kind !in fs ==> a.kind == b.kind)
    && (Speed !in fs ==> a.speed == b.speed)
    && (Movement !in fs ==> a.movement == b.movement)
    && (Scale !in fs ==> a.scale == b.scale)
    && (Jumping !in fs ==> a.isJumping == b.isJumping)
    && (JumpingPower !in fs ==> a.jumpingPower == b.jumpingPower)
    && (Collisions !in fs ==>
          && a.collidedTop == b.collidedTop && a.collidedBottom == b.collidedBottom
          && a.collidedLeft == b.collidedLeft && a.collidedRight == b.collidedRight)
  }

  /** `ChangesOnly` misses no field: two entities that may differ in no field are equal. */
  lemma ChangesOnlyNothingIsEquality(a: Entity, b: Entity)
    ensures ChangesOnly(a, b, {}) <==> a == b
  {
  }

  /** A player or platform that has won or lost. */
  predicate Terminal(e: Entity)
  {
    e.winGame || e.loseGame
  }

  /** The values the Entity() constructor gives the fields that have no
      in-class initialiser. The constructor's body is not part of this model,
      so they are left open. */
  datatype Blank = Blank(
    position: Vec3,
    velocity: Vec3,
    acceleration: Vec3,
    kind: EntityType,
    speed: real,
    movement: Vec3,
    scale: Vec3)

  /** A freshly constructed entity: the in-class initialisers of Entity.h. */
  function NewEntity(blank: Blank): (e: Entity)
    ensures e.active
    ensures e.width == 1.0 && e.height == 1.0
    ensures !e.winGame && !e.loseGame
    ensures !e.collidedTop && !e.collidedBottom && !e.collidedLeft && !e.collidedRight
    ensures !e.isJumping && e.jumpingPower == 0.0
    ensures e.position == blank.position && e.velocity == blank.velocity
    ensures e.acceleration == blank.acceleration && e.kind == blank.kind
    ensures e.speed == blank.speed && e.movement == blank.movement && e.scale == blank.scale
  {
    Entity(true, blank.position, blank.velocity, blank.acceleration, 1.0, 1.0,
           false, false, blank.kind, blank.speed, blank.movement, blank.scale,
           false, 0.0, false, false, false, false)
  }

  // ----- setters -----

  function SetPosition(e: Entity, p: Vec3): (r: Entity)
    ensures r.position == p && ChangesOnly(e, r, {Position})
  {
    e.(position := p)
  }

  function SetMovement(e: Entity, m: Vec3): (r: Entity)
    ensures r.movement == m && ChangesOnly(e, r, {Movement})
  {
    e.(movement := m)
  }

  function SetVelocity(e: Entity, v: Vec3): (r: Entity)
    ensures r.velocity == v && ChangesOnly(e, r, {Velocity})
  {
    e.(velocity := v)
  }

  function SetAcceleration(e: Entity, a: Vec3): (r: Entity)
    ensures r.acceleration == a && ChangesOnly(e, r, {Acceleration})
  {
    e.(acceleration := a)
  }

  /** Writes only the x component of the acceleration. */
  function SetAccelerationX(e: Entity, ax: real): (r: Entity)
    ensures r.acceleration.x == ax
    ensures r.acceleration.y == e.acceleration.y && r.acceleration.z == e.acceleration.z
    ensures ChangesOnly(e, r, {Acceleration})
  {
    e.(acceleration := e.acceleration.(x := ax))
  }

  /** Writes only the y component of the acceleration. */
  function SetAccelerationY(e: Entity, ay: real): (r: Entity)
    ensures r.acceleration.y == ay
    ensures r.acceleration.x == e.acceleration.x && r.acceleration.z == e.acceleration.z
    ensures ChangesOnly(e, r, {Acceleration})
  {
    e.(acceleration := e.acceleration.(y := ay))
  }

  function SetWidth(e: Entity, w: real): (r: Entity)
    ensures r.width == w && ChangesOnly(e, r, {Width})
  {
    e.(width := w)
  }

  function SetHeight(e: Entity, h: real): (r: Entity)
    ensures r.height == h && ChangesOnly(e, r, {Height})
  {
    e.(height := h)
  }

  function SetScale(e: Entity, s: Vec3): (r: Entity)
    ensures r.scale == s && ChangesOnly(e, r, {Scale})
  {
    e.(scale := s)
  }

  /** Width and height agree with the scale vector, as `SetDimensions` leaves them. */
  predicate DimensionsAgree(e: Entity)
  {
    e.width == e.scale.x && e.height == e.scale.y
  }

  /** Sets the scale and derives width and height from it; nothing else changes. */
  function SetDimensions(e: Entity, s: Vec3): (r: Entity)
    ensures r.scale == s && DimensionsAgree(r)
    ensures ChangesOnly(e, r, {Scale, Width, Height})
  {
    e.(scale := s, height := s.y, width := s.x)
  }

  /** Raises the win flag; it is never lowered by any member of Entity.h. */
  function ObjectWins(e: Entity): (r: Entity)
    ensures r.winGame && Terminal(r)
    ensures ChangesOnly(e, r, {Won})
  {
    e.(winGame := true)
  }

  /** Raises the lose flag; it is never lowered by any member of Entity.h. */
  function ObjectLoses(e: Entity): (r: Entity)
    ensures r.loseGame && Terminal(r)
    ensures ChangesOnly(e, r, {Lost})
  {
    e.(loseGame := true)
  }

  function Activate(e: Entity): (r: Entity)
    ensures r.active && ChangesOnly(e, r, {Active})
  {
    e.(active := true)
  }

  function Deactivate(e: Entity): (r: Entity)
    ensures !r.active && ChangesOnly(e, r, {Active})
  {
    e.(active := false)
  }

  // ----- getters -----

  /** C++'s float-to-int conversion: the fraction is discarded, rounding
      toward zero for either sign. */
  function TruncateToInt(v: real): (r: int)
    ensures 0.0 <= v ==> 0 <= r && r as real <= v < r as real + 1.0
    ensures v < 0.0 ==> r <= 0 && r as real - 1.0 < v <= r as real
  {
    if v >= 0.0 then v.Floor else -((-v).Floor)
  }

  /** The width as an int: the float is truncated toward zero. */
  function GetWidth(e: Entity): (r: int)
    ensures 0.0 <= e.width ==> r as real <= e.width < r as real + 1.0
    ensures e.width < 0.0 ==> r as real - 1.0 < e.width <= r as real
  {
    TruncateToInt(e.width)
  }

  /** The height as an int: the float is truncated toward zero. */
  function GetHeight(e: Entity): (r: int)
    ensures 0.0 <= e.height ==> r as real <= e.height < r as real + 1.0
    ensures e.height < 0.0 ==> r as real - 1.0 < e.height <= r as real
  {
    TruncateToInt(e.height)
  }

  /** Truncation toward zero is odd-symmetric and exact on whole numbers. */
  lemma TruncationFacts(v: real, n: int)
    ensures TruncateToInt(-v) == -TruncateToInt(v)
    ensures TruncateToInt(n as real) == n
  {
  }

  /** The member functions whose bodies live in Entity.cpp, which is not part
      of this model: the physics step `update`, the thrust helpers and drag.
      They are left uninterpreted. */
  datatype Behaviour = Behaviour(
    update: (Entity, real, seq<Entity>) -> Entity,
    accelerateLeft: (Entity, real, real) -> Entity,
    accelerateRight: (Entity, real, real) -> Entity,
    drag: (Entity, real) -> Entity)
}
