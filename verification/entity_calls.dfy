/**
 The mutating members declared with a body in Entity.h, as values, so that
 arbitrary sequences of calls on one entity can be reasoned about. The
 physics step and the thrust helpers are not among them: their bodies are
 not part of this model.
 */
module EntityCalls {
  import E = Entities

  datatype Call =
    | SetPosition(v: E.Vec3)
    | SetMovement(v: E.Vec3)
    | SetVelocity(v: E.Vec3)
    | SetAcceleration(v: E.Vec3)
    | SetAccelerationX(a: real)
    | SetAccelerationY(a: real)
    | SetWidth(a: real)
    | SetHeight(a: real)
    | SetScale(v: E.Vec3)
    | SetDimensions(v: E.Vec3)
    | ObjectWins
    | ObjectLoses
    | Activate
    | Deactivate

  function Apply(e: E.Entity, c: Call): E.Entity
  {
    match c
    case SetPosition(v) => E.SetPosition(e, v)
    case SetMovement(v) => E.SetMovement(e, v)
    case SetVelocity(v) => E.SetVelocity(e, v)
    case SetAcceleration(v) => E.SetAcceleration(e, v)
    case SetAccelerationX(a) => E.SetAccelerationX(e, a)
    case SetAccelerationY(a) => E.SetAccelerationY(e, a)
    case SetWidth(a) => E.SetWidth(e, a)
    case SetHeight(a) => E.SetHeight(e, a)
    case SetScale(v) => E.SetScale(e, v)
    case SetDimensions(v) => E.SetDimensions(e, v)
    case ObjectWins => E.ObjectWins(e)
    case ObjectLoses => E.ObjectLoses(e)
    case Activate => E.Activate(e)
    case Deactivate => E.Deactivate(e)
  }

  /** The calls made one after the other, first call first. */
  function ApplyAll(e: E.Entity, cs: seq<Call>): E.Entity
    decreases |cs|
  {
    if |cs| == 0 then e else ApplyAll(Apply(e, cs[0]), cs[1..])
  }

  /** One call raises the win flag exactly when it is `ObjectWins`, and no call lowers it;
      likewise for the lose flag and `ObjectLoses`. */
  lemma OneCallOutcome(e: E.Entity, c: Call)
    ensures Apply(e, c).winGame <==> e.winGame || c == ObjectWins
    ensures Apply(e, c).loseGame <==> e.loseGame || c == ObjectLoses
  {
    match c
    case ObjectWins =>
    case ObjectLoses =>
    case _ =>
      assert Apply(e, c).winGame == e.winGame && Apply(e, c).loseGame == e.loseGame;
  }

  /** After any sequence of calls the win flag is up exactly when it was up
      before or some call was `ObjectWins`: the flag is sticky, and only
      `ObjectWins` sets it. */
  lemma {:induction false} WinFlagAfterCalls(e: E.Entity, cs: seq<Call>)
    ensures ApplyAll(e, cs).winGame <==> e.winGame || ObjectWins in cs
    decreases |cs|
  {
    if |cs| > 0 {
      OneCallOutcome(e, cs[0]);
      WinFlagAfterCalls(Apply(e, cs[0]), cs[1..]);
      assert cs == [cs[0]] + cs[1..];
    }
  }

  /** After any sequence of calls the lose flag is up exactly when it was up
      before or some call was `ObjectLoses`. */
  lemma {:induction false} LoseFlagAfterCalls(e: E.Entity, cs: seq<Call>)
    ensures ApplyAll(e, cs).loseGame <==> e.loseGame || ObjectLoses in cs
    decreases |cs|
  {
    if |cs| > 0 {
      OneCallOutcome(e, cs[0]);
      LoseFlagAfterCalls(Apply(e, cs[0]), cs[1..]);
      assert cs == [cs[0]] + cs[1..];
    }
  }

  /** Outcome flags are monotone under every member of Entity.h: a terminal
      entity stays terminal, and the very flag it had stays up. */
  lemma OutcomeIsSticky(e: E.Entity, cs: seq<Call>)
    ensures e.winGame ==> ApplyAll(e, cs).winGame
    ensures e.loseGame ==> ApplyAll(e, cs).loseGame
    ensures E.Terminal(e) ==> E.Terminal(ApplyAll(e, cs))
  {
    WinFlagAfterCalls(e, cs);
    LoseFlagAfterCalls(e, cs);
  }

  /** Only `ObjectWins` or `ObjectLoses` can turn a live entity into a terminal one. */
  lemma {:induction false} OnlyOutcomeCallsEndTheGame(e: E.Entity, cs: seq<Call>)
    requires !E.Terminal(e)
    requires ObjectWins !in cs && ObjectLoses !in cs
    ensures !E.Terminal(ApplyAll(e, cs))
  {
    WinFlagAfterCalls(e, cs);
    LoseFlagAfterCalls(e, cs);
  }
}
