/**
 * The per-frame driver of the second game version.  Before each render it
 * turns the held keys into ship calls (deltas reset first, then one `if` per
 * key, the later of two opposing keys winning); after each render it moves
 * the world against the ship's thrust, wraps it, and turns it by each
 * significant delta.
 */
module AppMainScene {
  import opened Vectors
  import opened SectorGrid
  import opened AppWorld
  import Ship = AppPlayerShip

  /** The key states the dispatch reads, one per `if`. */
  datatype HeldKeys = HeldKeys(
    pitchNoseDown: bool, pitchNoseUp: bool,
    yawNoseRight: bool, yawNoseLeft: bool,
    rollLeft: bool, rollRight: bool,
    thrust: bool, fire: bool, warp: bool)

  /**
   * The delta left by a reset followed by `if (first) negative(); if (second) positive();`:
   * the second key wins when both are held.
   */
  function HeldDelta(first: bool, second: bool): (r: real)
    ensures second ==> r == Ship.AngleIncrement
    ensures first && !second ==> r == -Ship.AngleIncrement
    ensures !first && !second ==> r == 0.0
  {
    if second then Ship.AngleIncrement else if first then -Ship.AngleIncrement else 0.0
  }

  /** The rotation gate of the after-render callback. */
  predicate Significant(delta: real) {
    delta < -Ship.AngleIncrementEpsilon || Ship.AngleIncrementEpsilon < delta
  }

  /** So the world turns about an axis exactly when one of that axis's keys is held. */
  lemma TurnsIffKeyHeld(first: bool, second: bool)
    ensures Significant(HeldDelta(first, second)) <==> first || second
  {
  }

  /** The thrust gate: the world moves by `-thrust` along world Z, seen in its local space. */
  function Pushed(local: Vec3, rotation: Mat3, thrust: real): Vec3 {
    if Ship.ThrustEpsilon < thrust then
      Add(local, VecMat(Scale(Unit(Z), -thrust), Transpose(rotation)))
    else local
  }

  /** At rest (or below the epsilon) the world does not move. */
  lemma NoPushAtRest(local: Vec3, rotation: Mat3, thrust: real)
    requires thrust <= Ship.ThrustEpsilon
    ensures Pushed(local, rotation, thrust) == local
  {
  }

  /** Unturned, the push is straight back along the world's Z axis by `thrust`. */
  lemma PushWithoutRotation(local: Vec3, thrust: real)
    requires Ship.ThrustEpsilon < thrust
    ensures Pushed(local, Identity, thrust) == Shift(local, Z, -thrust)
  {
  }

  function Turned(rotation: Mat3, axis: Axis, delta: real, rotate: Rotator): Mat3 {
    if Significant(delta) then rotate(rotation, Unit(axis), delta) else rotation
  }

  /** Pitch about X, then yaw about Y, then roll about Z, each only if significant. */
  function TurnedByDeltas(rotation: Mat3, pitch: real, yaw: real, roll: real, rotate: Rotator): Mat3 {
    Turned(Turned(Turned(rotation, X, pitch, rotate), Y, yaw, rotate), Z, roll, rotate)
  }

  /** With no orientation key held, a frame never turns the world. */
  lemma NoTurnWithoutKeys(rotation: Mat3, rotate: Rotator)
    ensures TurnedByDeltas(rotation, HeldDelta(false, false), HeldDelta(false, false), HeldDelta(false, false), rotate) == rotation
  {
  }

  /** A held pitch key turns the world about X by the winning key's increment. */
  lemma PitchKeyTurns(rotation: Mat3, down: bool, up: bool, rotate: Rotator)
    requires down || up
    ensures Turned(rotation, X, HeldDelta(down, up), rotate)
         == rotate(rotation, Unit(X), if up then Ship.AngleIncrement else -Ship.AngleIncrement)
  {
  }

  class MainScene {
    const ship: Ship.PlayerShip
    const world: World

    ghost predicate Valid()
      reads ship
    {
      ship.Valid()
    }

    constructor ()
      ensures Valid() && fresh(ship) && fresh(world)
      ensures ship.pitch == 0.0 && ship.yaw == 0.0 && ship.roll == 0.0 && ship.thrust == 0.0
      ensures world.local == Zero && world.rotation == Identity
      ensures world.boundary.instances == SectorInstances(1.0)
    {
      ship := new Ship.PlayerShip();
      world := new World();
    }

    /**
     * The before-render callback.  `fireCalls`, `increaseCalls` and
     * `decreaseCalls` count the calls of those ship methods in this pass.
     */
    method OnBeforeRender(keys: HeldKeys) returns (fireCalls: nat, increaseCalls: nat, decreaseCalls: nat)
      requires Valid()
      modifies ship
      ensures Valid()
      ensures ship.pitch == HeldDelta(keys.pitchNoseDown, keys.pitchNoseUp)
      ensures ship.yaw == HeldDelta(keys.yawNoseRight, keys.yawNoseLeft)
      ensures ship.roll == HeldDelta(keys.rollLeft, keys.rollRight)
      ensures ship.thrust == if keys.thrust then Ship.Increased(old(ship.thrust)) else Ship.Decreased(old(ship.thrust))
      ensures fireCalls == if keys.fire then 1 else 0
      ensures increaseCalls + decreaseCalls == 1
      ensures increaseCalls == 1 <==> keys.thrust
    {
      fireCalls, increaseCalls, decreaseCalls := 0, 0, 0;
      ship.ResetOrientationIncrements();

      if keys.pitchNoseDown {
        ship.PitchDown();
      }
      if keys.pitchNoseUp {
        ship.PitchUp();
      }

      if keys.yawNoseRight {
        ship.YawRight();
      }
      if keys.yawNoseLeft {
        ship.YawLeft();
      }

      if keys.rollLeft {
        ship.RollLeft();
      }
      if keys.rollRight {
        ship.RollRight();
      }

      if keys.thrust {
        ship.IncreaseThrust();
        increaseCalls := increaseCalls + 1;
      } else {
        ship.DecreaseThrust();
        decreaseCalls := decreaseCalls + 1;
      }

      if keys.fire {
        ship.Fire();
        fireCalls := fireCalls + 1;
      }

      // The warp key has no effect yet.
    }

    /** The after-render callback; `rotate` is the scene library's `rotateAround` on the world's rotation. */
    method OnAfterRender(rotate: Rotator)
      modifies world
      ensures world.local == SectorWrapped(Pushed(old(world.local), old(world.rotation), ship.thrust))
      ensures world.rotation == TurnedByDeltas(old(world.rotation), ship.pitch, ship.yaw, ship.roll, rotate)
    {
      if Ship.ThrustEpsilon < ship.thrust {
        world.TranslateWorld(Z, -ship.thrust);
      }

      world.DoSectorWrap();

      if ship.pitch < -Ship.AngleIncrementEpsilon || Ship.AngleIncrementEpsilon < ship.pitch {
        world.RotateAroundOrigin(X, ship.pitch, rotate);
      }
      if ship.yaw < -Ship.AngleIncrementEpsilon || Ship.AngleIncrementEpsilon < ship.yaw {
        world.RotateAroundOrigin(Y, ship.yaw, rotate);
      }
      if ship.roll < -Ship.AngleIncrementEpsilon || Ship.AngleIncrementEpsilon < ship.roll {
        world.RotateAroundOrigin(Z, ship.roll, rotate);
      }
    }
  }
}
