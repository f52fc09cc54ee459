/**
 * The player ship of the second game version: per-frame orientation deltas
 * and a scalar thrust clamped to `[0, MaxThrust]`.  The ship does not move;
 * the main scene turns and moves the world by these values.
 */
module AppPlayerShip {

  const AngleIncrement: real := 0.015
  const ThrustIncrement: real := 0.01
  const MaxThrust: real := 5.0
  const AngleIncrementEpsilon: real := AngleIncrement / 10.0
  const ThrustEpsilon: real := ThrustIncrement / 10.0

  function Min(a: real, b: real): real { if a <= b then a else b }
  function Max(a: real, b: real): real { if a <= b then b else a }

  /** `increaseThrust()`. */
  function Increased(thrust: real): (r: real)
    ensures thrust < MaxThrust ==> thrust < r <= MaxThrust && r <= thrust + ThrustIncrement
    ensures thrust < MaxThrust - ThrustIncrement ==> r == thrust + ThrustIncrement
    ensures MaxThrust <= thrust ==> r == thrust
  {
    if thrust < MaxThrust then Min(thrust + ThrustIncrement, MaxThrust) else thrust
  }

  /** `decreaseThrust()`. */
  function Decreased(thrust: real): (r: real)
    ensures 0.0 < thrust ==> 0.0 <= r < thrust && thrust - ThrustIncrement <= r
    ensures ThrustIncrement < thrust ==> r == thrust - ThrustIncrement
    ensures thrust <= 0.0 ==> r == thrust
  {
    if 0.0 < thrust then Max(0.0, thrust - ThrustIncrement) else thrust
  }

  predicate ThrustInRange(thrust: real) {
    0.0 <= thrust <= MaxThrust
  }

  /** Both thrust updates keep the thrust in `[0, MaxThrust]`. */
  lemma ThrustUpdatesStayInRange(thrust: real)
    requires ThrustInRange(thrust)
    ensures ThrustInRange(Increased(thrust)) && ThrustInRange(Decreased(thrust))
  {
  }

  /** `n` successive `increaseThrust()` calls. */
  function Increases(thrust: real, n: nat): real {
    if n == 0 then thrust else Increased(Increases(thrust, n - 1))
  }

  /** `n` successive `decreaseThrust()` calls. */
  function Decreases(thrust: real, n: nat): real {
    if n == 0 then thrust else Decreased(Decreases(thrust, n - 1))
  }

  /** Holding thrust from rest gives `min(n · ThrustIncrement, MaxThrust)`. */
  lemma {:induction false} IncreasesFromRest(n: nat)
    ensures Increases(0.0, n) == Min(n as real * ThrustIncrement, MaxThrust)
  {
    if n > 0 {
      IncreasesFromRest(n - 1);
    }
  }

  /** Thrust saturates at exactly `MaxThrust` after 500 increases and stays there. */
  lemma IncreasesSaturate(n: nat)
    requires 500 <= n
    ensures Increases(0.0, n) == MaxThrust
  {
    IncreasesFromRest(n);
  }

  /** Releasing thrust from any non-negative value gives `max(0, thrust - n · ThrustIncrement)`. */
  lemma {:induction false} DecreasesFrom(thrust: real, n: nat)
    requires 0.0 <= thrust
    ensures Decreases(thrust, n) == Max(0.0, thrust - n as real * ThrustIncrement)
  {
    if n > 0 {
      DecreasesFrom(thrust, n - 1);
    }
  }

  /** From full thrust, 500 decreases reach exactly 0, where thrust stays. */
  lemma DecreasesReachRest(n: nat)
    requires 500 <= n
    ensures Decreases(MaxThrust, n) == 0.0
  {
    DecreasesFrom(MaxThrust, n);
  }

  class PlayerShip {
    var pitch: real
    var yaw: real
    var roll: real
    var thrust: real

    ghost predicate Valid()
      reads this
    {
      ThrustInRange(thrust)
    }

    constructor ()
      ensures Valid()
      ensures pitch == 0.0 && yaw == 0.0 && roll == 0.0 && thrust == 0.0
    {
      pitch, yaw, roll, thrust := 0.0, 0.0, 0.0, 0.0;
    }

    method ResetOrientationIncrements()
      modifies this
      ensures pitch == 0.0 && yaw == 0.0 && roll == 0.0 && thrust == old(thrust)
    {
      yaw := 0.0;
      pitch := 0.0;
      roll := 0.0;
    }

    method PitchUp()
      modifies this
      ensures pitch == AngleIncrement && yaw == old(yaw) && roll == old(roll) && thrust == old(thrust)
    {
      pitch := AngleIncrement;
    }

    method PitchDown()
      modifies this
      ensures pitch == -AngleIncrement && yaw == old(yaw) && roll == old(roll) && thrust == old(thrust)
    {
      pitch := -AngleIncrement;
    }

    method YawRight()
      modifies this
      ensures yaw == -AngleIncrement && pitch == old(pitch) && roll == old(roll) && thrust == old(thrust)
    {
      yaw := -AngleIncrement;
    }

    method YawLeft()
      modifies this
      ensures yaw == AngleIncrement && pitch == old(pitch) && roll == old(roll) && thrust == old(thrust)
    {
      yaw := AngleIncrement;
    }

    method RollLeft()
      modifies this
      ensures roll == -AngleIncrement && pitch == old(pitch) && yaw == old(yaw) && thrust == old(thrust)
    {
      roll := -AngleIncrement;
    }

    method RollRight()
      modifies this
      ensures roll == AngleIncrement && pitch == old(pitch) && yaw == old(yaw) && thrust == old(thrust)
    {
      roll := AngleIncrement;
    }

    method IncreaseThrust()
      requires Valid()
      modifies this
      ensures Valid()
      ensures thrust == Increased(old(thrust))
      ensures pitch == old(pitch) && yaw == old(yaw) && roll == old(roll)
    {
      if thrust < MaxThrust {
        thrust := Min(thrust + ThrustIncrement, MaxThrust);
      }
    }

    method DecreaseThrust()
      requires Valid()
      modifies this
      ensures Valid()
      ensures thrust == Decreased(old(thrust))
      ensures pitch == old(pitch) && yaw == old(yaw) && roll == old(roll)
    {
      if 0.0 < thrust {
        thrust := Max(0.0, thrust - ThrustIncrement);
      }
    }

    /** `fire()`, `hide()` and `show()` have empty bodies in this version: with no `modifies` clause they change nothing. */
    method Fire()
      ensures unchanged(this)
    {
    }

    method Hide()
      ensures unchanged(this)
    {
    }

    method Show()
      ensures unchanged(this)
    {
    }
  }
}
