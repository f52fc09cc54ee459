/**
 * The player ship of the first game version: per-frame orientation deltas,
 * a thrust vector capped in length and decaying while coasting, a pool of
 * five shots with a fire cooldown, and the after-render integration that
 * moves, wraps, turns and re-instances the ship.
 */
module SrcPlayerShip {
  import opened Vectors
  import opened SectorGrid
  import opened SrcWorld
  import opened Shots

  const AngleIncrement: real := 0.03
  const ThrustIncrement: real := 0.03
  const MaxThrust: real := 5.0
  const CoastFactor: real := 0.0025
  /** Milliseconds between two shots. */
  const FireDelay: int := 100
  /** How far ahead of the ship a shot is launched. */
  const LaunchDistance: real := 60.0
  const ShotPoolSize: nat := 5

  const AngleIncrementEpsilon: real := AngleIncrement / 10.0
  const ThrustEpsilon: real := ThrustIncrement / 10.0
  const ThrustEpsilonSquared: real := ThrustEpsilon * ThrustEpsilon
  const MaxThrustSquared: real := MaxThrust * MaxThrust

  /** `thrust()`: add a forward step, then rescale to `MaxThrust` if the vector got longer than that. */
  function Thrusted(thrustVector: Vec3, forward: Vec3, length: Vec3 -> real): (r: Vec3)
    requires IsEuclideanLength(length)
    ensures LengthSquared(r) <= MaxThrustSquared
    ensures var added := Add(thrustVector, Scale(forward, ThrustIncrement));
      LengthSquared(added) <= MaxThrustSquared ==> r == added
  {
    var added := Add(thrustVector, Scale(forward, ThrustIncrement));
    if MaxThrustSquared < LengthSquared(added) then
      var l := length(added);
      var k := MaxThrust / l;
      LengthSquaredOfScale(added, k);
      assert l > 0.0;
      assert k * l == MaxThrust;
      assert k * k * (l * l) == (k * l) * (k * l);
      Scale(added, k)
    else
      added
  }

  /** A capped thrust vector points the same way as the uncapped one and has length exactly `MaxThrust`. */
  lemma ThrustCapHasMaxLength(thrustVector: Vec3, forward: Vec3, length: Vec3 -> real)
    requires IsEuclideanLength(length)
    requires MaxThrustSquared < LengthSquared(Add(thrustVector, Scale(forward, ThrustIncrement)))
    ensures var added := Add(thrustVector, Scale(forward, ThrustIncrement));
      exists k: real :: 0.0 < k < 1.0 && Thrusted(thrustVector, forward, length) == Scale(added, k)
    ensures LengthSquared(Thrusted(thrustVector, forward, length)) == MaxThrustSquared
  {
    var added := Add(thrustVector, Scale(forward, ThrustIncrement));
    var l := length(added);
    var k := MaxThrust / l;
    LengthSquaredOfScale(added, k);
    assert l * l == LengthSquared(added);
    assert l * l > 25.0;
    assert l > 5.0 by {
      assert (l - 5.0) * (l + 5.0) == l * l - 25.0;
    }
    assert k * l == MaxThrust;
    assert 0.0 < k < 1.0;
    assert k * k * (l * l) == (k * l) * (k * l);
  }

  /** `coast()`: scale the thrust vector by `1 - CoastFactor`. */
  function Coasted(thrustVector: Vec3): (r: Vec3)
    ensures LengthSquared(r) <= LengthSquared(thrustVector)
    ensures LengthSquared(r) == (1.0 - CoastFactor) * (1.0 - CoastFactor) * LengthSquared(thrustVector)
  {
    LengthSquaredOfScale(thrustVector, 1.0 - CoastFactor);
    assert LengthSquared(thrustVector) >= 0.0 by {
      var v := thrustVector;
      assert v.x * v.x >= 0.0 && v.y * v.y >= 0.0 && v.z * v.z >= 0.0;
    }
    Scale(thrustVector, 1.0 - CoastFactor)
  }

  /** The first pool slot whose shot is not active, or the pool size when every shot is active. */
  function FirstInactive(visible: seq<bool>): (k: nat)
    ensures k <= |visible|
    ensures forall j :: 0 <= j < k ==> visible[j]
    ensures k < |visible| ==> !visible[k]
  {
    if visible == [] then 0
    else if !visible[0] then 0
    else 1 + FirstInactive(visible[1..])
  }

  /** The cooldown gate of `fire()`: strictly more than `FireDelay` ms since the last shot. */
  predicate CooledDown(now: int, lastFireTime: int) {
    FireDelay < now - lastFireTime
  }

  /** Whether a `fire()` at `now` launches a shot. */
  predicate Fires(now: int, lastFireTime: int, visible: seq<bool>) {
    CooledDown(now, lastFireTime) && FirstInactive(visible) < |visible|
  }

  /** Two calls within `FireDelay` never both fire: the second sees the first one's time. */
  lemma NoSecondShotWithinDelay(t1: int, t2: int, last: int, visible1: seq<bool>, visible2: seq<bool>)
    requires Fires(t1, last, visible1)
    requires t1 <= t2 <= t1 + FireDelay
    ensures !Fires(t2, t1, visible2)
  {
  }

  /** Two calls more than `FireDelay` apart both fire when a slot is free each time. */
  lemma SecondShotAfterDelay(t1: int, t2: int, last: int, visible1: seq<bool>, visible2: seq<bool>)
    requires Fires(t1, last, visible1)
    requires t2 > t1 + FireDelay
    requires exists j :: 0 <= j < |visible2| && !visible2[j]
    ensures Fires(t2, t1, visible2)
  {
    var j :| 0 <= j < |visible2| && !visible2[j];
    assert FirstInactive(visible2) <= j;
  }

  /** The rotation test of `onAfterRender`: a delta turns the ship only when its magnitude exceeds the epsilon. */
  predicate Significant(delta: real) {
    delta < -AngleIncrementEpsilon || AngleIncrementEpsilon < delta
  }

  datatype LocalAxis = RightAxis | UpAxis | ForwardAxis

  function AxisOf(m: Mat3, a: LocalAxis): Vec3 {
    match a
    case RightAxis => Right(m)
    case UpAxis => Up(m)
    case ForwardAxis => Forward(m)
  }

  /** `rotateAround(position, axis, -delta)` when the delta is significant; the quaternion unchanged otherwise. */
  function Turned(q: Option<Mat3>, a: LocalAxis, delta: real, rotate: Rotator): Option<Mat3> {
    if Significant(delta) then
      var m := q.GetOr(Identity);
      Some(rotate(m, AxisOf(m, a), -delta))
    else q
  }

  /** Pitch about the right axis, then yaw about the up axis, then roll about the forward axis. */
  function TurnedByDeltas(q: Option<Mat3>, pitch: real, yaw: real, roll: real, rotate: Rotator): Option<Mat3> {
    Turned(Turned(Turned(q, RightAxis, pitch, rotate), UpAxis, yaw, rotate), ForwardAxis, roll, rotate)
  }

  /** A zero delta never turns the ship, and an increment always does. */
  lemma TurnOnlyOnNonZeroDelta(q: Option<Mat3>, a: LocalAxis, rotate: Rotator)
    ensures Turned(q, a, 0.0, rotate) == q
    ensures Turned(q, a, AngleIncrement, rotate).Some? && Turned(q, a, -AngleIncrement, rotate).Some?
  {
  }

  /** With every delta reset to zero, a frame leaves the orientation alone. */
  lemma NoTurnWithoutDeltas(q: Option<Mat3>, rotate: Rotator)
    ensures TurnedByDeltas(q, 0.0, 0.0, 0.0, rotate) == q
  {
    TurnOnlyOnNonZeroDelta(q, RightAxis, rotate);
    TurnOnlyOnNonZeroDelta(q, UpAxis, rotate);
    TurnOnlyOnNonZeroDelta(q, ForwardAxis, rotate);
  }

  /** The position integration step of `onAfterRender`: move by the thrust vector unless it is negligible. */
  function Drifted(position: Vec3, thrustVector: Vec3): Vec3 {
    if ThrustEpsilonSquared < LengthSquared(thrustVector) then Add(position, thrustVector) else position
  }

  /** The ship's `shots` field initializer: five new shots, each on its own node and mesh. */
  method NewShotPool() returns (pool: seq<Shot>)
    ensures |pool| == ShotPoolSize
    ensures forall i :: 0 <= i < |pool| ==>
      && fresh(pool[i]) && fresh(pool[i].node) && fresh(pool[i].mesh)
      && pool[i].mesh.scalingX != 0.0
      && pool[i].State() == ShotState(false, 0.0, Zero, Some(Identity))
    ensures forall i, j :: 0 <= i < j < |pool| ==>
      pool[i] != pool[j] && pool[i].node != pool[j].node && pool[i].mesh != pool[j].mesh
  {
    pool := [];
    while |pool| < ShotPoolSize
      invariant |pool| <= ShotPoolSize
      invariant forall i :: 0 <= i < |pool| ==>
        && fresh(pool[i]) && fresh(pool[i].node) && fresh(pool[i].mesh)
        && pool[i].mesh.scalingX != 0.0
        && pool[i].State() == ShotState(false, 0.0, Zero, Some(Identity))
      invariant forall i, j :: 0 <= i < j < |pool| ==>
        pool[i] != pool[j] && pool[i].node != pool[j].node && pool[i].mesh != pool[j].mesh
    {
      var shot := new Shot();
      pool := pool + [shot];
    }
  }

  class PlayerShip {
    const node: TransformNode
    const hull: Mesh
    const shots: seq<Shot>
    var pitch: real
    var yaw: real
    var roll: real
    var thrustVector: Vec3
    var lastFireTime: int

    ghost function ShotObjects(): set<object> {
      set i | 0 <= i < |shots| :: shots[i]
    }

    ghost function ShotNodes(): set<object> {
      set i | 0 <= i < |shots| :: shots[i].node
    }

    ghost function ShotMeshes(): set<object> {
      set i | 0 <= i < |shots| :: shots[i].mesh
    }

    /** The pool has five distinct shots, none sharing a node or a mesh with another or with the ship. */
    ghost predicate Valid()
      reads this, hull, ShotMeshes()
    {
      && |shots| == ShotPoolSize
      && hull.scalingX != 0.0
      && (forall i :: 0 <= i < |shots| ==> shots[i].mesh.scalingX != 0.0)
      && (forall i, j :: 0 <= i < j < |shots| ==>
            shots[i] != shots[j] && shots[i].node != shots[j].node && shots[i].mesh != shots[j].mesh)
      && (forall i :: 0 <= i < |shots| ==> shots[i].node != node && shots[i].mesh != hull)
    }

    /** Which pool slots hold an active shot. */
    function Visibility(): (v: seq<bool>)
      reads ShotObjects()
      ensures |v| == |shots|
      ensures forall i :: 0 <= i < |shots| ==> v[i] == shots[i].visible
    {
      seq(|shots|, i requires 0 <= i < |shots| reads ShotObjects() => shots[i].visible)
    }

    /** A new ship: zero deltas and thrust, a sectorized hull and five inactive shots spaced along z. */
    constructor ()
      ensures Valid() && fresh(node) && fresh(hull)
      ensures pitch == 0.0 && yaw == 0.0 && roll == 0.0 && thrustVector == Zero && lastFireTime == 0
      ensures node.position == Zero && node.rotationQuaternion == None
      ensures hull.instances == SectorInstances(Size)
      ensures forall i :: 0 <= i < |shots| ==>
        fresh(shots[i]) && shots[i].State() == ShotState(false, 0.0, Vec3(0.0, 0.0, 50.0 * i as real), Some(Identity))
    {
      var pool := NewShotPool();
      shots := pool;
      node := new TransformNode();
      // The hull's scaling of 50 is baked into its vertices before it is sectorized, which resets its scaling to 1.
      hull := new Mesh(1.0);
      pitch, yaw, roll := 0.0, 0.0, 0.0;
      thrustVector := Zero;
      lastFireTime := 0;
      new;
      Sectorize(hull);
      for i := 0 to |shots|
        invariant pitch == 0.0 && yaw == 0.0 && roll == 0.0 && thrustVector == Zero && lastFireTime == 0
        invariant node.position == Zero && node.rotationQuaternion == None
        invariant hull.scalingX == 1.0 && hull.instances == SectorInstances(Size)
        invariant forall j :: 0 <= j < |shots| ==> shots[j].mesh.scalingX != 0.0
        invariant forall j :: 0 <= j < |shots| ==>
          shots[j].State() == ShotState(false, 0.0, if j < i then Vec3(0.0, 0.0, 50.0 * j as real) else Zero, Some(Identity))
      {
        var shot := shots[i];
        shot.node.position := shot.node.position.(z := 50.0 * i as real);
      }
    }

    /** `resetOrientationIncrements()`. */
    method ResetOrientationIncrements()
      modifies this
      ensures pitch == 0.0 && yaw == 0.0 && roll == 0.0
      ensures thrustVector == old(thrustVector) && lastFireTime == old(lastFireTime)
    {
      yaw := 0.0;
      pitch := 0.0;
      roll := 0.0;
    }

    method PitchUp()
      modifies this
      ensures pitch == AngleIncrement && yaw == old(yaw) && roll == old(roll)
      ensures thrustVector == old(thrustVector) && lastFireTime == old(lastFireTime)
    {
      pitch := AngleIncrement;
    }

    method PitchDown()
      modifies this
      ensures pitch == -AngleIncrement && yaw == old(yaw) && roll == old(roll)
      ensures thrustVector == old(thrustVector) && lastFireTime == old(lastFireTime)
    {
      pitch := -AngleIncrement;
    }

    method YawRight()
      modifies this
      ensures yaw == -AngleIncrement && pitch == old(pitch) && roll == old(roll)
      ensures thrustVector == old(thrustVector) && lastFireTime == old(lastFireTime)
    {
      yaw := -AngleIncrement;
    }

    method YawLeft()
      modifies this
      ensures yaw == AngleIncrement && pitch == old(pitch) && roll == old(roll)
      ensures thrustVector == old(thrustVector) && lastFireTime == old(lastFireTime)
    {
      yaw := AngleIncrement;
    }

    method RollLeft()
      modifies this
      ensures roll == -AngleIncrement && pitch == old(pitch) && yaw == old(yaw)
      ensures thrustVector == old(thrustVector) && lastFireTime == old(lastFireTime)
    {
      roll := -AngleIncrement;
    }

    method RollRight()
      modifies this
      ensures roll == AngleIncrement && pitch == old(pitch) && yaw == old(yaw)
      ensures thrustVector == old(thrustVector) && lastFireTime == old(lastFireTime)
    {
      roll := AngleIncrement;
    }

    /** `thrust()`; `length` is the scene library's vector length. */
    method Thrust(length: Vec3 -> real)
      requires IsEuclideanLength(length)
      modifies this
      ensures thrustVector == Thrusted(old(thrustVector), Forward(node.Rotation()), length)
      ensures LengthSquared(thrustVector) <= MaxThrustSquared
      ensures pitch == old(pitch) && yaw == old(yaw) && roll == old(roll) && lastFireTime == old(lastFireTime)
    {
      var step := Scale(Forward(node.Rotation()), ThrustIncrement);
      thrustVector := Add(thrustVector, step);
      if MaxThrustSquared < LengthSquared(thrustVector) {
        thrustVector := Scale(thrustVector, MaxThrust / length(thrustVector));
      }
    }

    /** `coast()`. */
    method Coast()
      modifies this
      ensures thrustVector == Coasted(old(thrustVector))
      ensures LengthSquared(thrustVector) <= LengthSquared(old(thrustVector))
      ensures pitch == old(pitch) && yaw == old(yaw) && roll == old(roll) && lastFireTime == old(lastFireTime)
    {
      thrustVector := Scale(thrustVector, 1.0 - CoastFactor);
    }

    /**
     * `fire()` at time `now` (the `Date.now()` of the call): after the cooldown, activate the
     * first inactive shot ahead of the ship with the ship's quaternion, and record the time.
     */
    method Fire(now: int)
      requires Valid()
      modifies this, ShotObjects(), ShotNodes(), ShotMeshes()
      ensures Valid()
      ensures pitch == old(pitch) && yaw == old(yaw) && roll == old(roll) && thrustVector == old(thrustVector)
      ensures var k := FirstInactive(old(Visibility()));
        && (lastFireTime == if Fires(now, old(lastFireTime), old(Visibility())) then now else old(lastFireTime))
        && (Fires(now, old(lastFireTime), old(Visibility())) ==>
              && shots[k].State() == Activated(old(shots[k].State()), Add(node.position, Scale(Forward(node.Rotation()), LaunchDistance)), node.rotationQuaternion)
              && shots[k].mesh.instances == UpdatedInstances(old(shots[k].mesh.instances), shots[k].node.Rotation(), SectorScale(shots[k].mesh.scalingX)))
        && (forall j :: 0 <= j < |shots| && !(Fires(now, old(lastFireTime), old(Visibility())) && j == k) ==>
              shots[j].State() == old(shots[j].State()) && shots[j].mesh.instances == old(shots[j].mesh.instances))
    {
      if FireDelay < now - lastFireTime {
        var i := 0;
        while i < |shots|
          invariant 0 <= i <= |shots|
          invariant forall j :: 0 <= j < i ==> shots[j].visible
          invariant unchanged(this) && unchanged(ShotObjects()) && unchanged(ShotNodes()) && unchanged(ShotMeshes())
        {
          var shot := shots[i];
          if !shot.IsActive() {
            var launch := Add(node.position, Scale(Forward(node.Rotation()), LaunchDistance));
            assert FirstInactive(old(Visibility())) == i;
            shot.Activate(launch, node.rotationQuaternion);
            lastFireTime := now;
            return;
          }
          i := i + 1;
        }
        assert FirstInactive(old(Visibility())) == |shots|;
      }
    }

    /** `hide()` and `show()` have empty bodies: with no `modifies` clause they change nothing. */
    method Hide()
      ensures unchanged(this)
    {
    }

    method Show()
      ensures unchanged(this)
    {
    }

    /**
     * `onAfterRender`: drift by the thrust vector, wrap, turn by each significant delta about the
     * ship's own right, up and forward axes, then re-derive the hull's sector replicas.
     */
    method OnAfterRender(rotate: Rotator)
      requires Valid()
      modifies node, hull
      ensures Valid()
      ensures node.position == Wrapped(Drifted(old(node.position), thrustVector))
      ensures node.rotationQuaternion == TurnedByDeltas(old(node.rotationQuaternion), pitch, yaw, roll, rotate)
      ensures hull.instances == UpdatedInstances(old(hull.instances), node.Rotation(), SectorScale(hull.scalingX))
    {
      if ThrustEpsilonSquared < LengthSquared(thrustVector) {
        node.position := Add(node.position, thrustVector);
      }
      WrapNode(node);
      if pitch < -AngleIncrementEpsilon || AngleIncrementEpsilon < pitch {
        node.RotateAroundOwnPosition(Right(node.Rotation()), -pitch, rotate);
      }
      if yaw < -AngleIncrementEpsilon || AngleIncrementEpsilon < yaw {
        node.RotateAroundOwnPosition(Up(node.Rotation()), -yaw, rotate);
      }
      if roll < -AngleIncrementEpsilon || AngleIncrementEpsilon < roll {
        node.RotateAroundOwnPosition(Forward(node.Rotation()), -roll, rotate);
      }
      UpdateSectorizedInstances(node, hull);
    }
  }
}
