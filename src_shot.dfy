/**
 * A projectile of the first game version (`Shot`): a pooled object whose
 * visibility doubles as its liveness, that flies `Speed` per frame along its
 * forward axis and retires itself once it has flown farther than
 * `MaxDistance`.
 */
module Shots {
  import opened Vectors
  import opened SectorGrid
  import opened SrcWorld

  const Speed: real := 7.5
  const MaxDistance: real := Size * 0.75

  /** Everything a shot's per-frame update reads or writes. */
  datatype ShotState = ShotState(active: bool, distanceTraveled: real, position: Vec3, rotationQuaternion: Option<Mat3>)

  function ForwardOf(s: ShotState): Vec3 {
    Forward(s.rotationQuaternion.GetOr(Identity))
  }

  /** The state after `activate(position, rotationQuaternion)`. */
  function Activated(s: ShotState, position: Vec3, rotationQuaternion: Option<Mat3>): ShotState {
    ShotState(true, 0.0, position, if rotationQuaternion.Some? then rotationQuaternion else s.rotationQuaternion)
  }

  /** One frame of `onAfterRender`. */
  function Frame(s: ShotState): ShotState {
    if !s.active then s
    else
      var d := s.distanceTraveled + Speed;
      if MaxDistance < d then s.(active := false, distanceTraveled := d)
      else s.(distanceTraveled := d, position := Wrapped(Add(s.position, Scale(ForwardOf(s), Speed))))
  }

  /** `n` consecutive frames. */
  function Frames(s: ShotState, n: nat): ShotState {
    if n == 0 then s else Frame(Frames(s, n - 1))
  }

  /** An inactive shot is left entirely alone by a frame. */
  lemma FrameOfInactiveShot(s: ShotState)
    requires !s.active
    ensures Frame(s) == s
  {
  }

  /**
   * A frame of an active shot adds `Speed` to the distance; past `MaxDistance`
   * it retires the shot where it is, otherwise it advances and wraps it.
   */
  lemma FrameOfActiveShot(s: ShotState)
    requires s.active
    ensures Frame(s).distanceTraveled == s.distanceTraveled + Speed
    ensures Frame(s).rotationQuaternion == s.rotationQuaternion
    ensures Frame(s).active <==> s.distanceTraveled + Speed <= MaxDistance
    ensures !Frame(s).active ==> Frame(s).position == s.position
    ensures Frame(s).active ==> Frame(s).position == Wrapped(Add(s.position, Scale(ForwardOf(s), Speed)))
  {
  }

  /** For its first 100 frames an activated shot stays active, having flown `Speed` per frame. */
  lemma {:induction false} ActiveForHundredFrames(s: ShotState, n: nat)
    requires s.active && s.distanceTraveled == 0.0
    requires n <= 100
    ensures Frames(s, n).active
    ensures Frames(s, n).distanceTraveled == n as real * Speed
    ensures Frames(s, n).rotationQuaternion == s.rotationQuaternion
  {
    if n > 0 {
      ActiveForHundredFrames(s, n - 1);
      var p := Frames(s, n - 1);
      assert Frames(s, n) == Frame(p);
      assert p.distanceTraveled + Speed == n as real * Speed <= MaxDistance;
    }
  }

  /** Each of those 100 frames moves the shot one step along its forward axis, then wraps it. */
  lemma AdvancesOnEachOfHundredFrames(s: ShotState, k: nat)
    requires s.active && s.distanceTraveled == 0.0
    requires k < 100
    ensures Frames(s, k + 1).position == Wrapped(Add(Frames(s, k).position, Scale(ForwardOf(s), Speed)))
  {
    ActiveForHundredFrames(s, k);
    var p := Frames(s, k);
    assert Frames(s, k + 1) == Frame(p);
    assert p.active && p.distanceTraveled + Speed <= MaxDistance;
    assert ForwardOf(p) == ForwardOf(s);
  }

  /** The 101st frame retires the shot without moving it, and it stays retired. */
  lemma RetiredFromFrameHundredOne(s: ShotState, n: nat)
    requires s.active && s.distanceTraveled == 0.0
    requires n >= 101
    ensures !Frames(s, 101).active
    ensures Frames(s, 101).position == Frames(s, 100).position
    ensures Frames(s, n) == Frames(s, 101)
  {
    ActiveForHundredFrames(s, 100);
    var p := Frames(s, 100);
    var q := Frames(s, 101);
    assert q == Frame(p);
    assert p.active && MaxDistance < p.distanceTraveled + Speed;
    assert !q.active && q.position == p.position;
    StaysRetired(s, 101, n);
  }

  /** Once retired, a shot is never changed again by later frames. */
  lemma {:induction false} StaysRetired(s: ShotState, m: nat, n: nat)
    requires !Frames(s, m).active
    requires m <= n
    ensures Frames(s, n) == Frames(s, m)
    decreases n
  {
    if n > m {
      StaysRetired(s, m, n - 1);
      assert Frames(s, n) == Frame(Frames(s, n - 1));
      FrameOfInactiveShot(Frames(s, m));
    }
  }

  /** The lifetime in frames is `floor(MaxDistance / Speed)`. */
  lemma LifetimeIsMaxDistanceOverSpeed()
    ensures 100.0 * Speed <= MaxDistance < 101.0 * Speed
  {
  }

  class Shot {
    const node: TransformNode
    const mesh: Mesh
    /** `mesh.isVisible`, which the shot uses as its liveness flag. */
    var visible: bool
    var distanceTraveled: real

    ghost predicate Valid()
      reads this, mesh
    {
      mesh.scalingX != 0.0
    }

    function State(): ShotState
      reads this, node
    {
      ShotState(visible, distanceTraveled, node.position, node.rotationQuaternion)
    }

    /** A new shot is sectorized, inactive and carries an identity rotation quaternion. */
    constructor ()
      ensures Valid() && fresh(node) && fresh(mesh)
      ensures State() == ShotState(false, 0.0, Zero, Some(Identity))
      ensures mesh.instances == SectorInstances(Size)
    {
      node := new TransformNode();
      mesh := new Mesh(1.0);
      distanceTraveled := 0.0;
      visible := true;
      new;
      Deactivate();
      node.rotationQuaternion := Some(Identity);
      Sectorize(mesh);
    }

    /** `isActive`: the shot is live exactly while its mesh is visible. */
    function IsActive(): (r: bool)
      reads this, node
      ensures r == State().active
    {
      visible
    }

    method Activate(position: Vec3, rotationQuaternion: Option<Mat3>)
      requires Valid()
      modifies this, node, mesh
      ensures Valid()
      ensures State() == Activated(old(State()), position, rotationQuaternion)
      ensures mesh.scalingX == old(mesh.scalingX)
      ensures mesh.instances == UpdatedInstances(old(mesh.instances), node.Rotation(), SectorScale(mesh.scalingX))
    {
      if rotationQuaternion.Some? {
        node.rotationQuaternion := rotationQuaternion;
      }
      node.position := position;
      distanceTraveled := 0.0;
      UpdateSectorizedInstances(node, mesh);
      visible := true;
    }

    /** Hides the shot; its position and distance stay as they were. */
    method Deactivate()
      modifies this
      ensures State() == old(State()).(active := false)
    {
      visible := false;
    }

    method OnAfterRender()
      modifies this, node
      ensures State() == Frame(old(State()))
    {
      if IsActive() {
        distanceTraveled := distanceTraveled + Speed;
        if MaxDistance < distanceTraveled {
          Deactivate();
          return;
        }
        var step := Scale(Forward(node.Rotation()), Speed);
        node.position := Add(node.position, step);
        WrapNode(node);
      }
    }
  }
}
