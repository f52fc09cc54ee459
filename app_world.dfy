/**
 * The world node of the second game version.  The player ship stays at the
 * origin and the world moves and turns around it; `doSectorWrap` keeps the
 * world's position, expressed in its own local space, in the middle sector.
 * The node is kept as that local position and its rotation matrix.
 */
module AppWorld {
  import opened Vectors
  import opened SectorGrid

  /**
   * What `doSectorWrap` does to the local position: the first of z, y, x that
   * is on or past a face of the middle sector is moved by one `Size` back
   * towards it; later axes wait for another call.
   */
  function SectorWrapped(local: Vec3): Vec3 {
    if local.z <= -HalfSize then Shift(local, Z, Size)
    else if HalfSize <= local.z then Shift(local, Z, -Size)
    else if local.y <= -HalfSize then Shift(local, Y, Size)
    else if HalfSize <= local.y then Shift(local, Y, -Size)
    else if local.x <= -HalfSize then Shift(local, X, Size)
    else if HalfSize <= local.x then Shift(local, X, -Size)
    else local
  }

  /** On or past a face: the inclusive test `doSectorWrap` applies per axis. */
  predicate OnOrPastFace(c: real) {
    c <= -HalfSize || HalfSize <= c
  }

  predicate StrictlyInside(v: Vec3) {
    !OnOrPastFace(v.x) && !OnOrPastFace(v.y) && !OnOrPastFace(v.z)
  }

  /** The number of coordinates in which `a` and `b` differ. */
  function ChangedAxes(a: Vec3, b: Vec3): nat {
    (if a.x != b.x then 1 else 0) + (if a.y != b.y then 1 else 0) + (if a.z != b.z then 1 else 0)
  }

  /** Nothing changes exactly when every coordinate is strictly inside the middle sector. */
  lemma SectorWrapFixedPoints(local: Vec3)
    ensures SectorWrapped(local) == local <==> StrictlyInside(local)
  {
  }

  /** A call corrects at most one axis, and a correction is exactly one `Size`, towards the middle. */
  lemma SectorWrapCorrectsOneAxis(local: Vec3)
    ensures ChangedAxes(local, SectorWrapped(local)) <= 1
    ensures forall a :: Component(SectorWrapped(local), a) != Component(local, a) ==>
      (Component(SectorWrapped(local), a) == Component(local, a) + Size && Component(local, a) <= -HalfSize) ||
      (Component(SectorWrapped(local), a) == Component(local, a) - Size && HalfSize <= Component(local, a))
    ensures !StrictlyInside(local) ==> ChangedAxes(local, SectorWrapped(local)) == 1
  {
  }

  /** z goes first: while z is on or past a face, x and y are left as they are, even when they are out too. */
  lemma SectorWrapZFirst(local: Vec3)
    requires OnOrPastFace(local.z)
    ensures SectorWrapped(local).x == local.x && SectorWrapped(local).y == local.y
    ensures SectorWrapped(local).z == if local.z <= -HalfSize then local.z + Size else local.z - Size
  {
  }

  /** Then y: x waits while y is on or past a face. */
  lemma SectorWrapYBeforeX(local: Vec3)
    requires !OnOrPastFace(local.z) && OnOrPastFace(local.y)
    ensures SectorWrapped(local).x == local.x && SectorWrapped(local).z == local.z
    ensures SectorWrapped(local).y == if local.y <= -HalfSize then local.y + Size else local.y - Size
  {
  }

  /** The faces themselves are wrapped: a coordinate of exactly `±HalfSize` moves to the opposite face. */
  lemma SectorWrapIncludesFaces(local: Vec3)
    requires local.z == HalfSize || local.z == -HalfSize
    ensures SectorWrapped(local) == local.(z := -local.z)
  {
  }

  /**
   * So a z of exactly `HalfSize` alternates between the two faces on every
   * call, and the other axes are never reached.
   */
  lemma FaceCoordinateAlternates(local: Vec3)
    requires local.z == HalfSize
    ensures SectorWrapped(SectorWrapped(local)) == local
    ensures SectorWrapped(local).x == local.x && SectorWrapped(local).y == local.y
  {
    SectorWrapIncludesFaces(local);
    SectorWrapIncludesFaces(local.(z := -HalfSize));
  }

  /** Where the inclusive and the strict (first version) tests part: exactly on a face. */
  lemma DiffersFromStrictWrapOnlyOnFaces(c: real)
    ensures OnOrPastFace(c) && !(c < -HalfSize || HalfSize < c) <==> c == HalfSize || c == -HalfSize
  {
  }

  /** `n` successive calls. */
  function SectorWraps(local: Vec3, n: nat): Vec3
    decreases n
  {
    if n == 0 then local else SectorWraps(SectorWrapped(local), n - 1)
  }

  predicate WithinThreeHalves(c: real) {
    -3.0 * HalfSize < c < 3.0 * HalfSize
  }

  predicate OnAFace(c: real) {
    c == HalfSize || c == -HalfSize
  }

  /** A position within one sector of the middle one, with no coordinate exactly on a face. */
  predicate NearAndOffFaces(v: Vec3) {
    && WithinThreeHalves(v.x) && WithinThreeHalves(v.y) && WithinThreeHalves(v.z)
    && !OnAFace(v.x) && !OnAFace(v.y) && !OnAFace(v.z)
  }

  /** The number of coordinates still waiting for a correction. */
  function Pending(v: Vec3): nat {
    (if OnOrPastFace(v.x) then 1 else 0) + (if OnOrPastFace(v.y) then 1 else 0) + (if OnOrPastFace(v.z) then 1 else 0)
  }

  /** Off the faces, each call moves one pending coordinate strictly inside and creates no new one. */
  lemma SectorWrapSettlesOneAxis(local: Vec3)
    requires NearAndOffFaces(local) && !StrictlyInside(local)
    ensures NearAndOffFaces(SectorWrapped(local))
    ensures Pending(SectorWrapped(local)) == Pending(local) - 1
  {
  }

  /** Off the faces, `Pending` calls (at most three) bring the world into the middle sector, where it stays. */
  lemma {:induction false} SectorWrapsSettle(local: Vec3, n: nat)
    requires NearAndOffFaces(local)
    requires Pending(local) <= n
    ensures StrictlyInside(SectorWraps(local, n))
    ensures Pending(local) <= 3
    decreases n
  {
    if n == 0 {
      assert SectorWraps(local, 0) == local;
    } else if StrictlyInside(local) {
      SectorWrapFixedPoints(local);
      SectorWrapsOfFixedPoint(local, n);
    } else {
      SectorWrapSettlesOneAxis(local);
      SectorWrapsSettle(SectorWrapped(local), n - 1);
    }
  }

  lemma {:induction false} SectorWrapsOfFixedPoint(local: Vec3, n: nat)
    requires SectorWrapped(local) == local
    ensures SectorWraps(local, n) == local
    decreases n
  {
    if n > 0 {
      SectorWrapsOfFixedPoint(local, n - 1);
    }
  }

  /**
   * While z sits exactly on a face and nothing else moves the world, every
   * call flips z to the other face and x and y are never corrected, however
   * far out they are.
   */
  lemma {:induction false} FaceStarvesOtherAxes(local: Vec3, n: nat)
    requires OnAFace(local.z)
    ensures OnAFace(SectorWraps(local, n).z)
    ensures SectorWraps(local, n).x == local.x && SectorWraps(local, n).y == local.y
    decreases n
  {
    if n > 0 {
      SectorWrapIncludesFaces(local);
      FaceStarvesOtherAxes(SectorWrapped(local), n - 1);
    }
  }

  /** So a world left at rest at `(HalfSize + 1, 0, HalfSize)` stays outside the middle sector on x for good. */
  lemma StarvedWorldNeverReturns(n: nat)
    ensures SectorWraps(Vec3(HalfSize + 1.0, 0.0, HalfSize), n).x == HalfSize + 1.0
  {
    FaceStarvesOtherAxes(Vec3(HalfSize + 1.0, 0.0, HalfSize), n);
  }

  /**
   * The wrap with the lower test made strict: the middle sector is the
   * half-open box `[-HalfSize, HalfSize)` on each axis, so a coordinate on
   * the lower face stays and the next axis is reached.
   */
  function HalfOpenWrapped(local: Vec3): Vec3 {
    if local.z < -HalfSize then Shift(local, Z, Size)
    else if HalfSize <= local.z then Shift(local, Z, -Size)
    else if local.y < -HalfSize then Shift(local, Y, Size)
    else if HalfSize <= local.y then Shift(local, Y, -Size)
    else if local.x < -HalfSize then Shift(local, X, Size)
    else if HalfSize <= local.x then Shift(local, X, -Size)
    else local
  }

  predicate InHalfOpenSector(c: real) {
    -HalfSize <= c < HalfSize
  }

  predicate InsideHalfOpen(v: Vec3) {
    InHalfOpenSector(v.x) && InHalfOpenSector(v.y) && InHalfOpenSector(v.z)
  }

  /** Within one sector of the middle one, faces included. */
  predicate NearHalfOpen(v: Vec3) {
    && -3.0 * HalfSize <= v.x < 3.0 * HalfSize
    && -3.0 * HalfSize <= v.y < 3.0 * HalfSize
    && -3.0 * HalfSize <= v.z < 3.0 * HalfSize
  }

  function PendingHalfOpen(v: Vec3): nat {
    (if InHalfOpenSector(v.x) then 0 else 1) + (if InHalfOpenSector(v.y) then 0 else 1) + (if InHalfOpenSector(v.z) then 0 else 1)
  }

  function HalfOpenWraps(local: Vec3, n: nat): Vec3
    decreases n
  {
    if n == 0 then local else HalfOpenWraps(HalfOpenWrapped(local), n - 1)
  }

  /** The corrected wrap changes nothing exactly inside the half-open middle sector. */
  lemma HalfOpenWrapFixedPoints(local: Vec3)
    ensures HalfOpenWrapped(local) == local <==> InsideHalfOpen(local)
  {
  }

  /** Near the middle sector, each call of the corrected wrap moves one pending coordinate inside. */
  lemma HalfOpenWrapSettlesOneAxis(local: Vec3)
    requires NearHalfOpen(local) && !InsideHalfOpen(local)
    ensures NearHalfOpen(HalfOpenWrapped(local))
    ensures PendingHalfOpen(HalfOpenWrapped(local)) == PendingHalfOpen(local) - 1
  {
  }

  /** With no exception for the faces, at most three calls bring the world into the middle sector, where it stays. */
  lemma {:induction false} HalfOpenWrapsSettle(local: Vec3, n: nat)
    requires NearHalfOpen(local)
    requires PendingHalfOpen(local) <= n
    ensures InsideHalfOpen(HalfOpenWraps(local, n))
    decreases n
  {
    if n == 0 {
      assert HalfOpenWraps(local, 0) == local;
    } else if InsideHalfOpen(local) {
      HalfOpenWrapFixedPoints(local);
      HalfOpenWrapsOfFixedPoint(local, n);
    } else {
      HalfOpenWrapSettlesOneAxis(local);
      HalfOpenWrapsSettle(HalfOpenWrapped(local), n - 1);
    }
  }

  lemma {:induction false} HalfOpenWrapsOfFixedPoint(local: Vec3, n: nat)
    requires HalfOpenWrapped(local) == local
    ensures HalfOpenWraps(local, n) == local
    decreases n
  {
    if n > 0 {
      HalfOpenWrapsOfFixedPoint(local, n - 1);
    }
  }

  /** The starved example settles under the corrected wrap. */
  lemma StarvedWorldReturnsUnderHalfOpenWrap()
    ensures InsideHalfOpen(HalfOpenWraps(Vec3(HalfSize + 1.0, 0.0, HalfSize), 3))
  {
    HalfOpenWrapsSettle(Vec3(HalfSize + 1.0, 0.0, HalfSize), 3);
  }

  /** A world node as the game drives it. */
  class World {
    /** The boundary box mesh, scaled to `Size`, with one instance per sector. */
    const boundary: Mesh
    /** `getPositionExpressedInLocalSpace()`. */
    var local: Vec3
    var rotation: Mat3

    /** The constructor's triple loop adds unit translations `(x, y, z)` to the boundary box. */
    constructor ()
      ensures fresh(boundary) && boundary.scalingX == Size
      ensures boundary.instances == SectorInstances(1.0)
      ensures local == Zero && rotation == Identity
    {
      boundary := new Mesh(Size);
      local := Zero;
      rotation := Identity;
      new;
      AddSectorInstances(boundary, 1.0);
    }

    /** `locallyTranslate(v)`: moves the node by `v` along its own axes. */
    method LocallyTranslate(v: Vec3)
      modifies this
      ensures local == Add(old(local), v) && rotation == old(rotation)
    {
      local := Add(local, v);
    }

    /** `doSectorWrap()`. */
    method DoSectorWrap()
      modifies this
      ensures local == SectorWrapped(old(local))
      ensures rotation == old(rotation)
    {
      var position := local;
      if position.z <= -HalfSize {
        LocallyTranslate(Scale(Unit(Z), Size));
      } else if HalfSize <= position.z {
        LocallyTranslate(Scale(Unit(Z), -Size));
      } else if position.y <= -HalfSize {
        LocallyTranslate(Scale(Unit(Y), Size));
      } else if HalfSize <= position.y {
        LocallyTranslate(Scale(Unit(Y), -Size));
      } else if position.x <= -HalfSize {
        LocallyTranslate(Scale(Unit(X), Size));
      } else if HalfSize <= position.x {
        LocallyTranslate(Scale(Unit(X), -Size));
      }
    }

    /**
     * `translate(axis, distance, Space.WORLD)`: a world-space move, which in
     * local space is the same vector taken through the inverse rotation.
     */
    method TranslateWorld(axis: Axis, distance: real)
      modifies this
      ensures local == Add(old(local), VecMat(Scale(Unit(axis), distance), Transpose(old(rotation))))
      ensures rotation == old(rotation)
    {
      local := Add(local, VecMat(Scale(Unit(axis), distance), Transpose(rotation)));
    }

    /**
     * `rotateAround(Vector3.ZeroReadOnly, axis, angle)`: position and
     * orientation turn together about the origin, so the position in local
     * space is unchanged.
     */
    method RotateAroundOrigin(axis: Axis, angle: real, rotate: Rotator)
      modifies this
      ensures local == old(local)
      ensures rotation == rotate(old(rotation), Unit(axis), angle)
    {
      rotation := rotate(rotation, Unit(axis), angle);
    }
  }
}
