/**
 * The `World` of the first game version: instancing a mesh into every
 * sector, re-deriving every sector replica from its node's rotation, and
 * wrapping a node's world position back into the centre sector.
 */
module SrcWorld {
  import opened Vectors
  import opened SectorGrid

  /** Sector edge in the mesh's own units: `World.Size / mesh.scaling.x`. */
  function SectorScale(scalingX: real): real
    requires scalingX != 0.0
  {
    Size / scalingX
  }

  /** `World.Sectorize(mesh)`: one instance per sector, translated by the sector offset. */
  method Sectorize(mesh: Mesh)
    requires mesh.scalingX != 0.0
    modifies mesh
    ensures mesh.scalingX == old(mesh.scalingX)
    ensures mesh.instances == old(mesh.instances) + SectorInstances(SectorScale(mesh.scalingX))
  {
    var scale := Size / mesh.scalingX;
    AddSectorInstances(mesh, scale);
  }

  /** A box scaled to the world size gets a sector edge of exactly one mesh unit. */
  lemma BoundaryBoxScale()
    ensures SectorScale(Size) == 1.0
  {
  }

  /**
   * The matrix of one sector replica: the node's rotation, then the sector
   * translation, then the rotation's inverse (the transpose of a rotation).
   */
  function SectorXform(rotation: Mat3, offset: Vec3): Affine {
    Multiply(Multiply(RotationXform(rotation), Translation(offset)), RotationXform(Transpose(rotation)))
  }

  /** For a rotation, a replica is a pure translation by the sector offset taken back through the rotation. */
  lemma SectorXformOfRotation(rotation: Mat3, offset: Vec3)
    requires Orthonormal(rotation)
    ensures SectorXform(rotation, offset) == Translation(VecMat(offset, Transpose(rotation)))
  {
    MulIdentityRight(rotation);
    VecMatZero(Identity);
  }

  /** With no rotation a replica is exactly the sector translation. */
  lemma SectorXformOfIdentity(offset: Vec3)
    ensures SectorXform(Identity, offset) == Translation(offset)
  {
    SectorXformOfRotation(Identity, offset);
    VecMatIdentity(offset);
  }

  /**
   * What a replica does to a point: the node's rotation turns it, the sector
   * offset moves it, and the inverse rotation turns it back.  For a rotation
   * that comes to moving the point by the offset taken back through the rotation.
   */
  lemma ReplicaMovesPoint(rotation: Mat3, offset: Vec3, p: Vec3)
    ensures Transform(SectorXform(rotation, offset), p) == VecMat(Add(VecMat(p, rotation), offset), Transpose(rotation))
    ensures Orthonormal(rotation) ==> Transform(SectorXform(rotation, offset), p) == Add(p, VecMat(offset, Transpose(rotation)))
  {
    var turn := RotationXform(rotation);
    MultiplyApplies(Multiply(turn, Translation(offset)), RotationXform(Transpose(rotation)), p);
    MultiplyApplies(turn, Translation(offset), p);
    VecMatIdentity(VecMat(p, rotation));
    if Orthonormal(rotation) {
      SectorXformOfRotation(rotation, offset);
      VecMatIdentity(p);
    }
  }

  /** The buffer after one `UpdateSectorizedInstances` pass. */
  function UpdatedInstances(buffer: seq<InstanceWrite>, rotation: Mat3, scale: real): (r: seq<InstanceWrite>)
    ensures |r| == |buffer|
  {
    seq(|buffer|, i requires 0 <= i < |buffer| =>
      if i < SectorCount
      then InstanceWrite(SectorXform(rotation, Offset(CoordAt(i), scale)), RefreshFlag(CoordAt(i)))
      else buffer[i])
  }

  /**
   * `World.UpdateSectorizedInstances(node, mesh)`: the same triple loop as
   * `Sectorize`, overwriting instance `thinInstanceIndex` on each step.
   */
  method UpdateSectorizedInstances(node: TransformNode, mesh: Mesh)
    requires mesh.scalingX != 0.0
    modifies mesh
    ensures mesh.scalingX == old(mesh.scalingX)
    ensures mesh.instances == UpdatedInstances(old(mesh.instances), node.Rotation(), SectorScale(mesh.scalingX))
  {
    var thinInstanceIndex := 0;
    var scale := Size / mesh.scalingX;
    ghost var target := UpdatedInstances(old(mesh.instances), node.Rotation(), scale);
    var x := -SectorIndexMax;
    while x <= SectorIndexMax
      invariant -SectorIndexMax <= x <= SectorIndexMax + 1
      invariant thinInstanceIndex == (x + SectorIndexMax) * SectorsPerAxis * SectorsPerAxis
      invariant mesh.scalingX == old(mesh.scalingX)
      invariant |mesh.instances| == |target|
      invariant forall i :: 0 <= i < |target| ==> mesh.instances[i] == if i < thinInstanceIndex then target[i] else old(mesh.instances)[i]
    {
      var y := -SectorIndexMax;
      while y <= SectorIndexMax
        invariant -SectorIndexMax <= y <= SectorIndexMax + 1
        invariant thinInstanceIndex == (x + SectorIndexMax) * SectorsPerAxis * SectorsPerAxis + (y + SectorIndexMax) * SectorsPerAxis
        invariant mesh.scalingX == old(mesh.scalingX)
        invariant |mesh.instances| == |target|
        invariant forall i :: 0 <= i < |target| ==> mesh.instances[i] == if i < thinInstanceIndex then target[i] else old(mesh.instances)[i]
      {
        var z := -SectorIndexMax;
        while z <= SectorIndexMax
          invariant -SectorIndexMax <= z <= SectorIndexMax + 1
          invariant thinInstanceIndex == IndexOf(SectorCoord(x, y, z))
          invariant mesh.scalingX == old(mesh.scalingX)
          invariant |mesh.instances| == |target|
          invariant forall i :: 0 <= i < |target| ==> mesh.instances[i] == if i < thinInstanceIndex then target[i] else old(mesh.instances)[i]
        {
          var c := SectorCoord(x, y, z);
          IndexOfInRange(c);
          var rotation := node.Rotation();
          var instanceXform := Multiply(RotationXform(rotation), Translation(Offset(c, scale)));
          instanceXform := Multiply(instanceXform, RotationXform(Transpose(rotation)));
          mesh.ThinInstanceSetMatrixAt(thinInstanceIndex, instanceXform, (x + y + z) == 3 * SectorIndexMax);
          thinInstanceIndex := thinInstanceIndex + 1;
          z := z + 1;
        }
        y := y + 1;
      }
      x := x + 1;
    }
  }

  /** Instance `i < SectorCount` of an updated buffer is the replica of the `i`-th sector, with that sector's flag. */
  lemma UpdatedInstanceAt(buffer: seq<InstanceWrite>, rotation: Mat3, scale: real, i: nat)
    requires i < SectorCount && i < |buffer|
    ensures UpdatedInstances(buffer, rotation, scale)[i]
         == InstanceWrite(SectorXform(rotation, Offset(CoordAt(i), scale)), RefreshFlag(CoordAt(i)))
  {
  }

  /** Every rewritten instance keeps the sector triple and the flag `Sectorize` gave it; only the matrix changes. */
  lemma UpdateKeepsSectorAndFlag(rotation: Mat3, scale: real, i: nat)
    requires i < SectorCount
    ensures var before := SectorInstances(scale)[i];
            var after := UpdatedInstances(SectorInstances(scale), rotation, scale)[i];
            && after.refresh == before.refresh
            && after.matrix == SectorXform(rotation, Offset(CoordAt(i), scale))
            && before.matrix == Translation(Offset(CoordAt(i), scale))
  {
    UpdatedInstanceAt(SectorInstances(scale), rotation, scale, i);
  }

  /** Index stability: with no rotation, an update pass rewrites a freshly sectorized buffer to itself. */
  lemma UpdateWithoutRotationIsSectorize(scale: real)
    ensures UpdatedInstances(SectorInstances(scale), Identity, scale) == SectorInstances(scale)
  {
    var before := SectorInstances(scale);
    var after := UpdatedInstances(before, Identity, scale);
    assert forall i | 0 <= i < SectorCount :: after[i] == before[i] by {
      forall i | 0 <= i < SectorCount
        ensures after[i] == before[i]
      {
        UpdateWithoutRotationAt(scale, i);
      }
    }
    SameElements(after, before);
  }

  lemma SameElements(a: seq<InstanceWrite>, b: seq<InstanceWrite>)
    requires |a| == |b| && forall i | 0 <= i < |a| :: a[i] == b[i]
    ensures a == b
  {
  }

  lemma UpdateWithoutRotationAt(scale: real, i: nat)
    requires i < SectorCount
    ensures UpdatedInstances(SectorInstances(scale), Identity, scale)[i] == SectorInstances(scale)[i]
  {
    var o := Offset(CoordAt(i), scale);
    var f := RefreshFlag(CoordAt(i));
    assert SectorInstances(scale)[i] == InstanceWrite(Translation(o), f);
    UpdatedInstanceAt(SectorInstances(scale), Identity, scale, i);
    SectorXformOfIdentity(o);
  }

  /** One axis of `WrapNodePositionOnAxis`, strict on both sides. */
  function WrapAxis(p: real): real {
    if p < -HalfSize then p + Size
    else if HalfSize < p then p - Size
    else p
  }

  /** The position after `World.WrapNode`. */
  function Wrapped(p: Vec3): Vec3 {
    Vec3(WrapAxis(p.x), WrapAxis(p.y), WrapAxis(p.z))
  }

  /** `WrapNodePositionOnAxis(node, position, axis)`: at most one world-size step along `axis`. */
  method WrapNodePositionOnAxis(node: TransformNode, position: real, axis: Axis)
    modifies node
    ensures node.rotationQuaternion == old(node.rotationQuaternion)
    ensures node.position == Shift(old(node.position), axis, WrapAxis(position) - position)
  {
    if position < -HalfSize {
      node.Translate(axis, Size);
    } else if HalfSize < position {
      node.Translate(axis, -Size);
    } else {
      assert Shift(node.position, axis, 0.0) == node.position;
    }
  }

  /** `World.WrapNode(node)`: x, then y, then z. */
  method WrapNode(node: TransformNode)
    modifies node
    ensures node.rotationQuaternion == old(node.rotationQuaternion)
    ensures node.position == Wrapped(old(node.position))
  {
    WrapNodePositionOnAxis(node, node.position.x, X);
    WrapNodePositionOnAxis(node, node.position.y, Y);
    WrapNodePositionOnAxis(node, node.position.z, Z);
  }

  /** One axis adds `Size` exactly when below `-HalfSize`, subtracts it exactly when above `HalfSize`. */
  lemma WrapAxisCases(p: real)
    ensures WrapAxis(p) == p + Size <==> p < -HalfSize
    ensures WrapAxis(p) == p - Size <==> HalfSize < p
    ensures WrapAxis(p) == p <==> -HalfSize <= p <= HalfSize
  {
  }

  /** Positions inside the closed centre box, faces included, are left where they are. */
  lemma WrapInsideIsNoOp(p: Vec3)
    requires -HalfSize <= p.x <= HalfSize && -HalfSize <= p.y <= HalfSize && -HalfSize <= p.z <= HalfSize
    ensures Wrapped(p) == p
  {
  }

  /** All three axes are corrected in one call: from within three half-sizes, every coordinate lands in the centre box. */
  lemma WrapLandsInCentre(p: Vec3)
    requires -3.0 * HalfSize <= p.x <= 3.0 * HalfSize
    requires -3.0 * HalfSize <= p.y <= 3.0 * HalfSize
    requires -3.0 * HalfSize <= p.z <= 3.0 * HalfSize
    ensures var q := Wrapped(p);
      -HalfSize <= q.x <= HalfSize && -HalfSize <= q.y <= HalfSize && -HalfSize <= q.z <= HalfSize
  {
  }

  /**
   * Round trip: a node in the closed centre box moved one world size along an
   * axis is wrapped back to where it was, unless it started on the face behind
   * the step: it then lands exactly on the opposite face, which the strict test keeps.
   */
  lemma WrapUndoesOneSectorStep(p: Vec3, a: Axis, step: real)
    requires step == Size || step == -Size
    requires -HalfSize <= p.x <= HalfSize && -HalfSize <= p.y <= HalfSize && -HalfSize <= p.z <= HalfSize
    requires step == Size ==> -HalfSize < Component(p, a)
    requires step == -Size ==> Component(p, a) < HalfSize
    ensures Wrapped(Shift(p, a, step)) == p
  {
    match a
    case X => assert Shift(p, a, step) == p.(x := p.x + step);
    case Y => assert Shift(p, a, step) == p.(y := p.y + step);
    case Z => assert Shift(p, a, step) == p.(z := p.z + step);
  }

  /** Crossing a face by less than one sector comes back in at the opposite face: z = 500.02 re-enters at z = -499.98. */
  lemma WrapCrossingFace(p: Vec3, e: real)
    requires 0.0 < e < Size
    requires -HalfSize <= p.x <= HalfSize && -HalfSize <= p.y <= HalfSize
    requires p.z == HalfSize + e
    ensures Wrapped(p) == Vec3(p.x, p.y, e - HalfSize)
  {
  }

  /** The source's first version of the world: a boundary box of world size, sectorized. */
  class World {
    const boundary: Mesh

    constructor ()
      ensures fresh(boundary)
      ensures boundary.scalingX == Size
      ensures boundary.instances == SectorInstances(1.0)
    {
      boundary := new Mesh(Size);
      new;
      Sectorize(boundary);
      BoundaryBoxScale();
    }
  }
}
