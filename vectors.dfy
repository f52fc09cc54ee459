/**
 * The small amount of vector and transform math the game relies on, and the
 * two scene-library objects its core mutates: transform nodes and meshes with
 * a thin-instance buffer.  Matrices follow the scene library's row-vector
 * convention: a point `p` is transformed as `p · M`, and `A.multiply(B)`
 * applies `A` first and `B` second.
 */
module Vectors {

  datatype Option<T> = None | Some(value: T) {
    function GetOr(default: T): T {
      match this
      case Some(v) => v
      case None => default
    }
  }

  datatype Vec3 = Vec3(x: real, y: real, z: real)

  const Zero := Vec3(0.0, 0.0, 0.0)

  /** The world axes (the three constants of the game's `Constant` class). */
  datatype Axis = X | Y | Z

  function Unit(a: Axis): Vec3 {
    match a
    case X => Vec3(1.0, 0.0, 0.0)
    case Y => Vec3(0.0, 1.0, 0.0)
    case Z => Vec3(0.0, 0.0, 1.0)
  }

  function Component(v: Vec3, a: Axis): real {
    match a
    case X => v.x
    case Y => v.y
    case Z => v.z
  }

  function Add(a: Vec3, b: Vec3): Vec3 {
    Vec3(a.x + b.x, a.y + b.y, a.z + b.z)
  }

  function Scale(v: Vec3, k: real): Vec3 {
    Vec3(v.x * k, v.y * k, v.z * k)
  }

  function LengthSquared(v: Vec3): real {
    v.x * v.x + v.y * v.y + v.z * v.z
  }

  /** Holds when `length` is the Euclidean length, as the scene library's `length()` is. */
  ghost predicate IsEuclideanLength(length: Vec3 -> real) {
    forall v :: length(v) >= 0.0 && length(v) * length(v) == LengthSquared(v)
  }

  /** `v` moved by `d` along the world axis `a`. */
  function Shift(v: Vec3, a: Axis, d: real): (r: Vec3)
    ensures Component(r, a) == Component(v, a) + d
    ensures forall b :: b != a ==> Component(r, b) == Component(v, b)
  {
    match a
    case X => Vec3(v.x + d, v.y, v.z)
    case Y => Vec3(v.x, v.y + d, v.z)
    case Z => Vec3(v.x, v.y, v.z + d)
  }

  lemma LengthSquaredOfScale(v: Vec3, k: real)
    ensures LengthSquared(Scale(v, k)) == k * k * LengthSquared(v)
  {
    calc {
      LengthSquared(Scale(v, k));
      (v.x * k) * (v.x * k) + (v.y * k) * (v.y * k) + (v.z * k) * (v.z * k);
      { assert (v.x * k) * (v.x * k) == k * k * (v.x * v.x);
        assert (v.y * k) * (v.y * k) == k * k * (v.y * v.y);
        assert (v.z * k) * (v.z * k) == k * k * (v.z * v.z); }
      k * k * LengthSquared(v);
    }
  }

  /** A 3×3 matrix, row by row. */
  datatype Mat3 = Mat3(
    m11: real, m12: real, m13: real,
    m21: real, m22: real, m23: real,
    m31: real, m32: real, m33: real)

  const Identity := Mat3(1.0, 0.0, 0.0, 0.0, 1.0, 0.0, 0.0, 0.0, 1.0)

  function Row1(m: Mat3): Vec3 { Vec3(m.m11, m.m12, m.m13) }
  function Row2(m: Mat3): Vec3 { Vec3(m.m21, m.m22, m.m23) }
  function Row3(m: Mat3): Vec3 { Vec3(m.m31, m.m32, m.m33) }

  function Transpose(m: Mat3): Mat3 {
    Mat3(m.m11, m.m21, m.m31,
         m.m12, m.m22, m.m32,
         m.m13, m.m23, m.m33)
  }

  function Mul(a: Mat3, b: Mat3): Mat3 {
    Mat3(a.m11 * b.m11 + a.m12 * b.m21 + a.m13 * b.m31,
         a.m11 * b.m12 + a.m12 * b.m22 + a.m13 * b.m32,
         a.m11 * b.m13 + a.m12 * b.m23 + a.m13 * b.m33,
         a.m21 * b.m11 + a.m22 * b.m21 + a.m23 * b.m31,
         a.m21 * b.m12 + a.m22 * b.m22 + a.m23 * b.m32,
         a.m21 * b.m13 + a.m22 * b.m23 + a.m23 * b.m33,
         a.m31 * b.m11 + a.m32 * b.m21 + a.m33 * b.m31,
         a.m31 * b.m12 + a.m32 * b.m22 + a.m33 * b.m32,
         a.m31 * b.m13 + a.m32 * b.m23 + a.m33 * b.m33)
  }

  /** The row vector `v · m`. */
  function VecMat(v: Vec3, m: Mat3): Vec3 {
    Vec3(v.x * m.m11 + v.y * m.m21 + v.z * m.m31,
         v.x * m.m12 + v.y * m.m22 + v.z * m.m32,
         v.x * m.m13 + v.y * m.m23 + v.z * m.m33)
  }

  /** A rotation matrix: its transpose is its inverse. */
  predicate Orthonormal(m: Mat3) {
    Mul(m, Transpose(m)) == Identity
  }

  lemma MulIdentityRight(m: Mat3)
    ensures Mul(m, Identity) == m
  {
  }

  lemma VecMatIdentity(v: Vec3)
    ensures VecMat(v, Identity) == v
  {
  }

  lemma VecMatZero(m: Mat3)
    ensures VecMat(Zero, m) == Zero
  {
  }

  /** An affine map `p ↦ p · linear + translation` (a 4×4 matrix with last column (0,0,0,1)). */
  datatype Affine = Affine(linear: Mat3, translation: Vec3)

  function Translation(v: Vec3): Affine {
    Affine(Identity, v)
  }

  function RotationXform(m: Mat3): Affine {
    Affine(m, Zero)
  }

  function Transform(a: Affine, p: Vec3): Vec3 {
    Add(VecMat(p, a.linear), a.translation)
  }

  /** The matrix product `a × b`, i.e. "apply `a`, then `b`". */
  function Multiply(a: Affine, b: Affine): Affine {
    Affine(Mul(a.linear, b.linear), Add(VecMat(a.translation, b.linear), b.translation))
  }

  /** The product transforms a point as the two factors do, one after the other. */
  lemma MultiplyApplies(a: Affine, b: Affine, p: Vec3)
    ensures Transform(Multiply(a, b), p) == Transform(b, Transform(a, p))
  {
    VecMatMul(p, a.linear, b.linear);
  }

  lemma VecMatMul(v: Vec3, a: Mat3, b: Mat3)
    ensures VecMat(v, Mul(a, b)) == VecMat(VecMat(v, a), b)
  {
    Reassociate(v.x, v.y, v.z, a.m11, a.m12, a.m13, a.m21, a.m22, a.m23, a.m31, a.m32, a.m33, b.m11, b.m21, b.m31);
    Reassociate(v.x, v.y, v.z, a.m11, a.m12, a.m13, a.m21, a.m22, a.m23, a.m31, a.m32, a.m33, b.m12, b.m22, b.m32);
    Reassociate(v.x, v.y, v.z, a.m11, a.m12, a.m13, a.m21, a.m22, a.m23, a.m31, a.m32, a.m33, b.m13, b.m23, b.m33);
  }

  /** One coordinate of `(v · a) · b = v · (a · b)`, as the dot product of `v` with a column of `a · b`. */
  lemma Reassociate(x: real, y: real, z: real,
                    a11: real, a12: real, a13: real, a21: real, a22: real, a23: real, a31: real, a32: real, a33: real,
                    b1: real, b2: real, b3: real)
    ensures Dot3(x, y, z, Dot3(a11, a12, a13, b1, b2, b3), Dot3(a21, a22, a23, b1, b2, b3), Dot3(a31, a32, a33, b1, b2, b3))
         == Dot3(Dot3(x, y, z, a11, a21, a31), Dot3(x, y, z, a12, a22, a32), Dot3(x, y, z, a13, a23, a33), b1, b2, b3)
  {
  }

  function Dot3(x: real, y: real, z: real, p: real, q: real, r: real): real {
    x * p + y * q + z * r
  }

  /** A node's local axes, as the scene library derives them from its rotation: `right`, `up`, `forward`. */
  function Right(m: Mat3): Vec3 { Row1(m) }
  function Up(m: Mat3): Vec3 { Row2(m) }
  function Forward(m: Mat3): Vec3 { Row3(m) }

  /** The scene library's `rotateAround`: the new rotation matrix after turning `m` by an angle about an axis. */
  type Rotator = (Mat3, Vec3, real) -> Mat3

  /** A scene-graph node: a position and an optional rotation quaternion, kept here as its rotation matrix. */
  class TransformNode {
    var position: Vec3
    var rotationQuaternion: Option<Mat3>

    constructor ()
      ensures position == Zero && rotationQuaternion == None
    {
      position := Zero;
      rotationQuaternion := None;
    }

    /** The rotation the node renders with; without a quaternion its (zero) Euler rotation gives the identity. */
    function Rotation(): Mat3
      reads this
    {
      rotationQuaternion.GetOr(Identity)
    }

    /** `node.translate(axis, distance, Space.WORLD)`. */
    method Translate(axis: Axis, distance: real)
      modifies this
      ensures position == Shift(old(position), axis, distance)
      ensures rotationQuaternion == old(rotationQuaternion)
    {
      position := Shift(position, axis, distance);
    }

    /** `node.rotateAround(node.position, axis, angle)`: the position is the pivot, so only the rotation changes. */
    method RotateAroundOwnPosition(axis: Vec3, angle: real, rotate: Rotator)
      modifies this
      ensures position == old(position)
      ensures rotationQuaternion == Some(rotate(old(Rotation()), axis, angle))
    {
      rotationQuaternion := Some(rotate(Rotation(), axis, angle));
    }
  }

  /** One slot of a thin-instance buffer: the matrix last written there and the refresh argument of that write. */
  datatype InstanceWrite = InstanceWrite(matrix: Affine, refresh: bool)

  /** A mesh with thin instances. `scalingX` is `mesh.scaling.x`. */
  class Mesh {
    var scalingX: real
    var instances: seq<InstanceWrite>

    constructor (scalingX: real)
      ensures this.scalingX == scalingX && instances == []
    {
      this.scalingX := scalingX;
      instances := [];
    }

    /** `thinInstanceAdd(matrix, refresh)` appends one instance. */
    method ThinInstanceAdd(matrix: Affine, refresh: bool)
      modifies this
      ensures scalingX == old(scalingX)
      ensures instances == old(instances) + [InstanceWrite(matrix, refresh)]
    {
      instances := instances + [InstanceWrite(matrix, refresh)];
    }

    /** `thinInstanceSetMatrixAt(index, matrix, refresh)`: overwrites an existing slot; an index past the end is ignored. */
    method ThinInstanceSetMatrixAt(index: nat, matrix: Affine, refresh: bool)
      modifies this
      ensures scalingX == old(scalingX)
      ensures instances == if index < |old(instances)| then old(instances)[index := InstanceWrite(matrix, refresh)] else old(instances)
    {
      if index < |instances| {
        instances := instances[index := InstanceWrite(matrix, refresh)];
      }
    }
  }
}
