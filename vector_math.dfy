/**
 * The interpolation component (Assets/Scripts/VectorMath.cs, class
 * VectorMath): two transforms A and B are decomposed, their translations,
 * rotations and scales blended by `time` where the matching flag is on, and the
 * blend recomposed into a new matrix.
 *
 * The rotation blend negates the relative rotation when its scalar part is
 * positive, so that part becomes -|a . b|; the angle PI - acos(-|a . b|) is
 * then half the shortest angle between a and b, and the blend turns along the
 * shortest arc, producing the negated quaternion of that rotation.
 */
module TransformInterpolation {
  import opened Numerics
  import opened Vectors
  import opened MatrixExtensions

  /** InterpolateVector: the linear blend (1 - time) a + time b when `check` is
      on, and `a` when it is off. */
  function InterpolateVector(a: Vector3, b: Vector3, time: real, check: bool): (r: Vector3)
    ensures !check || time == 0.0 ==> r == a
    ensures check && time == 1.0 ==> r == b
    ensures a == b ==> r == a
  {
    if check then Add3(Scale3(a, 1.0 - time), Scale3(b, time)) else a
  }

  /** `r` lies between `p` and `q`. */
  predicate Between(p: real, q: real, r: real) {
    (p <= r <= q) || (q <= r <= p)
  }

  /** For a time in [0, 1] each blended component lies between the components
      it is blended from. */
  lemma InterpolateVectorIsBetween(a: Vector3, b: Vector3, time: real, check: bool)
    requires 0.0 <= time <= 1.0
    ensures var r := InterpolateVector(a, b, time, check);
      Between(a.x, b.x, r.x) && Between(a.y, b.y, r.y) && Between(a.z, b.z, r.z)
  {
    BlendIsBetween(a.x, b.x, time);
    BlendIsBetween(a.y, b.y, time);
    BlendIsBetween(a.z, b.z, time);
  }

  lemma BlendIsBetween(p: real, q: real, t: real)
    requires 0.0 <= t <= 1.0
    ensures Between(p, q, p * (1.0 - t) + q * t)
  {
    var d, u := q - p, 1.0 - t;
    var td, ud := t * d, u * d;
    assert p * (1.0 - t) + q * t == p + td;
    assert td + ud == d;
    if d >= 0.0 {
      NonNegativeProduct(t, d);
      NonNegativeProduct(u, d);
    } else {
      NonNegativeProduct(t, -d);
      NonNegativeProduct(u, -d);
    }
  }

  lemma NonNegativeProduct(a: real, b: real)
    requires 0.0 <= a && 0.0 <= b
    ensures 0.0 <= a * b
  {
  }

  /** The relative rotation `b * a.Inverse()`, negated in full when its scalar
      part is positive and kept as it is otherwise (a zero scalar part
      included). The result never has a positive w and stands for the same
      rotation as before the flip. */
  function FlippedRelative(a: Quaternion, b: Quaternion): (c: Quaternion)
    ensures c.w <= 0.0
    ensures Mul(b, Inverse(a)).w <= 0.0 ==> c == Mul(b, Inverse(a))
    ensures Mul(b, Inverse(a)).w > 0.0 ==> c == InverseFull(Mul(b, Inverse(a)))
  {
    var c := Mul(b, Inverse(a));
    if c.w > 0.0 then InverseFull(c) else c
  }

  /** The scalar part of the flipped relative rotation is minus the absolute
      dot product of the two rotations: the blend's angle PI - acos(c.w) is
      therefore acos(|a . b|), half the shortest angle from a to b. */
  lemma FlippedRelativeScalar(a: Quaternion, b: Quaternion)
    ensures FlippedRelative(a, b).w == -Abs(Dot(a, b))
  {
    assert Mul(b, Inverse(a)).w == -Dot(a, b);
  }

  /** The flip in FlippedRelative does not change the rotation. */
  lemma FlipSameRotation(a: Quaternion, b: Quaternion, v: Vector3)
    ensures Rotate(FlippedRelative(a, b), v) == Rotate(Mul(b, Inverse(a)), v)
  {
    InverseFullSameRotation(Mul(b, Inverse(a)), v);
  }

  /** InterpolateQuaternion: `a` when `check` is off or time is 0, `b` when time
      is 1, and otherwise the blend built from c, the flipped relative
      rotation: the angle (PI - acos(c.w)) * time about the normalised vector
      part of c, as the quaternion (axis * sin(angle), -cos(angle)) applied
      before `a`. */
  function InterpolateQuaternion(mathf: Mathf, a: Quaternion, b: Quaternion, time: real, check: bool): (r: Quaternion)
    ensures !check || time == 0.0 ==> r == a
    ensures check && time == 1.0 ==> r == b
  {
    if !check || time == 0.0 then a
    else if time == 1.0 then b
    else
      var c := FlippedRelative(a, b);
      var angle := (PI - mathf.acos(c.w)) * time;
      var rotAxis := Scale3(Normalized3(mathf, Eigen(c)), mathf.sin(angle));
      Mul(Quaternion(rotAxis.x, rotAxis.y, rotAxis.z, -mathf.cos(angle)), a)
  }

  /** Blending a unit quaternion with itself: the relative rotation is
      -identity, so no flip happens, the angle is 0 and the blend is
      InverseFull(a), the same rotation as `a`. */
  lemma InterpolateQuaternionSelf(mathf: Mathf, a: Quaternion, time: real, check: bool)
    requires TrigLaws(mathf)
    requires IsUnit(a)
    ensures InterpolateQuaternion(mathf, a, a, time, check)
         == if !check || time == 0.0 || time == 1.0 then a else InverseFull(a)
  {
    if check && time != 0.0 && time != 1.0 {
      var c := FlippedRelative(a, a);
      assert Mul(a, Inverse(a)) == Quaternion(0.0, 0.0, 0.0, -1.0);
      assert c == Quaternion(0.0, 0.0, 0.0, -1.0);
      var angle := (PI - mathf.acos(c.w)) * time;
      assert angle == 0.0;
      var rotAxis := Scale3(Normalized3(mathf, Eigen(c)), mathf.sin(angle));
      assert rotAxis == Zero3;
      assert Mul(Quaternion(0.0, 0.0, 0.0, -1.0), a) == InverseFull(a);
    }
  }

  /** ComputeMatrix, on values: identity.SetMatrixComponents of the blended
      translation, rotation and scale of A and B. */
  function Interpolated(mathf: Mathf, A: Mat4, B: Mat4, time: real, translation: bool, rotation: bool, scaling: bool): (r: Mat4)
    ensures GetTranslation(r) == InterpolateVector(GetTranslation(A), GetTranslation(B), time, translation)
    ensures Column(r, 3).w == 1.0
  {
    Compose(mathf, IdentityMatrix,
      InterpolateVector(GetTranslation(A), GetTranslation(B), time, translation),
      InterpolateQuaternion(mathf, Rotation(mathf, A), Rotation(mathf, B), time, rotation),
      InterpolateVector(GetScale(mathf, A), GetScale(mathf, B), time, scaling))
  }

  /** The identity matrix rebuilt from the components of A. */
  function Recomposed(mathf: Mathf, A: Mat4): (r: Mat4)
    ensures GetTranslation(r) == GetTranslation(A)
  {
    Compose(mathf, IdentityMatrix, GetTranslation(A), Rotation(mathf, A), GetScale(mathf, A))
  }

  /** Rebuilding A from its components keeps A's scale, and its columns are
      the world axes turned by A's decomposed rotation and scaled by A's
      scale. */
  lemma RecomposedComponents(mathf: Mathf, A: Mat4)
    requires SqrtLaws(mathf)
    ensures GetScale(mathf, Recomposed(mathf, A)) == GetScale(mathf, A)
    ensures Column(Recomposed(mathf, A), 0) == ToVector4(Scale3(Rotate(Rotation(mathf, A), Right), GetScale(mathf, A).x))
    ensures Column(Recomposed(mathf, A), 1) == ToVector4(Scale3(Rotate(Rotation(mathf, A), Up), GetScale(mathf, A).y))
    ensures Column(Recomposed(mathf, A), 2) == ToVector4(Scale3(Rotate(Rotation(mathf, A), Forward), GetScale(mathf, A).z))
  {
    var t, q, s := GetTranslation(A), Rotation(mathf, A), GetScale(mathf, A);
    RotationIsUnit(mathf, A);
    ScaleIsNonNegative(mathf, A);
    IdentityIsNonDegenerate(mathf);
    ComposeRoundTrip(mathf, IdentityMatrix, t, q, s);
    ComposeColumns(mathf, IdentityMatrix, t, q, s);
  }

  /** At time 0 the result is A's own components, whatever the flags. */
  lemma InterpolatedAtStart(mathf: Mathf, A: Mat4, B: Mat4, translation: bool, rotation: bool, scaling: bool)
    ensures Interpolated(mathf, A, B, 0.0, translation, rotation, scaling) == Recomposed(mathf, A)
  {
  }

  /** At time 1 with every flag on the result is B's components. */
  lemma InterpolatedAtEnd(mathf: Mathf, A: Mat4, B: Mat4)
    ensures Interpolated(mathf, A, B, 1.0, true, true, true) == Recomposed(mathf, B)
  {
  }

  /** With every flag off the result is A's components at any time. */
  lemma InterpolatedGatedOff(mathf: Mathf, A: Mat4, B: Mat4, time: real)
    ensures Interpolated(mathf, A, B, time, false, false, false) == Recomposed(mathf, A)
  {
  }

  /** Interpolating A with itself gives A's own components at every time and
      for every choice of flags. */
  lemma InterpolatedSelf(mathf: Mathf, A: Mat4, time: real, translation: bool, rotation: bool, scaling: bool)
    requires SqrtLaws(mathf) && TrigLaws(mathf)
    ensures Interpolated(mathf, A, A, time, translation, rotation, scaling) == Recomposed(mathf, A)
  {
    RotationIsUnit(mathf, A);
    BlendSelf(mathf, GetTranslation(A), Rotation(mathf, A), GetScale(mathf, A), time, translation, rotation, scaling);
  }

  /** Blending a set of components with itself recomposes to the same matrix. */
  lemma BlendSelf(mathf: Mathf, t: Vector3, q: Quaternion, s: Vector3, time: real, translation: bool, rotation: bool, scaling: bool)
    requires TrigLaws(mathf)
    requires IsUnit(q)
    ensures Compose(mathf, IdentityMatrix, InterpolateVector(t, t, time, translation),
                    InterpolateQuaternion(mathf, q, q, time, rotation), InterpolateVector(s, s, time, scaling))
         == Compose(mathf, IdentityMatrix, t, q, s)
  {
    var ti := InterpolateVector(t, t, time, translation);
    var qi := InterpolateQuaternion(mathf, q, q, time, rotation);
    var si := InterpolateVector(s, s, time, scaling);
    assert ti == t && si == s;
    InterpolateQuaternionSelf(mathf, q, time, rotation);
    if qi != q {
      assert qi == InverseFull(q);
      ComposeOfInverseFull(mathf, IdentityMatrix, t, q, s);
    }
  }

  /** The scale read back from the result is the blended scale, whenever the
      rotation put in is one of the two decomposed rotations (rotation blend
      off, or time at an end point) and time is in [0, 1]. */
  lemma InterpolatedScale(mathf: Mathf, A: Mat4, B: Mat4, time: real, translation: bool, rotation: bool, scaling: bool)
    requires SqrtLaws(mathf)
    requires 0.0 <= time <= 1.0
    requires !rotation || time == 0.0 || time == 1.0
    ensures GetScale(mathf, Interpolated(mathf, A, B, time, translation, rotation, scaling))
         == InterpolateVector(GetScale(mathf, A), GetScale(mathf, B), time, scaling)
  {
    var sA, sB := GetScale(mathf, A), GetScale(mathf, B);
    ScaleIsNonNegative(mathf, A);
    ScaleIsNonNegative(mathf, B);
    InterpolateVectorIsBetween(sA, sB, time, scaling);
    RotationIsUnit(mathf, A);
    RotationIsUnit(mathf, B);
    IdentityIsNonDegenerate(mathf);
    ComposeRoundTrip(mathf, IdentityMatrix,
      InterpolateVector(GetTranslation(A), GetTranslation(B), time, translation),
      InterpolateQuaternion(mathf, Rotation(mathf, A), Rotation(mathf, B), time, rotation),
      InterpolateVector(sA, sB, time, scaling));
  }

  /** Matrix4x4.zero, the value of an unset serialised matrix. */
  const ZeroMatrix := Mat4(
    0.0, 0.0, 0.0, 0.0,
    0.0, 0.0, 0.0, 0.0,
    0.0, 0.0, 0.0, 0.0,
    0.0, 0.0, 0.0, 0.0)

  /** The component: the two source matrices, the time and the three flags. */
  class VectorMath {
    var time: real
    var translation: bool
    var scaling: bool
    var rotation: bool
    var A: Matrix4x4
    var B: Matrix4x4

    /** The serialised defaults: zero matrices, time 0, every flag off. */
    constructor ()
      ensures A.Value() == ZeroMatrix && B.Value() == ZeroMatrix
      ensures time == 0.0 && !translation && !scaling && !rotation
    {
      time := 0.0;
      translation, scaling, rotation := false, false, false;
      A := new Matrix4x4.FromValue(ZeroMatrix);
      B := new Matrix4x4.FromValue(ZeroMatrix);
    }

    /** ComputeMatrix: decompose A and B, blend each component, recompose on
        the identity. Neither A nor B is changed. */
    method ComputeMatrix(mathf: Mathf) returns (c: Matrix4x4)
      ensures c.Value() == Interpolated(mathf, A.Value(), B.Value(), time, translation, rotation, scaling)
      ensures fresh(c)
    {
      var identity := new Matrix4x4.FromValue(IdentityMatrix);
      var qA := A.GetRotation(mathf);
      var qB := B.GetRotation(mathf);
      c := identity.SetMatrixComponents(mathf,
        InterpolateVector(GetTranslation(A.Value()), GetTranslation(B.Value()), time, translation),
        InterpolateQuaternion(mathf, qA, qB, time, rotation),
        InterpolateVector(GetScale(mathf, A.Value()), GetScale(mathf, B.Value()), time, scaling));
    }
  }
}
