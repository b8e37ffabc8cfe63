/**
 * The extension methods on Matrix4x4 (Assets/Scripts/VectorMath.cs, class
 * MatrixExtentionMethods): reading and writing the translation, scale and
 * rotation of a transform matrix, rebuilding a matrix from those three
 * components, the determinant of its scale-normalised rotation block, and three
 * quaternion helpers.
 *
 * Matrix4x4 is a struct that the setters change through `ref this`; it is the
 * class `Matrix4x4` below, whose methods are proved against functions on its
 * value `Mat4`. Lemmas about those functions state what the methods promise.
 */
module MatrixExtensions {
  import opened Numerics
  import opened Vectors

  /** The value held by a Matrix4x4: entry m<row><column>. Columns 0-2 are the
      scaled, rotated basis axes; column 3 is the translation (w = 1). */
  datatype Mat4 = Mat4(
    m00: real, m01: real, m02: real, m03: real,
    m10: real, m11: real, m12: real, m13: real,
    m20: real, m21: real, m22: real, m23: real,
    m30: real, m31: real, m32: real, m33: real)

  /** Matrix4x4.identity */
  const IdentityMatrix := Mat4(
    1.0, 0.0, 0.0, 0.0,
    0.0, 1.0, 0.0, 0.0,
    0.0, 0.0, 1.0, 0.0,
    0.0, 0.0, 0.0, 1.0)

  /** Matrix4x4.GetColumn */
  function Column(m: Mat4, i: nat): Vector4
    requires i < 4
  {
    if i == 0 then Vector4(m.m00, m.m10, m.m20, m.m30)
    else if i == 1 then Vector4(m.m01, m.m11, m.m21, m.m31)
    else if i == 2 then Vector4(m.m02, m.m12, m.m22, m.m32)
    else Vector4(m.m03, m.m13, m.m23, m.m33)
  }

  /** Matrix4x4.SetColumn, on the value: column i becomes v, the others stay. */
  function WithColumn(m: Mat4, i: nat, v: Vector4): (r: Mat4)
    requires i < 4
    ensures Column(r, i) == v
    ensures forall j: nat :: j < 4 && j != i ==> Column(r, j) == Column(m, j)
  {
    if i == 0 then m.(m00 := v.x, m10 := v.y, m20 := v.z, m30 := v.w)
    else if i == 1 then m.(m01 := v.x, m11 := v.y, m21 := v.z, m31 := v.w)
    else if i == 2 then m.(m02 := v.x, m12 := v.y, m22 := v.z, m32 := v.w)
    else m.(m03 := v.x, m13 := v.y, m23 := v.z, m33 := v.w)
  }

  /** Columns 0-2 all have a 4-length above the normalisation threshold. */
  ghost predicate NonDegenerate(mathf: Mathf, m: Mat4) {
    Magnitude4(mathf, Column(m, 0)) > VectorEpsilon &&
    Magnitude4(mathf, Column(m, 1)) > VectorEpsilon &&
    Magnitude4(mathf, Column(m, 2)) > VectorEpsilon
  }

  // ------------------------------------------------------------ translation

  /** GetTranslation: the xyz of column 3. */
  function GetTranslation(m: Mat4): (r: Vector3)
    ensures r == Vector3(m.m03, m.m13, m.m23)
  {
    ToVector3(Column(m, 3))
  }

  /** SetTranslation, on the value. */
  function WithTranslation(m: Mat4, translation: Vector3): (r: Mat4)
    ensures Column(r, 3) == Vector4(translation.x, translation.y, translation.z, 1.0)
    ensures GetTranslation(r) == translation
    ensures Column(r, 0) == Column(m, 0) && Column(r, 1) == Column(m, 1) && Column(r, 2) == Column(m, 2)
  {
    WithColumn(m, 3, Vector4(translation.x, translation.y, translation.z, 1.0))
  }

  // ------------------------------------------------------------------ scale

  /** GetScale: per axis, the 4-length of the column (row 3 included). */
  function GetScale(mathf: Mathf, m: Mat4): Vector3 {
    Vector3(Magnitude4(mathf, Column(m, 0)), Magnitude4(mathf, Column(m, 1)), Magnitude4(mathf, Column(m, 2)))
  }

  /** SetScale, on the value: each of columns 0-2 normalised as a 4-vector and
      multiplied by its scale component; column 3 is never touched. */
  function WithScale(mathf: Mathf, m: Mat4, scale: Vector3): (r: Mat4)
    ensures Column(r, 0) == Scale4(Normalized4(mathf, Column(m, 0)), scale.x)
    ensures Column(r, 1) == Scale4(Normalized4(mathf, Column(m, 1)), scale.y)
    ensures Column(r, 2) == Scale4(Normalized4(mathf, Column(m, 2)), scale.z)
    ensures Column(r, 3) == Column(m, 3)
  {
    var m1 := WithColumn(m, 0, Scale4(Normalized4(mathf, Column(m, 0)), scale.x));
    var m2 := WithColumn(m1, 1, Scale4(Normalized4(mathf, Column(m1, 1)), scale.y));
    WithColumn(m2, 2, Scale4(Normalized4(mathf, Column(m2, 2)), scale.z))
  }

  /** Every component of GetScale is non-negative. */
  lemma ScaleIsNonNegative(mathf: Mathf, m: Mat4)
    requires SqrtLaws(mathf)
    ensures GetScale(mathf, m).x >= 0.0 && GetScale(mathf, m).y >= 0.0 && GetScale(mathf, m).z >= 0.0
  {
    DotIsNonNegative(Column(m, 0));
    DotIsNonNegative(Column(m, 1));
    DotIsNonNegative(Column(m, 2));
  }

  lemma DotIsNonNegative(v: Vector4)
    ensures Dot4(v, v) >= 0.0
  {
    assert v.x * v.x >= 0.0 && v.y * v.y >= 0.0 && v.z * v.z >= 0.0 && v.w * v.w >= 0.0;
  }

  /** A 4-vector longer than the threshold normalises to length 1. */
  lemma NormalizedIsUnit4(mathf: Mathf, v: Vector4)
    requires SqrtLaws(mathf)
    requires Magnitude4(mathf, v) > VectorEpsilon
    ensures Dot4(Normalized4(mathf, v), Normalized4(mathf, v)) == 1.0
  {
    var d := Dot4(v, v);
    DotIsNonNegative(v);
    var mag := Magnitude4(mathf, v);
    assert mag * mag == d;
    var k := 1.0 / mag;
    DivIsMulByInverse(v.x, mag);
    DivIsMulByInverse(v.y, mag);
    DivIsMulByInverse(v.z, mag);
    DivIsMulByInverse(v.w, mag);
    var r := Vector4(v.x * k, v.y * k, v.z * k, v.w * k);
    assert r == Normalized4(mathf, v);
    ScaledSquares(v.x, v.y, v.z, v.w, k);
    UnitAfterScaling(d, mag);
  }

  /** The length of one column after SetScale: the scale component when the
      column was long enough to normalise, 0 otherwise. */
  lemma ScaledColumnLength(mathf: Mathf, v: Vector4, s: real)
    requires SqrtLaws(mathf)
    requires 0.0 <= s
    ensures Magnitude4(mathf, Scale4(Normalized4(mathf, v), s))
         == if Magnitude4(mathf, v) > VectorEpsilon then s else 0.0
  {
    if Magnitude4(mathf, v) > VectorEpsilon {
      NormalizedIsUnit4(mathf, v);
      MagnitudeOfScaledUnit4(mathf, Normalized4(mathf, v), s);
    } else {
      assert Scale4(Normalized4(mathf, v), s) == Zero4;
      SqrtOfSquare(mathf, 0.0);
    }
  }

  /** GetScale after SetScale(s) with s >= 0 gives back s on every axis whose
      column could be normalised, and 0 on an axis whose column could not. */
  lemma ScaleRoundTrip(mathf: Mathf, m: Mat4, s: Vector3)
    requires SqrtLaws(mathf)
    requires s.x >= 0.0 && s.y >= 0.0 && s.z >= 0.0
    ensures GetScale(mathf, WithScale(mathf, m, s)) == Vector3(
      if Magnitude4(mathf, Column(m, 0)) > VectorEpsilon then s.x else 0.0,
      if Magnitude4(mathf, Column(m, 1)) > VectorEpsilon then s.y else 0.0,
      if Magnitude4(mathf, Column(m, 2)) > VectorEpsilon then s.z else 0.0)
  {
    ScaledColumnLength(mathf, Column(m, 0), s.x);
    ScaledColumnLength(mathf, Column(m, 1), s.y);
    ScaledColumnLength(mathf, Column(m, 2), s.z);
  }

  // --------------------------------------------------------------- rotation

  /** SetRotation, on the value: column i becomes world axis i rotated by the
      quaternion and multiplied by the old scale of that axis (as a Vector4 with
      w = 0); column 3 is never touched. */
  function WithRotation(mathf: Mathf, m: Mat4, rotation: Quaternion): (r: Mat4)
    ensures Column(r, 0) == ToVector4(Scale3(Rotate(rotation, Right), GetScale(mathf, m).x))
    ensures Column(r, 1) == ToVector4(Scale3(Rotate(rotation, Up), GetScale(mathf, m).y))
    ensures Column(r, 2) == ToVector4(Scale3(Rotate(rotation, Forward), GetScale(mathf, m).z))
    ensures Column(r, 3) == Column(m, 3)
    ensures Column(r, 0).w == 0.0 && Column(r, 1).w == 0.0 && Column(r, 2).w == 0.0
  {
    var scale := GetScale(mathf, m);
    var m1 := WithColumn(m, 0, ToVector4(Scale3(Rotate(rotation, Right), scale.x)));
    var m2 := WithColumn(m1, 1, ToVector4(Scale3(Rotate(rotation, Up), scale.y)));
    WithColumn(m2, 2, ToVector4(Scale3(Rotate(rotation, Forward), scale.z)))
  }

  /** The rotated axis i times a length s >= 0, as a column, has 4-length s. */
  lemma RotatedColumnLength(mathf: Mathf, q: Quaternion, axis: Vector3, s: real)
    requires SqrtLaws(mathf)
    requires SqrMagnitude3(Rotate(q, axis)) == 1.0 && 0.0 <= s
    ensures Magnitude4(mathf, ToVector4(Scale3(Rotate(q, axis), s))) == s
  {
    var u := Rotate(q, axis);
    assert ToVector4(Scale3(u, s)) == Scale4(ToVector4(u), s);
    MagnitudeOfScaledUnit4(mathf, ToVector4(u), s);
  }

  /** SetRotation with a unit quaternion keeps the scale: it reads GetScale
      before it rewrites the columns. */
  lemma SetRotationKeepsScale(mathf: Mathf, m: Mat4, q: Quaternion)
    requires SqrtLaws(mathf)
    requires IsUnit(q)
    ensures GetScale(mathf, WithRotation(mathf, m, q)) == GetScale(mathf, m)
  {
    var scale := GetScale(mathf, m);
    ScaleIsNonNegative(mathf, m);
    RotatedAxesAreUnit(q);
    RotatedColumnLength(mathf, q, Right, scale.x);
    RotatedColumnLength(mathf, q, Up, scale.y);
    RotatedColumnLength(mathf, q, Forward, scale.z);
  }

  /** The sum cross(col0, right) + cross(col1, up) + cross(col2, forward) over
      the xyz of the columns GetRotation computes. */
  function CrossSum(n: Mat4): (r: Vector3)
    // It is the axial vector of the block's antisymmetric part: zero exactly
    // when the upper-left 3x3 block is symmetric.
    ensures r == Vector3(n.m12 - n.m21, n.m20 - n.m02, n.m01 - n.m10)
  {
    Add3(Add3(Cross(ToVector3(Column(n, 0)), Right), Cross(ToVector3(Column(n, 1)), Up)),
         Cross(ToVector3(Column(n, 2)), Forward))
  }

  /** GetRotation, on the value: the rotation read off the scale-normalised
      copy of the matrix. */
  function Rotation(mathf: Mathf, m: Mat4): Quaternion {
    NormalizedRotation(mathf, WithScale(mathf, m, One3))
  }

  /** The part of GetRotation after SetScale(one): the identity when the summed
      cross products are (within Unity's tolerance) zero, and otherwise the
      half-angle quaternion, normalised. */
  function NormalizedRotation(mathf: Mathf, n: Mat4): Quaternion {
    var result := CrossSum(n);
    if ApproxEqual3(result, Zero3) then Identity
    else NormalizedQuaternion(mathf, HalfAngleQuaternion(mathf, n, result))
  }

  /** The quaternion GetRotation builds before normalising it: w is the cosine
      of half the angle whose cosine (trace - 1) / 2 is clamped to [-1, 1]; the
      vector part is the normalised cross-product sum times minus the sine of
      that half angle. */
  function HalfAngleQuaternion(mathf: Mathf, n: Mat4, result: Vector3): Quaternion {
    var trace := n.m00 + n.m11 + n.m22;
    var cosAngle := Clamp((trace - 1.0) / 2.0, -1.0, 1.0);
    var cosHalfAngle := mathf.sqrt((1.0 + cosAngle) / 2.0);
    var sinHalfAngle := mathf.sqrt((1.0 - cosAngle) / 2.0);
    var rotAxis := Scale3(Normalized3(mathf, result), -sinHalfAngle);
    Quaternion(rotAxis.x, rotAxis.y, rotAxis.z, cosHalfAngle)
  }

  /** When the summed cross products are longer than the normalisation
      threshold, the half-angle quaternion is already a unit: cos^2 + sin^2 of
      the half angle is 1, and the axis has length 1. */
  lemma HalfAngleIsUnit(mathf: Mathf, n: Mat4, result: Vector3)
    requires SqrtLaws(mathf)
    requires Magnitude3(mathf, result) > VectorEpsilon
    ensures IsUnit(HalfAngleQuaternion(mathf, n, result))
  {
    var trace := n.m00 + n.m11 + n.m22;
    var cosAngle := Clamp((trace - 1.0) / 2.0, -1.0, 1.0);
    var cosHalfAngle := mathf.sqrt((1.0 + cosAngle) / 2.0);
    var sinHalfAngle := mathf.sqrt((1.0 - cosAngle) / 2.0);
    var u := Normalized3(mathf, result);
    NormalizedIsUnit3(mathf, result);
    HalfAnglesSquared(mathf, cosAngle);
    UnitFromHalfAngle(HalfAngleQuaternion(mathf, n, result), u, cosHalfAngle, sinHalfAngle);
  }

  /** The algebra of HalfAngleIsUnit: the quaternion (-s u, c) with |u| = 1 and
      c^2 + s^2 = 1 is a unit. */
  lemma UnitFromHalfAngle(q: Quaternion, u: Vector3, c: real, s: real)
    requires SqrMagnitude3(u) == 1.0 && c * c + s * s == 1.0
    requires q == Quaternion(Scale3(u, -s).x, Scale3(u, -s).y, Scale3(u, -s).z, c)
    ensures IsUnit(q)
  {
    ScaledSqrMagnitude(u, -s);
    assert (-s) * (-s) == s * s;
  }

  /** cos^2 + sin^2 of the half angle, each computed as a square root, is 1. */
  lemma HalfAnglesSquared(mathf: Mathf, cosAngle: real)
    requires SqrtLaws(mathf)
    requires -1.0 <= cosAngle <= 1.0
    ensures mathf.sqrt((1.0 + cosAngle) / 2.0) * mathf.sqrt((1.0 + cosAngle) / 2.0)
          + mathf.sqrt((1.0 - cosAngle) / 2.0) * mathf.sqrt((1.0 - cosAngle) / 2.0) == 1.0
  {
    assert 0.0 <= (1.0 + cosAngle) / 2.0 && 0.0 <= (1.0 - cosAngle) / 2.0;
  }

  /** A 3-vector longer than the threshold normalises to length 1 (the
      4-vector lemma with w = 0). */
  lemma NormalizedIsUnit3(mathf: Mathf, v: Vector3)
    requires SqrtLaws(mathf)
    requires Magnitude3(mathf, v) > VectorEpsilon
    ensures SqrMagnitude3(Normalized3(mathf, v)) == 1.0
  {
    var v4 := ToVector4(v);
    assert Dot4(v4, v4) == SqrMagnitude3(v);
    assert Magnitude4(mathf, v4) == Magnitude3(mathf, v);
    NormalizedIsUnit4(mathf, v4);
    assert Normalized4(mathf, v4) == ToVector4(Normalized3(mathf, v));
  }

  /** Scaling a 3-vector by k scales its squared length by k^2. */
  lemma ScaledSqrMagnitude(v: Vector3, k: real)
    ensures SqrMagnitude3(Scale3(v, k)) == k * k * SqrMagnitude3(v)
  {
    assert v.x * k * (v.x * k) == k * k * (v.x * v.x);
    assert v.y * k * (v.y * k) == k * k * (v.y * v.y);
    assert v.z * k * (v.z * k) == k * k * (v.z * v.z);
  }

  /** GetRotation always returns a unit quaternion. */
  lemma RotationIsUnit(mathf: Mathf, m: Mat4)
    requires SqrtLaws(mathf)
    ensures IsUnit(Rotation(mathf, m))
  {
    NormalizedRotationIsUnit(mathf, WithScale(mathf, m, One3));
  }

  lemma NormalizedRotationIsUnit(mathf: Mathf, n: Mat4)
    requires SqrtLaws(mathf)
    ensures IsUnit(NormalizedRotation(mathf, n))
  {
    NormalizedQuaternionIsUnit(mathf, HalfAngleQuaternion(mathf, n, CrossSum(n)));
  }

  /** GetRotation returns the identity whenever the scale-normalised upper-left
      block is symmetric. */
  lemma RotationOfSymmetricBlock(mathf: Mathf, m: Mat4)
    requires var n := WithScale(mathf, m, One3); n.m12 == n.m21 && n.m20 == n.m02 && n.m01 == n.m10
    ensures Rotation(mathf, m) == Identity
  {
    var n := WithScale(mathf, m, One3);
    assert CrossSum(n) == Zero3;
  }

  /** GetRotation returns the identity for every matrix whose upper-left 3x3
      block is diagonal: scale-only matrices, but also the half-turns about a
      world axis such as diag(1, -1, -1). */
  lemma RotationOfAxisAligned(mathf: Mathf, m: Mat4)
    requires m.m01 == 0.0 && m.m02 == 0.0 && m.m10 == 0.0 && m.m12 == 0.0 && m.m20 == 0.0 && m.m21 == 0.0
    ensures Rotation(mathf, m) == Identity
  {
    var n := WithScale(mathf, m, One3);
    assert n.m01 == 0.0 && n.m02 == 0.0 && n.m10 == 0.0 && n.m12 == 0.0 && n.m20 == 0.0 && n.m21 == 0.0;
    RotationOfSymmetricBlock(mathf, m);
  }

  // ------------------------------------------------------------ composition

  /** SetMatrixComponents, on the value: SetTranslation, then SetRotation, then
      SetScale. Column 3 is (t, 1) whatever the rotation and scale. */
  function Compose(mathf: Mathf, m: Mat4, t: Vector3, q: Quaternion, s: Vector3): (r: Mat4)
    ensures Column(r, 3) == Vector4(t.x, t.y, t.z, 1.0)
    ensures GetTranslation(r) == t
  {
    WithScale(mathf, WithRotation(mathf, WithTranslation(m, t), q), s)
  }

  /** Recomposing from a matrix whose columns can be normalised, with a unit
      rotation and a non-negative scale, gives back the translation and the
      scale that were put in. */
  lemma ComposeRoundTrip(mathf: Mathf, m: Mat4, t: Vector3, q: Quaternion, s: Vector3)
    requires SqrtLaws(mathf)
    requires NonDegenerate(mathf, m) && IsUnit(q)
    requires s.x >= 0.0 && s.y >= 0.0 && s.z >= 0.0
    ensures GetTranslation(Compose(mathf, m, t, q, s)) == t
    ensures GetScale(mathf, Compose(mathf, m, t, q, s)) == s
  {
    var m1 := WithTranslation(m, t);
    assert GetScale(mathf, m1) == GetScale(mathf, m);
    var m2 := WithRotation(mathf, m1, q);
    SetRotationKeepsScale(mathf, m1, q);
    ScaleRoundTrip(mathf, m2, s);
  }

  /** On a base whose columns can be normalised, with a unit rotation, column i
      of the rebuilt matrix is world axis i rotated by q and multiplied by scale
      component i (w = 0). */
  lemma ComposeColumns(mathf: Mathf, m: Mat4, t: Vector3, q: Quaternion, s: Vector3)
    requires SqrtLaws(mathf)
    requires NonDegenerate(mathf, m) && IsUnit(q)
    ensures Column(Compose(mathf, m, t, q, s), 0) == ToVector4(Scale3(Rotate(q, Right), s.x))
    ensures Column(Compose(mathf, m, t, q, s), 1) == ToVector4(Scale3(Rotate(q, Up), s.y))
    ensures Column(Compose(mathf, m, t, q, s), 2) == ToVector4(Scale3(Rotate(q, Forward), s.z))
  {
    var m1 := WithTranslation(m, t);
    var k := GetScale(mathf, m1);
    assert k == GetScale(mathf, m);
    RotatedAxesAreUnit(q);
    var m2 := WithRotation(mathf, m1, q);
    var r, u, f := Rotate(q, Right), Rotate(q, Up), Rotate(q, Forward);
    NormalizedScaledAxis(mathf, r, k.x);
    NormalizedScaledAxis(mathf, u, k.y);
    NormalizedScaledAxis(mathf, f, k.z);
    assert Normalized4(mathf, Column(m2, 0)) == ToVector4(r);
    assert Normalized4(mathf, Column(m2, 1)) == ToVector4(u);
    assert Normalized4(mathf, Column(m2, 2)) == ToVector4(f);
    ScaledColumn(r, s.x);
    ScaledColumn(u, s.y);
    ScaledColumn(f, s.z);
  }

  /** Scaling commutes with the Vector3 -> Vector4 conversion. */
  lemma ScaledColumn(v: Vector3, d: real)
    ensures Scale4(ToVector4(v), d) == ToVector4(Scale3(v, d))
  {
  }

  /** A unit axis scaled by a length above the threshold normalises back to
      itself. */
  lemma NormalizedScaledAxis(mathf: Mathf, u: Vector3, k: real)
    requires SqrtLaws(mathf)
    requires SqrMagnitude3(u) == 1.0 && k > VectorEpsilon
    ensures Normalized4(mathf, ToVector4(Scale3(u, k))) == ToVector4(u)
  {
    var v := ToVector4(u);
    assert ToVector4(Scale3(u, k)) == Scale4(v, k);
    assert Dot4(v, v) == 1.0;
    MagnitudeOfScaledUnit4(mathf, v, k);
    assert v.x * k / k == v.x && v.y * k / k == v.y && v.z * k / k == v.z;
  }

  /** The identity matrix has unit columns, so it can be recomposed. */
  lemma IdentityIsNonDegenerate(mathf: Mathf)
    requires SqrtLaws(mathf)
    ensures GetScale(mathf, IdentityMatrix) == One3
    ensures NonDegenerate(mathf, IdentityMatrix)
  {
    SqrtOne(mathf);
    assert Magnitude4(mathf, Column(IdentityMatrix, 0)) == 1.0;
    assert Magnitude4(mathf, Column(IdentityMatrix, 1)) == 1.0;
    assert Magnitude4(mathf, Column(IdentityMatrix, 2)) == 1.0;
  }

  // ------------------------------------------------------------ determinant

  /** GetDiagonalP: the products along the three "positive" diagonals of the
      upper-left 3x3 block; 1 for a shift outside 0..2. */
  function DiagonalP(m: Mat4, xShift: int): (r: real)
    ensures !(0 <= xShift <= 2) ==> r == 1.0
  {
    match xShift
    case 0 => m.m00 * m.m11 * m.m22
    case 1 => m.m01 * m.m12 * m.m20
    case 2 => m.m02 * m.m10 * m.m21
    case _ => 1.0
  }

  /** GetDiagonalR: the products along the three "negative" diagonals of the
      upper-left 3x3 block; 1 for a shift outside 0..2. */
  function DiagonalR(m: Mat4, xShift: int): (r: real)
    ensures !(0 <= xShift <= 2) ==> r == 1.0
  {
    match xShift
    case 0 => m.m00 * m.m12 * m.m21
    case 1 => m.m01 * m.m10 * m.m22
    case 2 => m.m02 * m.m11 * m.m20
    case _ => 1.0
  }

  /** The determinant of the upper-left 3x3 block by cofactor expansion along
      the first row: the reference the rule of Sarrus is checked against. */
  function BlockDeterminant(m: Mat4): real {
    Det3(m.m00, m.m01, m.m02, m.m10, m.m11, m.m12, m.m20, m.m21, m.m22)
  }

  /** The determinant of a 3x3 matrix given row by row, expanded along the
      first row. */
  function Det3(a00: real, a01: real, a02: real, a10: real, a11: real, a12: real, a20: real, a21: real, a22: real): real {
    a00 * (a11 * a22 - a12 * a21) - a01 * (a10 * a22 - a12 * a20) + a02 * (a10 * a21 - a11 * a20)
  }

  /** GetDeterminant, on the value: the rule of Sarrus on the scale-normalised
      copy. It is the determinant of that copy's upper-left block. */
  function Determinant(mathf: Mathf, m: Mat4): (d: real)
    ensures d == BlockDeterminant(WithScale(mathf, m, One3))
  {
    var n := WithScale(mathf, m, One3);
    DiagonalP(n, 0) + DiagonalP(n, 1) + DiagonalP(n, 2) - DiagonalR(n, 0) - DiagonalR(n, 1) - DiagonalR(n, 2)
  }

  /** GetDeterminant ignores column 3 (the translation). */
  lemma DeterminantIgnoresColumn3(mathf: Mathf, m: Mat4, v: Vector4)
    ensures Determinant(mathf, WithColumn(m, 3, v)) == Determinant(mathf, m)
  {
    var m' := WithColumn(m, 3, v);
    assert Column(m', 0) == Column(m, 0) && Column(m', 1) == Column(m, 1) && Column(m', 2) == Column(m, 2);
    var n', n := WithScale(mathf, m', One3), WithScale(mathf, m, One3);
    assert Column(n', 0) == Column(n, 0) && Column(n', 1) == Column(n, 1) && Column(n', 2) == Column(n, 2);
  }

  /** GetDeterminant of the identity matrix is 1. */
  lemma DeterminantOfIdentity(mathf: Mathf)
    requires SqrtLaws(mathf)
    ensures Determinant(mathf, IdentityMatrix) == 1.0
  {
    var i := IdentityMatrix;
    SqrtOne(mathf);
    assert Magnitude4(mathf, Column(i, 0)) == 1.0;
    assert Magnitude4(mathf, Column(i, 1)) == 1.0;
    assert Magnitude4(mathf, Column(i, 2)) == 1.0;
    assert Scale4(Normalized4(mathf, Column(i, 0)), 1.0) == Column(i, 0);
    assert Scale4(Normalized4(mathf, Column(i, 1)), 1.0) == Column(i, 1);
    assert Scale4(Normalized4(mathf, Column(i, 2)), 1.0) == Column(i, 2);
    assert WithScale(mathf, i, One3) == i;
  }

  /** GetDeterminant after SetRotation with a unit quaternion is 1 (on a matrix
      whose columns can be normalised): the normalised block is the rotation
      matrix of the quaternion. */
  lemma DeterminantOfRotation(mathf: Mathf, m: Mat4, q: Quaternion)
    requires SqrtLaws(mathf)
    requires NonDegenerate(mathf, m) && IsUnit(q)
    ensures Determinant(mathf, WithRotation(mathf, m, q)) == 1.0
  {
    var n := WithScale(mathf, WithRotation(mathf, m, q), One3);
    NormalizedRotationColumns(mathf, m, q);
    RightImage(q);
    UpImage(q);
    ForwardImage(q);
    RotationBlockDeterminant(q, n);
  }

  /** After SetRotation with a unit quaternion on a matrix whose columns can
      be normalised, the scale-normalised copy that GetRotation and
      GetDeterminant read has the rotated world axes as columns 0-2. */
  lemma NormalizedRotationColumns(mathf: Mathf, m: Mat4, q: Quaternion)
    requires SqrtLaws(mathf)
    requires NonDegenerate(mathf, m) && IsUnit(q)
    ensures var n := WithScale(mathf, WithRotation(mathf, m, q), One3);
      Column(n, 0) == ToVector4(Rotate(q, Right)) && Column(n, 1) == ToVector4(Rotate(q, Up))
      && Column(n, 2) == ToVector4(Rotate(q, Forward))
  {
    var k := GetScale(mathf, m);
    var r, u, f := Rotate(q, Right), Rotate(q, Up), Rotate(q, Forward);
    RotatedAxesAreUnit(q);
    NormalizedScaledAxis(mathf, r, k.x);
    NormalizedScaledAxis(mathf, u, k.y);
    NormalizedScaledAxis(mathf, f, k.z);
    ScaledColumn(r, 1.0);
    ScaledColumn(u, 1.0);
    ScaledColumn(f, 1.0);
  }

  /** Every half-turn (a unit quaternion with w = 0, about any axis) written by
      SetRotation is read back by GetRotation as the identity: its rotation
      block 2 n n^T - I is symmetric. */
  lemma RotationOfHalfTurn(mathf: Mathf, m: Mat4, q: Quaternion)
    requires SqrtLaws(mathf)
    requires NonDegenerate(mathf, m) && IsUnit(q) && q.w == 0.0
    ensures Rotation(mathf, WithRotation(mathf, m, q)) == Identity
  {
    NormalizedRotationColumns(mathf, m, q);
    RightImage(q);
    UpImage(q);
    ForwardImage(q);
    RotationOfSymmetricBlock(mathf, WithRotation(mathf, m, q));
  }

  /** The block of Unity's rotation matrix of a unit quaternion has
      determinant 1. */
  lemma RotationBlockDeterminant(q: Quaternion, n: Mat4)
    requires IsUnit(q)
    requires n.m00 == 1.0 - 2.0 * (q.y * q.y + q.z * q.z) && n.m10 == 2.0 * (q.x * q.y + q.w * q.z) && n.m20 == 2.0 * (q.x * q.z - q.w * q.y)
    requires n.m01 == 2.0 * (q.y * q.x - q.w * q.z) && n.m11 == 1.0 - 2.0 * (q.z * q.z + q.x * q.x) && n.m21 == 2.0 * (q.y * q.z + q.w * q.x)
    requires n.m02 == 2.0 * (q.z * q.x + q.w * q.y) && n.m12 == 2.0 * (q.z * q.y - q.w * q.x) && n.m22 == 1.0 - 2.0 * (q.x * q.x + q.y * q.y)
    ensures BlockDeterminant(n) == 1.0
  {
    UnitRotationPolynomial(q.x, q.y, q.z, q.w);
  }

  /** The cofactor expansion of the rotation block, as a polynomial in the
      four components of a unit quaternion. */
  lemma UnitRotationPolynomial(x: real, y: real, z: real, w: real)
    requires x * x + y * y + z * z + w * w == 1.0
    ensures Det3(
      1.0 - 2.0 * (y * y + z * z), 2.0 * (y * x - w * z), 2.0 * (z * x + w * y),
      2.0 * (x * y + w * z), 1.0 - 2.0 * (z * z + x * x), 2.0 * (z * y - w * x),
      2.0 * (x * z - w * y), 2.0 * (y * z + w * x), 1.0 - 2.0 * (x * x + y * y)) == 1.0
  {
  }

  /** When a column is too short to normalise, GetDeterminant is 0. */
  lemma DeterminantOfDegenerate(mathf: Mathf, m: Mat4)
    requires !NonDegenerate(mathf, m)
    ensures Determinant(mathf, m) == 0.0
  {
    var n := WithScale(mathf, m, One3);
    if Magnitude4(mathf, Column(m, 0)) <= VectorEpsilon {
      assert n.m00 == 0.0 && n.m10 == 0.0 && n.m20 == 0.0;
    } else if Magnitude4(mathf, Column(m, 1)) <= VectorEpsilon {
      assert n.m01 == 0.0 && n.m11 == 0.0 && n.m21 == 0.0;
    } else {
      assert n.m02 == 0.0 && n.m12 == 0.0 && n.m22 == 0.0;
    }
  }

  /** The determinant of the upper-left block is GetDeterminant times the
      product of the GetScale components: the normalisation divides column j by
      its 4-length. */
  lemma DeterminantTimesScale(mathf: Mathf, m: Mat4)
    requires NonDegenerate(mathf, m)
    ensures BlockDeterminant(m)
         == GetScale(mathf, m).x * GetScale(mathf, m).y * GetScale(mathf, m).z * Determinant(mathf, m)
  {
    var s := GetScale(mathf, m);
    var n := WithScale(mathf, m, One3);
    NormalizedColumnsTimesScale(mathf, m);
    ColumnScaling(n, m, s.x, s.y, s.z);
    var bn, bm, d := BlockDeterminant(n), BlockDeterminant(m), Determinant(mathf, m);
    assert d == bn;
    assert bm == s.x * s.y * s.z * bn;
  }

  /** Each entry of columns 0-2 is the normalised entry times the column's length. */
  lemma NormalizedColumnsTimesScale(mathf: Mathf, m: Mat4)
    requires NonDegenerate(mathf, m)
    ensures var n, s := WithScale(mathf, m, One3), GetScale(mathf, m);
      m.m00 == n.m00 * s.x && m.m10 == n.m10 * s.x && m.m20 == n.m20 * s.x &&
      m.m01 == n.m01 * s.y && m.m11 == n.m11 * s.y && m.m21 == n.m21 * s.y &&
      m.m02 == n.m02 * s.z && m.m12 == n.m12 * s.z && m.m22 == n.m22 * s.z
  {
    var n := WithScale(mathf, m, One3);
    var s := GetScale(mathf, m);
    ColumnTimesLength(mathf, Column(m, 0));
    ColumnTimesLength(mathf, Column(m, 1));
    ColumnTimesLength(mathf, Column(m, 2));
    assert Column(n, 0) == Scale4(Normalized4(mathf, Column(m, 0)), 1.0);
    assert Column(n, 1) == Scale4(Normalized4(mathf, Column(m, 1)), 1.0);
    assert Column(n, 2) == Scale4(Normalized4(mathf, Column(m, 2)), 1.0);
  }

  /** A column long enough to normalise is its normalised self times its length. */
  lemma ColumnTimesLength(mathf: Mathf, v: Vector4)
    requires Magnitude4(mathf, v) > VectorEpsilon
    ensures Scale4(Scale4(Normalized4(mathf, v), 1.0), Magnitude4(mathf, v)) == v
  {
  }

  /** The block determinant is linear in each column. */
  lemma ColumnScaling(n: Mat4, m: Mat4, a: real, b: real, c: real)
    requires m.m00 == n.m00 * a && m.m10 == n.m10 * a && m.m20 == n.m20 * a
    requires m.m01 == n.m01 * b && m.m11 == n.m11 * b && m.m21 == n.m21 * b
    requires m.m02 == n.m02 * c && m.m12 == n.m12 * c && m.m22 == n.m22 * c
    ensures BlockDeterminant(m) == a * b * c * BlockDeterminant(n)
  {
  }

  // ----------------------------------------------------- quaternion helpers

  /** Eigen: the vector part (x, y, z), the quaternion's rotation axis. */
  function Eigen(q: Quaternion): Vector3 {
    Vector3(q.x, q.y, q.z)
  }

  /** Rotating the vector part by the quaternion leaves it fixed. */
  lemma EigenIsFixed(q: Quaternion)
    ensures Rotate(q, Eigen(q)) == Eigen(q)
  {
    var p, e := Products(q), Eigen(q);
    ProductsExpanded(q);
    RotateWithRows(p, e);
    EigenFixedX(q, p, e);
    EigenFixedY(q, p, e);
    EigenFixedZ(q, p, e);
  }

  lemma EigenFixedX(q: Quaternion, p: RotationProducts, e: Vector3)
    requires p == Products(q) && e == Eigen(q)
    ensures (1.0 - (p.yy + p.zz)) * e.x + (p.xy - p.wz) * e.y + (p.xz + p.wy) * e.z == e.x
  {
    var x, y, z, w := q.x, q.y, q.z, q.w;
    ProductsExpanded(q);
    MulCongruence(1.0 - (p.yy + p.zz), 1.0 - (2.0 * (y * y) + 2.0 * (z * z)), e.x, x);
    MulCongruence(p.xy - p.wz, 2.0 * (x * y) - 2.0 * (w * z), e.y, y);
    MulCongruence(p.xz + p.wy, 2.0 * (x * z) + 2.0 * (w * y), e.z, z);
    EigenRowX(x, y, z, w);
  }

  lemma EigenFixedY(q: Quaternion, p: RotationProducts, e: Vector3)
    requires p == Products(q) && e == Eigen(q)
    ensures (p.xy + p.wz) * e.x + (1.0 - (p.xx + p.zz)) * e.y + (p.yz - p.wx) * e.z == e.y
  {
    var x, y, z, w := q.x, q.y, q.z, q.w;
    ProductsExpanded(q);
    MulCongruence(p.xy + p.wz, 2.0 * (x * y) + 2.0 * (w * z), e.x, x);
    MulCongruence(1.0 - (p.xx + p.zz), 1.0 - (2.0 * (x * x) + 2.0 * (z * z)), e.y, y);
    MulCongruence(p.yz - p.wx, 2.0 * (y * z) - 2.0 * (w * x), e.z, z);
    EigenRowY(x, y, z, w);
  }

  lemma EigenFixedZ(q: Quaternion, p: RotationProducts, e: Vector3)
    requires p == Products(q) && e == Eigen(q)
    ensures (p.xz - p.wy) * e.x + (p.yz + p.wx) * e.y + (1.0 - (p.xx + p.yy)) * e.z == e.z
  {
    var x, y, z, w := q.x, q.y, q.z, q.w;
    ProductsExpanded(q);
    MulCongruence(p.xz - p.wy, 2.0 * (x * z) - 2.0 * (w * y), e.x, x);
    MulCongruence(p.yz + p.wx, 2.0 * (y * z) + 2.0 * (w * x), e.y, y);
    MulCongruence(1.0 - (p.xx + p.yy), 1.0 - (2.0 * (x * x) + 2.0 * (y * y)), e.z, z);
    EigenRowZ(x, y, z, w);
  }

  lemma EigenRowX(x: real, y: real, z: real, w: real)
    ensures (1.0 - (2.0 * (y * y) + 2.0 * (z * z))) * x + (2.0 * (x * y) - 2.0 * (w * z)) * y
          + (2.0 * (x * z) + 2.0 * (w * y)) * z == x
  {
    assert (1.0 - (2.0 * (y * y) + 2.0 * (z * z))) * x == x - 2.0 * (y * y * x) - 2.0 * (z * z * x);
    assert (2.0 * (x * y) - 2.0 * (w * z)) * y == 2.0 * (x * y * y) - 2.0 * (w * z * y);
    assert (2.0 * (x * z) + 2.0 * (w * y)) * z == 2.0 * (x * z * z) + 2.0 * (w * y * z);
  }

  lemma EigenRowY(x: real, y: real, z: real, w: real)
    ensures (2.0 * (x * y) + 2.0 * (w * z)) * x + (1.0 - (2.0 * (x * x) + 2.0 * (z * z))) * y
          + (2.0 * (y * z) - 2.0 * (w * x)) * z == y
  {
    assert (2.0 * (x * y) + 2.0 * (w * z)) * x == 2.0 * (x * y * x) + 2.0 * (w * z * x);
    assert (1.0 - (2.0 * (x * x) + 2.0 * (z * z))) * y == y - 2.0 * (x * x * y) - 2.0 * (z * z * y);
    assert (2.0 * (y * z) - 2.0 * (w * x)) * z == 2.0 * (y * z * z) - 2.0 * (w * x * z);
  }

  lemma EigenRowZ(x: real, y: real, z: real, w: real)
    ensures (2.0 * (x * z) - 2.0 * (w * y)) * x + (2.0 * (y * z) + 2.0 * (w * x)) * y
          + (1.0 - (2.0 * (x * x) + 2.0 * (y * y))) * z == z
  {
    assert (2.0 * (x * z) - 2.0 * (w * y)) * x == 2.0 * (x * z * x) - 2.0 * (w * y * x);
    assert (2.0 * (y * z) + 2.0 * (w * x)) * y == 2.0 * (y * z * y) + 2.0 * (w * x * y);
    assert (1.0 - (2.0 * (x * x) + 2.0 * (y * y))) * z == z - 2.0 * (x * x * z) - 2.0 * (y * y * z);
  }

  /** Inverse: flips the sign of w only (the conjugate, negated). q times its
      Inverse is minus the squared norm, so -identity for a unit q. */
  function Inverse(q: Quaternion): (r: Quaternion)
    ensures r.x == q.x && r.y == q.y && r.z == q.z && r.w == -q.w
    ensures Mul(q, r) == Quaternion(0.0, 0.0, 0.0, -Dot(q, q))
  {
    Quaternion(q.x, q.y, q.z, -q.w)
  }

  /** InverseFull: negates all four components. The result stands for the
      same rotation (the double cover) and has the same norm. */
  function InverseFull(q: Quaternion): (r: Quaternion)
    ensures Dot(r, r) == Dot(q, q)
    ensures Dot(r, q) == -Dot(q, q)
  {
    Quaternion(-q.x, -q.y, -q.z, -q.w)
  }

  /** InverseFull(q) rotates every vector exactly as q does. */
  lemma InverseFullSameRotation(q: Quaternion, v: Vector3)
    ensures Rotate(InverseFull(q), v) == Rotate(q, v)
  {
    InverseFullSameProducts(q);
  }

  /** Negating every component leaves the nine products of Rotate unchanged. */
  lemma InverseFullSameProducts(q: Quaternion)
    ensures Products(InverseFull(q)) == Products(q)
  {
    var x, y, z, w := q.x, q.y, q.z, q.w;
    NegatedProduct(x, x); NegatedProduct(y, y); NegatedProduct(z, z);
    NegatedProduct(x, y); NegatedProduct(x, z); NegatedProduct(y, z);
    NegatedProduct(w, x); NegatedProduct(w, y); NegatedProduct(w, z);
  }

  /** The product pattern of `q * v`, unchanged when both factors change sign. */
  lemma NegatedProduct(a: real, b: real)
    ensures (-a) * ((-b) * 2.0) == a * (b * 2.0)
  {
    var p := a * (b * 2.0);
    assert (-a) * ((-b) * 2.0) == p;
  }

  /** SetRotation with InverseFull(q) writes the same matrix as with q. */
  lemma WithRotationOfInverseFull(mathf: Mathf, m: Mat4, q: Quaternion)
    ensures WithRotation(mathf, m, InverseFull(q)) == WithRotation(mathf, m, q)
  {
    InverseFullSameRotation(q, Right);
    InverseFullSameRotation(q, Up);
    InverseFullSameRotation(q, Forward);
  }

  /** Composing with InverseFull(q) gives the same matrix as composing with q. */
  lemma ComposeOfInverseFull(mathf: Mathf, m: Mat4, t: Vector3, q: Quaternion, s: Vector3)
    ensures Compose(mathf, m, t, InverseFull(q), s) == Compose(mathf, m, t, q, s)
  {
    WithRotationOfInverseFull(mathf, WithTranslation(m, t), q);
  }

  lemma InverseIsInvolution(q: Quaternion)
    ensures Inverse(Inverse(q)) == q
  {
  }

  lemma InverseFullIsInvolution(q: Quaternion)
    ensures InverseFull(InverseFull(q)) == q
  {
  }

  // ---------------------------------------------------------- the structure

  /** A Matrix4x4 whose setters change it in place. */
  class Matrix4x4 {
    var m00: real, m01: real, m02: real, m03: real
    var m10: real, m11: real, m12: real, m13: real
    var m20: real, m21: real, m22: real, m23: real
    var m30: real, m31: real, m32: real, m33: real

    function Value(): Mat4
      reads this
    {
      Mat4(m00, m01, m02, m03, m10, m11, m12, m13, m20, m21, m22, m23, m30, m31, m32, m33)
    }

    /** A copy of a matrix value (what passing the struct by value does). */
    constructor FromValue(v: Mat4)
      ensures Value() == v
    {
      m00, m01, m02, m03 := v.m00, v.m01, v.m02, v.m03;
      m10, m11, m12, m13 := v.m10, v.m11, v.m12, v.m13;
      m20, m21, m22, m23 := v.m20, v.m21, v.m22, v.m23;
      m30, m31, m32, m33 := v.m30, v.m31, v.m32, v.m33;
    }

    /** Matrix4x4.SetColumn */
    method SetColumn(i: nat, v: Vector4)
      requires i < 4
      modifies this
      ensures Value() == WithColumn(old(Value()), i, v)
    {
      if i == 0 {
        m00, m10, m20, m30 := v.x, v.y, v.z, v.w;
      } else if i == 1 {
        m01, m11, m21, m31 := v.x, v.y, v.z, v.w;
      } else if i == 2 {
        m02, m12, m22, m32 := v.x, v.y, v.z, v.w;
      } else {
        m03, m13, m23, m33 := v.x, v.y, v.z, v.w;
      }
    }

    /** SetScale: rewrites columns 0-2 in place, column 3 unchanged. */
    method SetScale(mathf: Mathf, scale: Vector3)
      modifies this
      ensures Value() == WithScale(mathf, old(Value()), scale)
      ensures Column(Value(), 3) == Column(old(Value()), 3)
    {
      SetColumn(0, Scale4(Normalized4(mathf, Column(Value(), 0)), scale.x));
      SetColumn(1, Scale4(Normalized4(mathf, Column(Value(), 1)), scale.y));
      SetColumn(2, Scale4(Normalized4(mathf, Column(Value(), 2)), scale.z));
    }

    /** SetTranslation: column 3 becomes (t, 1), columns 0-2 unchanged. */
    method SetTranslation(translation: Vector3)
      modifies this
      ensures Value() == WithTranslation(old(Value()), translation)
      ensures GetTranslation(Value()) == translation
    {
      SetColumn(3, Vector4(translation.x, translation.y, translation.z, 1.0));
    }

    /** SetRotation: rewrites columns 0-2 in place, column 3 unchanged. */
    method SetRotation(mathf: Mathf, rotation: Quaternion)
      modifies this
      ensures Value() == WithRotation(mathf, old(Value()), rotation)
      ensures Column(Value(), 3) == Column(old(Value()), 3)
    {
      var scale := GetScale(mathf, Value());
      SetColumn(0, ToVector4(Scale3(Rotate(rotation, Right), scale.x)));
      SetColumn(1, ToVector4(Scale3(Rotate(rotation, Up), scale.y)));
      SetColumn(2, ToVector4(Scale3(Rotate(rotation, Forward), scale.z)));
    }

    /** GetRotation: works on a local copy, so (having no modifies clause) it
        leaves this matrix unchanged. */
    method GetRotation(mathf: Mathf) returns (q: Quaternion)
      ensures q == Rotation(mathf, Value())
    {
      var matrix := new Matrix4x4.FromValue(Value());
      matrix.SetScale(mathf, One3);
      var result := CrossSum(matrix.Value());
      if ApproxEqual3(result, Zero3) {
        return Identity;
      }
      var trace := matrix.m00 + matrix.m11 + matrix.m22;
      var cosAngle := Clamp((trace - 1.0) / 2.0, -1.0, 1.0);
      var cosHalfAngle := mathf.sqrt((1.0 + cosAngle) / 2.0);
      var sinHalfAngle := mathf.sqrt((1.0 - cosAngle) / 2.0);
      var rotAxis := Scale3(Normalized3(mathf, result), -sinHalfAngle);
      q := NormalizedQuaternion(mathf, Quaternion(rotAxis.x, rotAxis.y, rotAxis.z, cosHalfAngle));
    }

    /** GetMatrixComponents: translation, rotation and scale of this matrix. */
    method GetMatrixComponents(mathf: Mathf) returns (t: Vector3, q: Quaternion, s: Vector3)
      ensures t == GetTranslation(Value())
      ensures q == Rotation(mathf, Value())
      ensures s == GetScale(mathf, Value())
    {
      t := GetTranslation(Value());
      q := GetRotation(mathf);
      s := GetScale(mathf, Value());
    }

    /** SetMatrixComponents: on a copy of this matrix, SetTranslation, then
        SetRotation, then SetScale; the copy is returned. */
    method SetMatrixComponents(mathf: Mathf, t: Vector3, q: Quaternion, s: Vector3) returns (r: Matrix4x4)
      ensures r.Value() == Compose(mathf, Value(), t, q, s)
      ensures fresh(r)
    {
      r := new Matrix4x4.FromValue(Value());
      r.SetTranslation(t);
      r.SetRotation(mathf, q);
      r.SetScale(mathf, s);
    }

    /** GetDeterminant: the rule of Sarrus on a scale-normalised local copy. */
    method GetDeterminant(mathf: Mathf) returns (d: real)
      ensures d == Determinant(mathf, Value())
    {
      var matrix := new Matrix4x4.FromValue(Value());
      matrix.SetScale(mathf, One3);
      var n := matrix.Value();
      d := DiagonalP(n, 0) + DiagonalP(n, 1) + DiagonalP(n, 2) - DiagonalR(n, 0) - DiagonalR(n, 1) - DiagonalR(n, 2);
    }
  }
}
