/**
 * Unity's small value types as the transform code uses them: Vector3, Vector4
 * and Quaternion, with the operators and normalisations of their library
 * definitions written out over the reals.
 */
module Vectors {
  import opened Numerics

  datatype Vector3 = Vector3(x: real, y: real, z: real)
  datatype Vector4 = Vector4(x: real, y: real, z: real, w: real)
  /** Fields in Unity's order: vector part x, y, z, then the scalar part w. */
  datatype Quaternion = Quaternion(x: real, y: real, z: real, w: real)

  const Zero3 := Vector3(0.0, 0.0, 0.0)
  const One3 := Vector3(1.0, 1.0, 1.0)
  /** The world axes Vector3.right, Vector3.up and Vector3.forward. */
  const Right := Vector3(1.0, 0.0, 0.0)
  const Up := Vector3(0.0, 1.0, 0.0)
  const Forward := Vector3(0.0, 0.0, 1.0)
  const Zero4 := Vector4(0.0, 0.0, 0.0, 0.0)
  /** Quaternion.identity */
  const Identity := Quaternion(0.0, 0.0, 0.0, 1.0)

  /** Vector3.kEpsilon and Vector4.kEpsilon. */
  const VectorEpsilon: real := 0.00001
  /** Mathf.Epsilon: the smallest positive single-precision float. */
  const FloatEpsilon: real := 1.401298e-45

  // ---------------------------------------------------------------- Vector3

  function Add3(a: Vector3, b: Vector3): Vector3 {
    Vector3(a.x + b.x, a.y + b.y, a.z + b.z)
  }

  function Sub3(a: Vector3, b: Vector3): Vector3 {
    Vector3(a.x - b.x, a.y - b.y, a.z - b.z)
  }

  /** `v * d` (and `d * v`) */
  function Scale3(v: Vector3, d: real): Vector3 {
    Vector3(v.x * d, v.y * d, v.z * d)
  }

  function Div3(v: Vector3, d: real): Vector3
    requires d != 0.0
  {
    Vector3(v.x / d, v.y / d, v.z / d)
  }

  function Dot3(a: Vector3, b: Vector3): real {
    a.x * b.x + a.y * b.y + a.z * b.z
  }

  /** Vector3.Cross */
  function Cross(a: Vector3, b: Vector3): Vector3 {
    Vector3(a.y * b.z - a.z * b.y, a.z * b.x - a.x * b.z, a.x * b.y - a.y * b.x)
  }

  function SqrMagnitude3(v: Vector3): real {
    Dot3(v, v)
  }

  function Magnitude3(mathf: Mathf, v: Vector3): real {
    mathf.sqrt(SqrMagnitude3(v))
  }

  /** Vector3.normalized: the vector divided by its length, or zero when the
      length is not above kEpsilon. */
  function Normalized3(mathf: Mathf, v: Vector3): Vector3 {
    var mag := Magnitude3(mathf, v);
    if mag > VectorEpsilon then Div3(v, mag) else Zero3
  }

  /** Unity's `Vector3 ==`: a tolerance test, true when the squared distance is
      below kEpsilon squared (not exact equality). */
  predicate ApproxEqual3(a: Vector3, b: Vector3) {
    SqrMagnitude3(Sub3(a, b)) < VectorEpsilon * VectorEpsilon
  }

  // ---------------------------------------------------------------- Vector4

  /** `v * d` */
  function Scale4(v: Vector4, d: real): Vector4 {
    Vector4(v.x * d, v.y * d, v.z * d, v.w * d)
  }

  function Div4(v: Vector4, d: real): Vector4
    requires d != 0.0
  {
    Vector4(v.x / d, v.y / d, v.z / d, v.w / d)
  }

  function Dot4(a: Vector4, b: Vector4): real {
    a.x * b.x + a.y * b.y + a.z * b.z + a.w * b.w
  }

  /** Vector4.magnitude: the length of all four components. */
  function Magnitude4(mathf: Mathf, v: Vector4): real {
    mathf.sqrt(Dot4(v, v))
  }

  /** Vector4.normalized: all four components divided by the 4-length, or zero
      when that length is not above kEpsilon. */
  function Normalized4(mathf: Mathf, v: Vector4): Vector4 {
    var mag := Magnitude4(mathf, v);
    if mag > VectorEpsilon then Div4(v, mag) else Zero4
  }

  /** The implicit conversion Vector4 -> Vector3 drops w. */
  function ToVector3(v: Vector4): Vector3 {
    Vector3(v.x, v.y, v.z)
  }

  /** The implicit conversion Vector3 -> Vector4 sets w to 0. */
  function ToVector4(v: Vector3): Vector4 {
    Vector4(v.x, v.y, v.z, 0.0)
  }

  // ------------------------------------------------------------- Quaternion

  function Dot(a: Quaternion, b: Quaternion): real {
    a.x * b.x + a.y * b.y + a.z * b.z + a.w * b.w
  }

  predicate IsUnit(q: Quaternion) {
    Dot(q, q) == 1.0
  }

  /** `lhs * rhs`: the Hamilton product. */
  function Mul(lhs: Quaternion, rhs: Quaternion): Quaternion {
    Quaternion(
      lhs.w * rhs.x + lhs.x * rhs.w + lhs.y * rhs.z - lhs.z * rhs.y,
      lhs.w * rhs.y + lhs.y * rhs.w + lhs.z * rhs.x - lhs.x * rhs.z,
      lhs.w * rhs.z + lhs.z * rhs.w + lhs.x * rhs.y - lhs.y * rhs.x,
      lhs.w * rhs.w - lhs.x * rhs.x - lhs.y * rhs.y - lhs.z * rhs.z)
  }

  /** The nine doubled products of the quaternion's components that Unity's
      `rotation * point` formula is built from. */
  datatype RotationProducts = RotationProducts(
    xx: real, yy: real, zz: real, xy: real, xz: real, yz: real, wx: real, wy: real, wz: real)

  function Products(rotation: Quaternion): RotationProducts {
    var x, y, z := rotation.x * 2.0, rotation.y * 2.0, rotation.z * 2.0;
    RotationProducts(
      rotation.x * x, rotation.y * y, rotation.z * z,
      rotation.x * y, rotation.x * z, rotation.y * z,
      rotation.w * x, rotation.w * y, rotation.w * z)
  }

  /** `rotation * point`: the point multiplied by the rotation matrix of the
      quaternion (the matrix is a rotation when the quaternion is a unit). */
  function Rotate(rotation: Quaternion, point: Vector3): Vector3 {
    RotateWith(Products(rotation), point)
  }

  /** The rotation matrix written over the nine products, applied to a point. */
  function RotateWith(p: RotationProducts, point: Vector3): Vector3 {
    Vector3(
      (1.0 - (p.yy + p.zz)) * point.x + (p.xy - p.wz) * point.y + (p.xz + p.wy) * point.z,
      (p.xy + p.wz) * point.x + (1.0 - (p.xx + p.zz)) * point.y + (p.yz - p.wx) * point.z,
      (p.xz - p.wy) * point.x + (p.yz + p.wx) * point.y + (1.0 - (p.xx + p.yy)) * point.z)
  }

  /** RotateWith, row by row. */
  lemma RotateWithRows(p: RotationProducts, point: Vector3)
    ensures RotateWith(p, point).x == (1.0 - (p.yy + p.zz)) * point.x + (p.xy - p.wz) * point.y + (p.xz + p.wy) * point.z
    ensures RotateWith(p, point).y == (p.xy + p.wz) * point.x + (1.0 - (p.xx + p.zz)) * point.y + (p.yz - p.wx) * point.z
    ensures RotateWith(p, point).z == (p.xz - p.wy) * point.x + (p.yz + p.wx) * point.y + (1.0 - (p.xx + p.yy)) * point.z
  {
  }

  /** Equal factors give equal products. */
  lemma MulCongruence(a: real, a': real, b: real, b': real)
    requires a == a' && b == b'
    ensures a * b == a' * b'
  {
  }

  /** Quaternion.normalized: the quaternion divided by its length, or the
      identity when that length is below Mathf.Epsilon. */
  function NormalizedQuaternion(mathf: Mathf, q: Quaternion): Quaternion {
    var mag := mathf.sqrt(Dot(q, q));
    if mag < FloatEpsilon then Identity
    else Quaternion(q.x / mag, q.y / mag, q.z / mag, q.w / mag)
  }

  // ----------------------------------------------------------------- lemmas

  /** Quaternion.normalized always yields a unit quaternion. */
  lemma NormalizedQuaternionIsUnit(mathf: Mathf, q: Quaternion)
    requires SqrtLaws(mathf)
    ensures IsUnit(NormalizedQuaternion(mathf, q))
  {
    var d := Dot(q, q);
    SumOfSquaresIsNonNegative(q.x, q.y, q.z, q.w);
    var mag := mathf.sqrt(d);
    assert 0.0 <= mag && mag * mag == d;
    if mag >= FloatEpsilon {
      var k := 1.0 / mag;
      DivIsMulByInverse(q.x, mag);
      DivIsMulByInverse(q.y, mag);
      DivIsMulByInverse(q.z, mag);
      DivIsMulByInverse(q.w, mag);
      var r := Quaternion(q.x * k, q.y * k, q.z * k, q.w * k);
      assert r == NormalizedQuaternion(mathf, q);
      ScaledSquares(q.x, q.y, q.z, q.w, k);
      UnitAfterScaling(d, mag);
    }
  }

  lemma SumOfSquaresIsNonNegative(a: real, b: real, c: real, e: real)
    ensures 0.0 <= a * a + b * b + c * c + e * e
  {
    assert 0.0 <= a * a && 0.0 <= b * b && 0.0 <= c * c && 0.0 <= e * e;
  }

  lemma DivIsMulByInverse(a: real, m: real)
    requires m != 0.0
    ensures a / m == a * (1.0 / m)
  {
  }

  /** Scaling four components by k scales their sum of squares by k^2. */
  lemma ScaledSquares(a: real, b: real, c: real, e: real, k: real)
    ensures a * k * (a * k) + b * k * (b * k) + c * k * (c * k) + e * k * (e * k)
         == k * k * (a * a + b * b + c * c + e * e)
  {
    assert a * k * (a * k) == k * k * (a * a);
    assert b * k * (b * k) == k * k * (b * b);
    assert c * k * (c * k) == k * k * (c * c);
    assert e * k * (e * k) == k * k * (e * e);
  }

  /** Dividing by the root of d, squared, gives d / d = 1. */
  lemma UnitAfterScaling(d: real, mag: real)
    requires 0.0 < mag && mag * mag == d
    ensures (1.0 / mag) * (1.0 / mag) * d == 1.0
  {
    var k := 1.0 / mag;
    assert mag * k == 1.0;
    calc {
      k * k * d;
      k * k * (mag * mag);
      (mag * k) * (mag * k);
      1.0;
    }
  }

  /** Normalising a 4-vector that already has length 1 leaves it unchanged. */
  lemma NormalizedUnit4(mathf: Mathf, v: Vector4)
    requires SqrtLaws(mathf)
    requires Dot4(v, v) == 1.0
    ensures Normalized4(mathf, v) == v
  {
    SqrtOne(mathf);
  }

  /** A unit 4-vector scaled by s >= 0 has length s. */
  lemma MagnitudeOfScaledUnit4(mathf: Mathf, v: Vector4, s: real)
    requires SqrtLaws(mathf)
    requires Dot4(v, v) == 1.0 && 0.0 <= s
    ensures Magnitude4(mathf, Scale4(v, s)) == s
  {
    var u := Scale4(v, s);
    calc {
      Dot4(u, u);
      v.x * s * (v.x * s) + v.y * s * (v.y * s) + v.z * s * (v.z * s) + v.w * s * (v.w * s);
      { assert v.x * s * (v.x * s) == s * s * (v.x * v.x);
        assert v.y * s * (v.y * s) == s * s * (v.y * v.y);
        assert v.z * s * (v.z * s) == s * s * (v.z * v.z);
        assert v.w * s * (v.w * s) == s * s * (v.w * v.w); }
      s * s * Dot4(v, v);
      s * s;
    }
    SqrtOfSquare(mathf, s);
  }

  /** A unit quaternion maps each world axis to a vector of length 1 (a column
      of its rotation matrix). */
  lemma RotatedAxesAreUnit(q: Quaternion)
    requires IsUnit(q)
    ensures SqrMagnitude3(Rotate(q, Right)) == 1.0
    ensures SqrMagnitude3(Rotate(q, Up)) == 1.0
    ensures SqrMagnitude3(Rotate(q, Forward)) == 1.0
  {
    RotatedRightIsUnit(q);
    RotatedUpIsUnit(q);
    RotatedForwardIsUnit(q);
  }

  lemma RotatedRightIsUnit(q: Quaternion)
    requires IsUnit(q)
    ensures SqrMagnitude3(Rotate(q, Right)) == 1.0
  {
    RightImage(q);
    RightColumnIsUnit(q, Rotate(q, Right));
  }

  lemma RotatedUpIsUnit(q: Quaternion)
    requires IsUnit(q)
    ensures SqrMagnitude3(Rotate(q, Up)) == 1.0
  {
    UpImage(q);
    UpColumnIsUnit(q, Rotate(q, Up));
  }

  lemma RotatedForwardIsUnit(q: Quaternion)
    requires IsUnit(q)
    ensures SqrMagnitude3(Rotate(q, Forward)) == 1.0
  {
    ForwardImage(q);
    ForwardColumnIsUnit(q, Rotate(q, Forward));
  }

  lemma RightColumnIsUnit(q: Quaternion, r: Vector3)
    requires IsUnit(q)
    requires r == Vector3(1.0 - 2.0 * (q.y * q.y + q.z * q.z), 2.0 * (q.x * q.y + q.w * q.z), 2.0 * (q.x * q.z - q.w * q.y))
    ensures SqrMagnitude3(r) == 1.0
  {
    AxisImageIsUnit(q.x, q.w, q.y, q.z, q.y * q.y + q.z * q.z, q.x * q.y + q.w * q.z, q.x * q.z - q.w * q.y);
    SqrMagnitudeOf(r, 1.0 - 2.0 * (q.y * q.y + q.z * q.z), 2.0 * (q.x * q.y + q.w * q.z), 2.0 * (q.x * q.z - q.w * q.y));
  }

  lemma UpColumnIsUnit(q: Quaternion, u: Vector3)
    requires IsUnit(q)
    requires u == Vector3(2.0 * (q.y * q.x - q.w * q.z), 1.0 - 2.0 * (q.z * q.z + q.x * q.x), 2.0 * (q.y * q.z + q.w * q.x))
    ensures SqrMagnitude3(u) == 1.0
  {
    AxisImageIsUnit(q.y, q.w, q.z, q.x, q.z * q.z + q.x * q.x, q.y * q.z + q.w * q.x, q.y * q.x - q.w * q.z);
    SqrMagnitudeOf(u, 2.0 * (q.y * q.x - q.w * q.z), 1.0 - 2.0 * (q.z * q.z + q.x * q.x), 2.0 * (q.y * q.z + q.w * q.x));
  }

  lemma ForwardColumnIsUnit(q: Quaternion, f: Vector3)
    requires IsUnit(q)
    requires f == Vector3(2.0 * (q.z * q.x + q.w * q.y), 2.0 * (q.z * q.y - q.w * q.x), 1.0 - 2.0 * (q.x * q.x + q.y * q.y))
    ensures SqrMagnitude3(f) == 1.0
  {
    AxisImageIsUnit(q.z, q.w, q.x, q.y, q.x * q.x + q.y * q.y, q.z * q.x + q.w * q.y, q.z * q.y - q.w * q.x);
    SqrMagnitudeOf(f, 2.0 * (q.z * q.x + q.w * q.y), 2.0 * (q.z * q.y - q.w * q.x), 1.0 - 2.0 * (q.x * q.x + q.y * q.y));
  }

  lemma SqrMagnitudeOf(v: Vector3, a: real, b: real, c: real)
    requires v == Vector3(a, b, c)
    ensures SqrMagnitude3(v) == a * a + b * b + c * c
  {
  }

  /** The nine products written as doubled monomials. */
  lemma ProductsExpanded(q: Quaternion)
    ensures Products(q) == RotationProducts(
      2.0 * (q.x * q.x), 2.0 * (q.y * q.y), 2.0 * (q.z * q.z),
      2.0 * (q.x * q.y), 2.0 * (q.x * q.z), 2.0 * (q.y * q.z),
      2.0 * (q.w * q.x), 2.0 * (q.w * q.y), 2.0 * (q.w * q.z))
  {
  }

  /** The first column of the rotation matrix. */
  lemma RightImage(q: Quaternion)
    ensures Rotate(q, Right) == Vector3(1.0 - 2.0 * (q.y * q.y + q.z * q.z), 2.0 * (q.x * q.y + q.w * q.z), 2.0 * (q.x * q.z - q.w * q.y))
  {
    ProductsExpanded(q);
  }

  /** The second column of the rotation matrix. */
  lemma UpImage(q: Quaternion)
    ensures Rotate(q, Up) == Vector3(2.0 * (q.y * q.x - q.w * q.z), 1.0 - 2.0 * (q.z * q.z + q.x * q.x), 2.0 * (q.y * q.z + q.w * q.x))
  {
    ProductsExpanded(q);
  }

  /** The third column of the rotation matrix. */
  lemma ForwardImage(q: Quaternion)
    ensures Rotate(q, Forward) == Vector3(2.0 * (q.z * q.x + q.w * q.y), 2.0 * (q.z * q.y - q.w * q.x), 1.0 - 2.0 * (q.x * q.x + q.y * q.y))
  {
    ProductsExpanded(q);
  }

  /** The two-square identity (ac + bd)^2 + (ad - bc)^2 = (a^2 + b^2)(c^2 + d^2). */
  lemma TwoSquares(a: real, b: real, c: real, d: real)
    ensures (a * c + b * d) * (a * c + b * d) + (a * d - b * c) * (a * d - b * c)
         == (a * a + b * b) * (c * c + d * d)
  {
    calc {
      (a * c + b * d) * (a * c + b * d) + (a * d - b * c) * (a * d - b * c);
      (a * c) * (a * c) + 2.0 * (a * c) * (b * d) + (b * d) * (b * d)
        + (a * d) * (a * d) - 2.0 * (a * d) * (b * c) + (b * c) * (b * c);
      { assert (a * c) * (b * d) == (a * d) * (b * c); }
      (a * c) * (a * c) + (b * d) * (b * d) + (a * d) * (a * d) + (b * c) * (b * c);
      (a * a + b * b) * (c * c + d * d);
    }
  }

  /** The algebra behind RotatedAxesAreUnit: for a unit quaternion (a, b, c, d)
      the axis image (1 - 2s, 2u, 2v), with s = c^2 + d^2, u = ac + bd and
      v = ad - bc, has length 1, since u^2 + v^2 = s(1 - s). */
  lemma AxisImageIsUnit(a: real, b: real, c: real, d: real, s: real, u: real, v: real)
    requires a * a + b * b + c * c + d * d == 1.0
    requires s == c * c + d * d && u == a * c + b * d && v == a * d - b * c
    ensures (1.0 - 2.0 * s) * (1.0 - 2.0 * s) + (2.0 * u) * (2.0 * u) + (2.0 * v) * (2.0 * v) == 1.0
  {
    var rest := a * a + b * b;
    TwoSquares(a, b, c, d);
    assert u * u + v * v == rest * s;
    assert rest == 1.0 - s;
    assert (1.0 - 2.0 * s) * (1.0 - 2.0 * s) == 1.0 - 4.0 * s + 4.0 * (s * s);
    assert (2.0 * u) * (2.0 * u) + (2.0 * v) * (2.0 * v) == 4.0 * (u * u + v * v);
    assert rest * s == (1.0 - s) * s;
  }
}
