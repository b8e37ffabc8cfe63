# Transform interpolation over Unity matrices, in Dafny

This project models the transform-math core of `Assets/Scripts/VectorMath.cs`.
A `VectorMath` component holds two transform matrices `A` and `B`, a time in
[0, 1] and three flags (translation, rotation, scaling). `ComputeMatrix`
takes each matrix apart into a translation, a rotation and a scale, blends each
component whose flag is on, and rebuilds a matrix on the identity from the
blended components.

The file has two parts, and the model has a module for each:

- `MatrixExtensions` (`matrix_extensions.dfy`) covers the extension methods of
  `MatrixExtentionMethods`: Get/Set of translation, scale and rotation,
  Get/SetMatrixComponents, GetDeterminant with its diagonal helpers, and the
  quaternion helpers Eigen, Inverse and InverseFull.
  - `Matrix4x4` is a struct that the setters change through `ref this`, so it
    is modelled as a class with the sixteen entries as fields.
  - Its methods are proved against functions on the value type `Mat4`.
  - The methods that work on a local copy (GetRotation, GetDeterminant,
    SetMatrixComponents) allocate a fresh `Matrix4x4` and change only that
    copy.
- `TransformInterpolation` (`vector_math.dfy`) covers the `VectorMath` class
  itself: `InterpolateVector`, `InterpolateQuaternion` and `ComputeMatrix`.

Two supporting modules hold the Unity library the core calls:

- `Numerics` (`numerics.dfy`) models `Mathf` over the reals.
  - Clamp and PI are given their definitions.
  - Sqrt, Acos, Sin and Cos are the fields of a `Mathf` value that every
    operation takes as a parameter.
  - A lemma that relies on them states the laws it uses (`SqrtLaws`,
    `TrigLaws`) as a precondition.
- `Vectors` (`vectors.dfy`) models Vector3, Vector4 and Quaternion by their
  definitions in Unity:
  - `normalized` returns zero at or below a length of 1e-5.
  - Quaternion normalisation returns the identity below `Mathf.Epsilon`.
  - Vector3 `==` is Unity's tolerance test (squared distance below 1e-10).
  - Quaternion products follow Unity's operand order, and `q * v` follows
    Unity's rotation formula.

Three behaviours of the code are stated as lemmas:

- The rotation blend turns along the shortest arc, and its result is the
  negated quaternion of that rotation. The relative rotation `b * a.Inverse()`
  has scalar part -(a . b); it is negated when that part is positive, so it
  becomes -|a . b| (`FlippedRelativeScalar`). The angle `PI - acos(-|a . b|)`
  is then acos(|a . b|), half the shortest angle between a and b, and the
  quaternion built from it is minus the shortest-arc rotation. Blending a
  rotation with itself yields its negation, the same rotation
  (`InterpolateQuaternionSelf`).
- GetRotation reports the identity for every matrix whose scale-normalised
  upper-left block is symmetric (`RotationOfSymmetricBlock`). Every half-turn,
  about any axis, has such a block, so every half-turn written by SetRotation
  is read back as the identity (`RotationOfHalfTurn`); diagonal blocks such as
  diag(1, -1, -1) are one case (`RotationOfAxisAligned`). ComputeMatrix
  therefore cannot carry a half-turn of A or B into its result.
- GetDeterminant is the determinant of the scale-normalised block, not of the
  matrix. `DeterminantTimesScale` gives the exact relation, and after
  SetRotation with a unit quaternion it is 1 (`DeterminantOfRotation`).

## Model

| member | source | states |
|---|---|---|
| Numerics.Clamp | Assets/Scripts/VectorMath.cs:185 | a value below min gives min, a value above max (and not below min) gives max, a value in range is returned unchanged, and for min <= max the result lies in [min, max] |
| Numerics.SqrtOfSquare | Assets/Scripts/VectorMath.cs:186-187 | under the square-root law, the root of x*x is x for x >= 0 (used to compute lengths of unit and zero columns) |
| Vectors.NormalizedQuaternionIsUnit | Assets/Scripts/VectorMath.cs:190-196 | the `.normalized` applied to the half-angle quaternion always yields a unit quaternion (identity below the epsilon) |
| Vectors.RotatedAxesAreUnit | Assets/Scripts/VectorMath.cs:215-217 | a unit quaternion maps right, up and forward to unit vectors |
| MatrixExtensions.WithColumn | Assets/Scripts/VectorMath.cs:201-203 | SetColumn on the value: column i becomes v and every other column is unchanged |
| MatrixExtensions.Column | Assets/Scripts/VectorMath.cs:175 | GetColumn: the four entries of column i, row 0 to row 3 (no contract; WithColumn states its meaning) |
| MatrixExtensions.Matrix4x4.FromValue | Assets/Scripts/VectorMath.cs:177-179 | the copy a by-value struct parameter makes: the new matrix holds exactly the given value |
| MatrixExtensions.Matrix4x4.SetColumn | Assets/Scripts/VectorMath.cs:201-203 | writes column i of the matrix in place, and the new value is WithColumn of the old one |
| MatrixExtensions.GetTranslation | Assets/Scripts/VectorMath.cs:175 | the translation is the entries m03, m13, m23 of column 3 (w dropped) |
| MatrixExtensions.WithTranslation | Assets/Scripts/VectorMath.cs:209-210 | column 3 becomes (t, 1), GetTranslation gives back t, and columns 0-2 are unchanged |
| MatrixExtensions.Matrix4x4.SetTranslation | Assets/Scripts/VectorMath.cs:209-210 | changes the matrix in place to WithTranslation of its old value, after which GetTranslation reads t |
| MatrixExtensions.WithScale | Assets/Scripts/VectorMath.cs:199-204 | SetScale never touches column 3 |
| MatrixExtensions.Matrix4x4.SetScale | Assets/Scripts/VectorMath.cs:199-204 | changes the matrix in place to WithScale of its old value; column 3 is kept |
| MatrixExtensions.GetScale | Assets/Scripts/VectorMath.cs:206 | the 4-lengths of columns 0-2, row 3 included (no contract; ScaleIsNonNegative, ScaleRoundTrip and SetRotationKeepsScale state its properties) |
| MatrixExtensions.ScaleIsNonNegative | Assets/Scripts/VectorMath.cs:206 | every GetScale component is a length, hence >= 0 |
| MatrixExtensions.NormalizedIsUnit4 | Assets/Scripts/VectorMath.cs:201-203 | a column longer than the threshold normalises to 4-length 1 |
| MatrixExtensions.ScaledColumnLength | Assets/Scripts/VectorMath.cs:201-203 | after SetScale a column's length is its scale component, or 0 when the column was too short to normalise |
| MatrixExtensions.ScaleRoundTrip | Assets/Scripts/VectorMath.cs:199-206 | GetScale after SetScale(s), s >= 0, returns s on every axis whose column could be normalised and 0 on the others |
| MatrixExtensions.WithRotation | Assets/Scripts/VectorMath.cs:212-218 | SetRotation on the value: column i becomes world axis i turned by the quaternion, times the old GetScale component i, with w = 0; column 3 is kept |
| MatrixExtensions.Matrix4x4.SetRotation | Assets/Scripts/VectorMath.cs:212-218 | changes the matrix in place to WithRotation of its old value; column 3 is kept |
| MatrixExtensions.RotatedColumnLength | Assets/Scripts/VectorMath.cs:215-217 | a rotated unit axis times s >= 0 has length s |
| MatrixExtensions.SetRotationKeepsScale | Assets/Scripts/VectorMath.cs:212-218 | with a unit quaternion, GetScale after SetRotation equals GetScale before it |
| MatrixExtensions.CrossSum | Assets/Scripts/VectorMath.cs:180-182 | the summed cross products are the axial vector (m12 - m21, m20 - m02, m01 - m10) of the block |
| MatrixExtensions.Rotation | Assets/Scripts/VectorMath.cs:177-197 | GetRotation on the value: NormalizedRotation of the SetScale(one) copy (no contract; RotationIsUnit and RotationOfSymmetricBlock state its properties) |
| MatrixExtensions.NormalizedRotation | Assets/Scripts/VectorMath.cs:180-196 | the identity when the summed cross products are within Unity's tolerance of zero, otherwise the normalised half-angle quaternion (no contract; NormalizedRotationIsUnit states its property) |
| MatrixExtensions.HalfAngleQuaternion | Assets/Scripts/VectorMath.cs:184-195 | the quaternion (axis * -sin(half angle), cos(half angle)) before normalising (no contract; HalfAngleIsUnit states its property) |
| MatrixExtensions.HalfAngleIsUnit | Assets/Scripts/VectorMath.cs:184-196 | when the summed cross products are longer than 1e-5 the half-angle quaternion is already a unit, so `.normalized` does not change it |
| MatrixExtensions.RotationIsUnit | Assets/Scripts/VectorMath.cs:177-197 | GetRotation always returns a unit quaternion |
| MatrixExtensions.NormalizedRotationIsUnit | Assets/Scripts/VectorMath.cs:183-196 | both exits of GetRotation after SetScale(one), the identity and the normalised half-angle quaternion, are unit quaternions |
| MatrixExtensions.RotationOfSymmetricBlock | Assets/Scripts/VectorMath.cs:179-183 | GetRotation is the identity whenever the scale-normalised block is symmetric |
| MatrixExtensions.RotationOfAxisAligned | Assets/Scripts/VectorMath.cs:179-183 | GetRotation is the identity for every matrix with a diagonal upper-left block, half-turns such as diag(1, -1, -1) included |
| MatrixExtensions.RotationOfHalfTurn | Assets/Scripts/VectorMath.cs:177-218 | every half-turn (unit q with w = 0, any axis) written by SetRotation on a normalisable matrix is read back by GetRotation as the identity |
| MatrixExtensions.NormalizedRotationColumns | Assets/Scripts/VectorMath.cs:199-218 | after SetRotation with a unit q on a normalisable matrix, the SetScale(one) copy has the rotated world axes as columns 0-2 |
| MatrixExtensions.Matrix4x4.GetRotation | Assets/Scripts/VectorMath.cs:177-197 | computes on a local copy the rotation the specification function Rotation gives, and leaves the matrix unchanged |
| MatrixExtensions.Matrix4x4.GetMatrixComponents | Assets/Scripts/VectorMath.cs:220-225 | returns exactly GetTranslation, Rotation and GetScale of the matrix |
| MatrixExtensions.Compose | Assets/Scripts/VectorMath.cs:227-233 | SetMatrixComponents leaves column 3 equal to (t, 1), so GetTranslation reads t, whatever the rotation and scale |
| MatrixExtensions.Matrix4x4.SetMatrixComponents | Assets/Scripts/VectorMath.cs:227-233 | returns a freshly allocated matrix (the by-value struct copy) equal to Compose of this one; this one is unchanged |
| MatrixExtensions.ComposeRoundTrip | Assets/Scripts/VectorMath.cs:220-233 | decomposing a recomposed matrix (normalisable columns, unit rotation, scale >= 0) gives back the translation and the scale put in |
| MatrixExtensions.ComposeColumns | Assets/Scripts/VectorMath.cs:227-233 | on a normalisable base with a unit q, column i of the rebuilt matrix is world axis i turned by q times scale component i (w = 0) |
| MatrixExtensions.IdentityIsNonDegenerate | Assets/Scripts/VectorMath.cs:47 | the identity that ComputeMatrix recomposes on has scale one and normalisable columns |
| MatrixExtensions.DiagonalP | Assets/Scripts/VectorMath.cs:242-251 | the positive diagonal products, and 1 for any shift outside 0..2 |
| MatrixExtensions.DiagonalR | Assets/Scripts/VectorMath.cs:253-262 | the negative diagonal products, and 1 for any shift outside 0..2 |
| MatrixExtensions.Determinant | Assets/Scripts/VectorMath.cs:235-240 | the rule of Sarrus on the scale-normalised copy equals that copy's cofactor-expansion determinant |
| MatrixExtensions.Matrix4x4.GetDeterminant | Assets/Scripts/VectorMath.cs:235-240 | computes Determinant of the matrix on a local copy and leaves the matrix unchanged |
| MatrixExtensions.DeterminantIgnoresColumn3 | Assets/Scripts/VectorMath.cs:235-240 | changing the translation column does not change GetDeterminant |
| MatrixExtensions.DeterminantOfIdentity | Assets/Scripts/VectorMath.cs:235-240 | GetDeterminant of the identity is 1 |
| MatrixExtensions.DeterminantOfRotation | Assets/Scripts/VectorMath.cs:212-240 | GetDeterminant after SetRotation with a unit quaternion on a normalisable matrix is 1 |
| MatrixExtensions.RotationBlockDeterminant | Assets/Scripts/VectorMath.cs:215-217 | the block of Unity's rotation matrix of a unit quaternion has cofactor determinant 1 |
| MatrixExtensions.DeterminantOfDegenerate | Assets/Scripts/VectorMath.cs:237 | GetDeterminant is 0 when a column is too short to normalise |
| MatrixExtensions.DeterminantTimesScale | Assets/Scripts/VectorMath.cs:235-240 | for a matrix whose columns can be normalised, the true block determinant equals scale.x * scale.y * scale.z times GetDeterminant |
| MatrixExtensions.NormalizedColumnsTimesScale | Assets/Scripts/VectorMath.cs:237 | each entry of a normalisable column is its normalised entry times the column length |
| MatrixExtensions.Eigen | Assets/Scripts/VectorMath.cs:264 | the vector part (x, y, z) of the quaternion (no contract; EigenIsFixed states that it is the rotation axis) |
| MatrixExtensions.EigenIsFixed | Assets/Scripts/VectorMath.cs:264 | the vector part Eigen returns is the rotation axis: rotating it by the quaternion leaves it fixed |
| MatrixExtensions.Inverse | Assets/Scripts/VectorMath.cs:266-272 | keeps x, y, z and negates w; q times Inverse(q) is (0, 0, 0, -|q|^2), so -identity for a unit q |
| MatrixExtensions.InverseIsInvolution | Assets/Scripts/VectorMath.cs:266-272 | Inverse applied twice gives q back |
| MatrixExtensions.InverseFull | Assets/Scripts/VectorMath.cs:274-280 | the negation keeps the norm, and its dot product with q is -|q|^2 |
| MatrixExtensions.InverseFullIsInvolution | Assets/Scripts/VectorMath.cs:274-280 | InverseFull applied twice gives q back |
| MatrixExtensions.InverseFullSameRotation | Assets/Scripts/VectorMath.cs:274-280 | InverseFull(q) rotates every vector exactly as q does |
| MatrixExtensions.WithRotationOfInverseFull | Assets/Scripts/VectorMath.cs:212-218 | SetRotation with InverseFull(q) writes the same matrix as with q |
| MatrixExtensions.ComposeOfInverseFull | Assets/Scripts/VectorMath.cs:227-233 | SetMatrixComponents with InverseFull(q) gives the same matrix as with q |
| TransformInterpolation.InterpolateVector | Assets/Scripts/VectorMath.cs:52 | the blend is a when the flag is off or time is 0, b at time 1 with the flag on, and a when a == b |
| TransformInterpolation.InterpolateVectorIsBetween | Assets/Scripts/VectorMath.cs:52 | for a time in [0, 1] each blended component lies between the components of a and b |
| TransformInterpolation.FlippedRelative | Assets/Scripts/VectorMath.cs:58-62 | the relative rotation b * a.Inverse() is negated exactly when its w is positive and kept otherwise (w = 0 included), so the result has w <= 0 |
| TransformInterpolation.FlippedRelativeScalar | Assets/Scripts/VectorMath.cs:58-62 | the scalar part after the flip is -abs(a . b), so the blend angle PI - acos(c.w) is half the shortest angle between a and b |
| TransformInterpolation.FlipSameRotation | Assets/Scripts/VectorMath.cs:58-62 | the flip does not change the rotation the relative quaternion performs |
| TransformInterpolation.InterpolateQuaternion | Assets/Scripts/VectorMath.cs:54-74 | the result is a when the flag is off or time is 0, and b at time 1 |
| TransformInterpolation.InterpolateQuaternionSelf | Assets/Scripts/VectorMath.cs:54-74 | blending a unit quaternion with itself gives a at the gated and end points, and InverseFull(a) (the same rotation) at any other time |
| TransformInterpolation.Interpolated | Assets/Scripts/VectorMath.cs:47-50 | the recomposed matrix's translation is the blended translation, and its column 3 has w = 1 |
| TransformInterpolation.Recomposed | Assets/Scripts/VectorMath.cs:47-50 | the identity rebuilt from A's components keeps A's translation |
| TransformInterpolation.RecomposedComponents | Assets/Scripts/VectorMath.cs:47-50 | the identity rebuilt from A's components keeps A's scale, and its columns 0-2 are the world axes turned by A's decomposed rotation times A's scale |
| TransformInterpolation.InterpolatedAtStart | Assets/Scripts/VectorMath.cs:47-56 | at time 0, whatever the flags, the result is A rebuilt from its own components |
| TransformInterpolation.InterpolatedAtEnd | Assets/Scripts/VectorMath.cs:47-57 | at time 1 with every flag on, the result is B rebuilt from its own components |
| TransformInterpolation.InterpolatedGatedOff | Assets/Scripts/VectorMath.cs:47-56 | with every flag off, at any time, the result is A rebuilt from its own components |
| TransformInterpolation.InterpolatedSelf | Assets/Scripts/VectorMath.cs:47-74 | interpolating A with itself gives A rebuilt from its components, at every time and for every choice of flags |
| TransformInterpolation.BlendSelf | Assets/Scripts/VectorMath.cs:47-74 | blending any components with themselves and recomposing gives the matrix of the unblended components |
| TransformInterpolation.InterpolatedScale | Assets/Scripts/VectorMath.cs:47-52 | for time in [0, 1], when the rotation put in is one of the decomposed rotations, the scale read back is the blended scale |
| TransformInterpolation.VectorMath.constructor | Assets/Scripts/VectorMath.cs:9-13 | the serialised defaults: zero matrices, time 0, every flag off |
| TransformInterpolation.VectorMath.ComputeMatrix | Assets/Scripts/VectorMath.cs:47-50 | returns a freshly allocated matrix (the by-value struct result) equal to Interpolated of A, B, time and the flags; A and B are unchanged |

## Left out

- `Update`, `OnEnable`, the renderer and the `VectorMathEditor` class are left out. They draw the result and edit A and B through scene handles, which is I/O and not part of the transform math.
- The output field `C` is left out. It is only the place `Update` stores the result of `ComputeMatrix` before drawing it.
- `Matrix4x4.MultiplyVector` is left out. Only the drawing code in `Update` uses it.
- Floating point is left out. All arithmetic is on the reals, so single-precision rounding, overflow and NaN are not modelled. The constants (1e-5, `Mathf.Epsilon`, `Mathf.PI` as the nearest float to pi) are kept.
- Mathf.Sqrt, Acos, Sin and Cos are uninterpreted. Only the laws a lemma names in its requires are assumed: a non-negative square root whose square is its argument, acos(-1) = PI, sin 0 = 0 and cos 0 = 1.
- The correctness of the angle computation in InterpolateQuaternion is not stated, because it uses Mathf.Acos, Sin and Cos, which are uninterpreted here.
- The Unity library types (Vector3, Vector4, Quaternion, Matrix4x4.GetColumn/SetColumn) are not part of this model beyond the definitions in `vectors.dfy` and the column accessors.
- MatrixExtensions.Matrix4x4.GetRotation: no lemma says that the quaternion returned represents the rotation part of the matrix. Reading back, with GetRotation, a rotation written by SetRotation away from the half-turns is not stated; GetRotation uses only Clamp and Mathf.Sqrt, so that read-back is within reach of the square-root law but is left out of this model. Proved are unit length (`RotationIsUnit`), the identity cases, and that every half-turn is read back as the identity (`RotationOfHalfTurn`).
- TransformInterpolation.InterpolateQuaternion: the blended quaternion is not shown to have unit length, and it is not shown to be minus the shortest-arc rotation at the given time. Only the scalar part behind that reading is proved (`FlippedRelativeScalar`). Both need the trigonometric identities.
- TransformInterpolation.InterpolatedScale: the scale round trip is proved only when the rotation put in is one of the two decomposed (unit) rotations. Away from the end points, the blended quaternion's length depends on the trigonometric functions.
- The `[Range(0, 1)]` bound on `Time` is an editor hint, not a check, so `ComputeMatrix` accepts any time. The lemmas that need the bound state it.
