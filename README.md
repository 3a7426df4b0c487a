# chikage rotors, vectors and matrices in Dafny

This project models the 3D rotor of the chikage linear-algebra crate and the
vector and matrix types it is built from. It proves what the rotor promises:
- `identity` rotates nothing.
- `new(a, b)` turns by twice the angle from `a` to `b`.
- `new_exact(a, b)` turns `a` onto `b`.
- `inverted` undoes a rotation.
- `appended` composes two rotations.
- Unit rotors keep lengths.
- `rotation_mat` builds the homogeneous matrix of the rotation, and `appended` maps to the matrix product.
- The matrix of a unit rotor is orthogonal.
- The vector and matrix operators satisfy the usual algebraic laws: `+` commutes, scaling distributes over `+`, and the matrix product is associative.

Numbers are modelled as mathematical reals, so every identity holds exactly.
- A `...f64` or `...f32` value type is a `datatype` with pure functions.
- Each type's `&mut self` methods are methods of a `...Var` class holding its fields.
- Array-backed vectors keep an `array<real>`; matrices keep an `array2<real>` in row-major order.

Modules follow the source files:
- `Scalars` holds facts about real arithmetic and square roots.
- `Vec3f64`, `Vec4f64`, `Vec2f64`, `Vec3f32`, `Vec4f32`, `Vec2f32` are the vectors.
- `Mat4f64`, `Mat3f64`, `Mat2f64` are the matrices.
- `Rot3f64` holds the rotor and its class.
- `Rot3f64Laws` holds what it promises, and `Rot3f64Matrix` holds `rotation_mat`.
- `Rot3f64Identities`, `Rot3f64Steps`, `Rot3f64MatrixIdentities` and the `Mat*Identities` modules hold the polynomial identities behind those laws.

Where the code calls `sqrt`, the model takes the square root as an argument `mag`, with the requirement `IsRoot(x, mag)` (`mag >= 0` and `mag * mag == x`). A vector with magnitude `mag` is written `IsMagnitude(v, mag)` or `IsMag(v, mag)`.

## Model

| member | source | states |
|---|---|---|
| Rot3f64.NormSquaredSign | src/rot/rot3f64.rs:122 | the `mag_sqrd` of `normalize` is never negative and is zero exactly at the zero rotor |
| Rot3f64.Normalized | src/rot/rot3f64.rs:120-128 | dividing a non-zero rotor by the root of its squared norm gives a unit rotor |
| Rot3f64.BisectorIsUnit | src/rot/rot3f64.rs:59-62 | outside the nearly-opposite window, `a + b` is non-zero, `mag` is non-zero and `(a + b) / mag` is a unit vector |
| Rot3f64.OppositeDot | src/rot/rot3f64.rs:56-57 | if `a + b` is zero then `a·b` is minus `a`'s squared magnitude, which is the case the window tests for |
| Rot3f64.Rot3f64Var.constructor | src/rot/rot3f64.rs:3-11 | a rotor binding holds the given components |
| Rot3f64.Rot3f64Var.Invert | src/rot/rot3f64.rs:74-78 | after `invert` the rotor is the old one with its bivector negated |
| Rot3f64.Rot3f64Var.RotateVec | src/rot/rot3f64.rs:86-96 | after `rotate_vec` the vector is R v R~ of its old value; the four temporaries are the product R v |
| Rot3f64.Rot3f64Var.Append | src/rot/rot3f64.rs:106-118 | after `append(r)` the rotor is the product of its old value and `r`, all four components computed from the old ones |
| Rot3f64.Rot3f64Var.Normalize | src/rot/rot3f64.rs:120-128 | after `normalize` the rotor is the old one divided by `mag`, and it is a unit rotor |
| Rot3f64Laws.RightProductIsVectorPart | src/rot/rot3f64.rs:93-95 | the second half of `rotate_vec` is the vector part of (R v) R~ |
| Rot3f64Laws.TimesOfVector | src/rot/rot3f64.rs:88-91 | the first half of `rotate_vec` is the geometric product R v |
| Rot3f64Laws.SandwichIsVector | src/rot/rot3f64.rs:80-96 | R v R~ has no trivector part, so dropping `txyz` at the end loses nothing |
| Rot3f64Laws.AppendedRotation | src/rot/rot3f64.rs:98-118 | rotating by `a.appended(b)` is rotating by `b` and then by `a`, for every vector |
| Rot3f64Laws.IdentityRotatesNothing | src/rot/rot3f64.rs:14-22 | `identity()` maps every vector to itself |
| Rot3f64Laws.IdentityNeutral | src/rot/rot3f64.rs:14-22 | `identity()` appended on either side changes nothing |
| Rot3f64Laws.InvertedInvolution | src/rot/rot3f64.rs:67-78 | `inverted` twice gives the rotor back |
| Rot3f64Laws.InvertedKeepsNorm | src/rot/rot3f64.rs:67-78 | `inverted` keeps the squared norm |
| Rot3f64Laws.InvertedCancels | src/rot/rot3f64.rs:67-78 | a rotor appended to its inverse, in either order, is the scalar of its squared norm |
| Rot3f64Laws.InverseRoundTrip | src/rot/rot3f64.rs:67-96 | for a unit rotor, rotating by it and then by `inverted`, or the other way round, gives back every vector |
| Rot3f64Laws.NormalizedScalesBack | src/rot/rot3f64.rs:120-128 | `mag` is positive and the normalized rotor times `mag` is the rotor |
| Rot3f64Laws.NormalizeUnitIsNoop | src/rot/rot3f64.rs:120-128 | normalizing a unit rotor changes nothing |
| Rot3f64Laws.UnitRoot | src/rot/rot3f64.rs:123 | the only non-negative square root of 1 is 1 |
| Rot3f64Laws.UnitRotationPreservesLength | src/rot/rot3f64.rs:80-96 | a unit rotor keeps every vector's squared length |
| Rot3f64Laws.AppendedIsUnit | src/rot/rot3f64.rs:98-118 | appending unit rotors gives a unit rotor |
| Rot3f64Laws.VectorProductOfDuals | src/rot/rot3f64.rs:36-41 | the rotor `new` builds is the product of the bivectors dual to `b` and to `a` reversed |
| Rot3f64Laws.HalfTurnOfNegated | src/rot/rot3f64.rs:24-42 | a half turn about `-n` is the half turn about `n` |
| Rot3f64Laws.NegatedScale | src/rot/rot3f64.rs:24-42 | scaling `-n` by `-k` is scaling `n` by `k` |
| Rot3f64Laws.VectorProductTwoHalfTurns | src/rot/rot3f64.rs:24-42 | rotating by the rotor `new(a, b)` builds is a half turn about `a` followed by a half turn about `b`, that is twice the angle from `a` to `b` |
| Rot3f64Laws.HalfTurnFixesAxis | src/rot/rot3f64.rs:24-42 | a half turn about a unit vector leaves it where it is |
| Rot3f64Laws.HalfTurnOfOrthogonal | src/rot/rot3f64.rs:24-42 | a half turn about a unit vector negates every vector orthogonal to it |
| Rot3f64Laws.NewIsUnit | src/rot/rot3f64.rs:24-42 | `new` of two unit vectors is a unit rotor |
| Rot3f64Laws.NewExactIsUnit | src/rot/rot3f64.rs:44-65 | `new_exact` of two unit vectors is a unit rotor, in both branches |
| Rot3f64Laws.NewSelfIsIdentity | src/rot/rot3f64.rs:24-42 | `new(a, a)` is `identity()` |
| Rot3f64Laws.NewSwappedIsInverse | src/rot/rot3f64.rs:24-42 | `new(b, a)` is `new(a, b).inverted()` |
| Rot3f64Laws.BisectorDot | src/rot/rot3f64.rs:59-62 | the dot product of the bisector `(a + b) / mag` with `a` |
| Rot3f64Laws.BisectorProjection | src/rot/rot3f64.rs:59-62 | the bisector scaled by twice its projection on `a` is `a + b` |
| Rot3f64Laws.BisectorHalfTurn | src/rot/rot3f64.rs:59-64 | the half turn about the unit bisector of unit `a` and `b` takes `a` onto `b` |
| Rot3f64Laws.HalfTurnAboutUnit | src/rot/rot3f64.rs:59-64 | a half turn about a unit `n` is `2 (n·w) n - w` |
| Rot3f64Laws.HalfTurnToOther | src/rot/rot3f64.rs:59-64 | a half turn whose doubled projection of `a` is `a + b` takes `a` onto `b` |
| Rot3f64Laws.AddSubCancel | src/rot/rot3f64.rs:60 | `(a + b) - a` is `b` |
| Rot3f64Laws.SumOfSquaresOfSum | src/rot/rot3f64.rs:60-61 | the squared magnitude of `a + b` is `|a|² + 2 a·b + |b|²` |
| Rot3f64Laws.NewExactTurnsOnto | src/rot/rot3f64.rs:44-65 | outside the nearly-opposite window, `new_exact(a, b)` rotates `a` exactly onto `b` |
| Rot3f64Laws.NewExactTurnsOpposite | src/rot/rot3f64.rs:56-58 | inside the window, `new_exact(a, b)` rotates `a` onto `-a` |
| Rot3f64Laws.NewExactBranch | src/rot/rot3f64.rs:56-64 | inside the window `new_exact` builds `new(a, perp)`; outside it builds `new(a, bisector)`, with a non-zero `mag` and a unit bisector |
| Rot3f64Laws.NoRotationExample | src/rot/rot3f64.rs:150-161 | `new(e1, e1)` leaves (1, 1, 1) where it is |
| Rot3f64Laws.DoubleRotationFixExample | src/rot/rot3f64.rs:163-174 | `new_exact` of two orthogonal unit vectors turns the first onto the second, and `mag` is √2 |
| Rot3f64Laws.OrthogonalAxes | src/rot/rot3f64.rs:165-166 | e1 and e2 are orthogonal unit vectors and the squared magnitude of their sum is 2 |
| Rot3f64Laws.DoubleRotationFix180Example | src/rot/rot3f64.rs:176-187 | `new_exact(e1, -e1)` takes the perpendicular branch and turns e1 onto -e1 |
| Rot3f64Laws.AppendExample | src/rot/rot3f64.rs:189-201 | `new(e1, e2)` appended to itself is the rotor -1, and it leaves e1 where it is |
| Rot3f64Laws.HalfTurnAboutE3 | src/rot/rot3f64.rs:191-194 | `new(e1, e2)` is the rotor with `xy = -1` |
| Rot3f64Laws.FullTurn | src/rot/rot3f64.rs:195-197 | that rotor appended to itself is -1, which leaves every vector where it is |
| Rot3f64Laws.AppendedOrderCounterexample | src/rot/rot3f64.rs:98-104 | for two unit rotors `a` and `b`, rotating e1 by `a.appended(b)` does not give e1 rotated by `a` and then by `b` |
| Rot3f64Laws.AppendedSelfFirstRotation | src/rot/rot3f64.rs:98-99 | the product `r self` rotates by `self` first and then by `r`, as the doc comment of `appended` says |
| Rot3f64Matrix.AppliedX | src/rot/rot3f64.rs:130-143 | row 0 of `rotation_mat()` applied to `(v, t)` is the x component of the rotated `v` |
| Rot3f64Matrix.AppliedY | src/rot/rot3f64.rs:130-143 | row 1 applied to `(v, t)` is the y component of the rotated `v` |
| Rot3f64Matrix.AppliedZ | src/rot/rot3f64.rs:130-143 | row 2 applied to `(v, t)` is the z component of the rotated `v` |
| Rot3f64Matrix.RotationMatApplies | src/rot/rot3f64.rs:130-143 | `rotation_mat()` applied to the homogeneous `(v, t)` is `(rotated_vec(v), t)` |
| Rot3f64Matrix.RotationMatColumns | src/rot/rot3f64.rs:132-142 | columns 0 to 2 are the images of the three axes with a 0 appended, column 3 is (0, 0, 0, 1), and so is row 3 |
| Rot3f64Matrix.RotationMatOfIdentity | src/rot/rot3f64.rs:14-22 | the matrix of `identity()` is the identity matrix |
| Rot3f64Matrix.AppendedColumn | src/rot/rot3f64.rs:98-143 | each column of the matrix of `a.appended(b)` is that column of the product of the two matrices |
| Rot3f64Matrix.RotationMatOfAppended | src/rot/rot3f64.rs:98-143 | the matrix of `a.appended(b)` is the matrix of `a` times the matrix of `b` |
| Rot3f64Matrix.AxisImagesOrthogonalXY | src/rot/rot3f64.rs:80-96 | every rotor, unit or not, sends the x and y axes to perpendicular vectors |
| Rot3f64Matrix.AxisImagesOrthogonalXZ | src/rot/rot3f64.rs:80-96 | every rotor sends the x and z axes to perpendicular vectors |
| Rot3f64Matrix.AxisImagesOrthogonalYZ | src/rot/rot3f64.rs:80-96 | every rotor sends the y and z axes to perpendicular vectors |
| Rot3f64Matrix.RotationMatOrthonormal | src/rot/rot3f64.rs:132-142 | for a unit rotor the four columns of the matrix are pairwise perpendicular and each has squared length 1, so the matrix is orthogonal |
| Vec3f64.MagnitudeSquaredSign | src/vec/vec3f64.rs:31-33 | the radicand of `magnitude` is never negative and is zero exactly at the zero vector |
| Vec3f64.Cross | src/vec/vec3f64.rs:55-61 | `cross` is orthogonal to both of its arguments |
| Vec3f64.CrossAntisymmetric | src/vec/vec3f64.rs:55-61 | swapping the arguments of `cross` negates it |
| Vec3f64.CrossExample | src/vec/vec3f64.rs:200-207 | (2.5, 1.5, 0.5) × (3.2, 2.2, 1.1) is (0.55, -1.15, 0.7), which lies in the test's windows |
| Vec3f64.Div | src/vec/vec3f64.rs:128-136 | the quotient scaled back by the divisor is the vector |
| Vec3f64.Normalized | src/vec/vec3f64.rs:42-49 | `normalized` of a non-zero vector is a unit vector that scales back to the vector |
| Vec3f64.DotSymmetric | src/vec/vec3f64.rs:51-53 | `dot` is symmetric |
| Vec3f64.DotSelfIsMagnitudeSquared | src/vec/vec3f64.rs:31-53 | `v.dot(v)` is the radicand of `magnitude` |
| Vec3f64.ScaleCommutes | src/vec/vec3f64.rs:100-118 | `v * s` and `s * v` are equal |
| Vec3f64.AddSubInverse | src/vec/vec3f64.rs:64-90 | `(v + w) - w` is `v` |
| Vec3f64.AddCommutes | src/vec/vec3f64.rs:64-73 | `v + w` is `w + v` |
| Vec3f64.ScaleDistributes | src/vec/vec3f64.rs:64-109 | `(v + w) * s` is `v * s + w * s` |
| Vec3f64.OneExamples | src/vec/vec3f64.rs:150-197 | the source's tests of `+`, `-`, both products and `/` on `one()` |
| Vec3f64.Vec3f64Var.constructor | src/vec/vec3f64.rs:11-13 | a binding holds the given components |
| Vec3f64.Vec3f64Var.Normalize | src/vec/vec3f64.rs:35-40 | after `normalize` the vector is `normalized` of its old value |
| Vec3f64.Vec3f64Var.AddAssign | src/vec/vec3f64.rs:74-80 | after `+=` the vector is the old one plus `rhs` |
| Vec3f64.Vec3f64Var.SubAssign | src/vec/vec3f64.rs:92-98 | after `-=` the vector is the old one minus `rhs` |
| Vec3f64.Vec3f64Var.MulAssign | src/vec/vec3f64.rs:120-126 | after `*=` the vector is the old one scaled |
| Vec3f64.Vec3f64Var.DivAssign | src/vec/vec3f64.rs:138-144 | after `/=` the vector is the old one divided |
| Vec4f64.MagSquaredSign | src/vec/vec4f64.rs:32-36 | `mag_squared` is never negative and is zero exactly at the zero vector |
| Vec4f64.Div | src/vec/vec4f64.rs:133-143 | the quotient scaled back by the divisor is the vector |
| Vec4f64.Normed | src/vec/vec4f64.rs:45-49 | `normed` of a non-zero vector is a unit vector that scales back to the vector |
| Vec4f64.DotSymmetric | src/vec/vec4f64.rs:51-53 | `dot` is symmetric |
| Vec4f64.DotSelfIsMagSquared | src/vec/vec4f64.rs:32-53 | `v.dot(v)` is `mag_squared` |
| Vec4f64.ScaleCommutes | src/vec/vec4f64.rs:104-122 | `v * s` and `s * v` are equal |
| Vec4f64.AddSubInverse | src/vec/vec4f64.rs:70-96 | `(v + w) - w` is `v` |
| Vec4f64.AddCommutes | src/vec/vec4f64.rs:70-80 | `v + w` is `w + v` |
| Vec4f64.ScaleDistributes | src/vec/vec4f64.rs:70-123 | `(v + w) * s` is `v * s + w * s` |
| Vec4f64.DotExamples | src/vec/vec4f64.rs:179-248 | the source's tests of `dot` and `mag_squared` |
| Vec4f64.ScalarExamples | src/vec/vec4f64.rs:251-328 | the source's tests of both products and `/` |
| Vec4f64.AddSubExamples | src/vec/vec4f64.rs:331-361 | the source's tests of `+` and `-` |
| Vec4f64.Vec4f64Var.constructor | src/vec/vec4f64.rs:11-14 | a binding's array holds the given coordinates |
| Vec4f64.Vec4f64Var.Set | src/vec/vec4f64.rs:64-68 | `v[i] = x` changes coordinate `i` and no other |
| Vec4f64.Vec4f64Var.AddAssign | src/vec/vec4f64.rs:81-85 | after `+=` the vector is the old one plus `rhs` |
| Vec4f64.Vec4f64Var.SubAssign | src/vec/vec4f64.rs:98-102 | after `-=` the vector is the old one minus `rhs` |
| Vec4f64.Vec4f64Var.MulAssign | src/vec/vec4f64.rs:124-131 | after `*=` the vector is the old one scaled |
| Vec4f64.Vec4f64Var.DivAssign | src/vec/vec4f64.rs:145-152 | after `/=` the vector is the old one divided |
| Vec4f64.Vec4f64Var.Norm | src/vec/vec4f64.rs:38-43 | after `norm` the vector is `normed` of its old value, a unit vector |
| Vec2f64.MagSquaredSign | src/vec/vec2f64.rs:32-36 | `mag_squared` is never negative and is zero exactly at the zero vector |
| Vec2f64.Div | src/vec/vec2f64.rs:125-133 | the quotient scaled back by the divisor is the vector |
| Vec2f64.Normed | src/vec/vec2f64.rs:45-49 | `normed` of a non-zero vector is a unit vector that scales back to the vector |
| Vec2f64.DotSymmetric | src/vec/vec2f64.rs:51-53 | `dot` is symmetric |
| Vec2f64.DotSelfIsMagSquared | src/vec/vec2f64.rs:32-53 | `v.dot(v)` is `mag_squared` |
| Vec2f64.ScaleCommutes | src/vec/vec2f64.rs:100-116 | `v * s` and `s * v` are equal |
| Vec2f64.AddSubInverse | src/vec/vec2f64.rs:70-92 | `(v + w) - w` is `v` |
| Vec2f64.AddCommutes | src/vec/vec2f64.rs:70-78 | `v + w` is `w + v` |
| Vec2f64.ScaleDistributes | src/vec/vec2f64.rs:70-117 | `(v + w) * s` is `v * s + w * s` |
| Vec2f64.DotExamples | src/vec/vec2f64.rs:161-221 | the source's tests of `dot` and `mag_squared` |
| Vec2f64.ScalarExamples | src/vec/vec2f64.rs:223-279 | the source's tests of both products and `/` |
| Vec2f64.AddSubExamples | src/vec/vec2f64.rs:281-302 | the source's tests of `+` and `-` |
| Vec2f64.Vec2f64Var.constructor | src/vec/vec2f64.rs:11-14 | a binding's array holds the given coordinates |
| Vec2f64.Vec2f64Var.Set | src/vec/vec2f64.rs:64-68 | `v[i] = x` changes coordinate `i` and no other |
| Vec2f64.Vec2f64Var.AddAssign | src/vec/vec2f64.rs:79-83 | after `+=` the vector is the old one plus `rhs` |
| Vec2f64.Vec2f64Var.SubAssign | src/vec/vec2f64.rs:94-98 | after `-=` the vector is the old one minus `rhs` |
| Vec2f64.Vec2f64Var.MulAssign | src/vec/vec2f64.rs:118-123 | after `*=` the vector is the old one scaled |
| Vec2f64.Vec2f64Var.DivAssign | src/vec/vec2f64.rs:135-140 | after `/=` the vector is the old one divided |
| Vec2f64.Vec2f64Var.Norm | src/vec/vec2f64.rs:38-43 | after `norm` the vector is `normed` of its old value, a unit vector |
| Vec3f32.MagSquaredSign | src/vec/vec3f32.rs:32-36 | `mag_squared` is never negative and is zero exactly at the zero vector |
| Vec3f32.Cross | src/vec/vec3f32.rs:56-62 | `cross` is orthogonal to both of its arguments |
| Vec3f32.CrossAntisymmetric | src/vec/vec3f32.rs:56-62 | swapping the arguments of `cross` negates it |
| Vec3f32.CrossExample | src/vec/vec3f32.rs:340-347 | the source's test of `cross` |
| Vec3f32.Div | src/vec/vec3f32.rs:138-147 | the quotient scaled back by the divisor is the vector |
| Vec3f32.Normed | src/vec/vec3f32.rs:45-49 | `normed` of a non-zero vector is a unit vector that scales back to the vector |
| Vec3f32.DotSymmetric | src/vec/vec3f32.rs:51-54 | `dot` is symmetric |
| Vec3f32.DotSelfIsMagSquared | src/vec/vec3f32.rs:32-54 | `v.dot(v)` is `mag_squared` |
| Vec3f32.ScaleCommutes | src/vec/vec3f32.rs:111-128 | `v * s` and `s * v` are equal |
| Vec3f32.AddSubInverse | src/vec/vec3f32.rs:79-103 | `(v + w) - w` is `v` |
| Vec3f32.AddCommutes | src/vec/vec3f32.rs:79-88 | `v + w` is `w + v` |
| Vec3f32.ScaleDistributes | src/vec/vec3f32.rs:79-129 | `(v + w) * s` is `v * s + w * s` |
| Vec3f32.DotExamples | src/vec/vec3f32.rs:179-241 | the source's tests of `dot` and `mag_squared` |
| Vec3f32.ScalarExamples | src/vec/vec3f32.rs:243-310 | the source's tests of both products and `/` |
| Vec3f32.AddSubExamples | src/vec/vec3f32.rs:312-338 | the source's tests of `+` and `-` |
| Vec3f32.Vec3f32Var.constructor | src/vec/vec3f32.rs:11-14 | a binding's array holds the given coordinates |
| Vec3f32.Vec3f32Var.Set | src/vec/vec3f32.rs:73-77 | `v[i] = x` changes coordinate `i` and no other |
| Vec3f32.Vec3f32Var.AddAssign | src/vec/vec3f32.rs:89-93 | after `+=` the vector is the old one plus `rhs` |
| Vec3f32.Vec3f32Var.SubAssign | src/vec/vec3f32.rs:105-109 | after `-=` the vector is the old one minus `rhs` |
| Vec3f32.Vec3f32Var.MulAssign | src/vec/vec3f32.rs:130-136 | after `*=` the vector is the old one scaled |
| Vec3f32.Vec3f32Var.DivAssign | src/vec/vec3f32.rs:149-155 | after `/=` the vector is the old one divided |
| Vec3f32.Vec3f32Var.Norm | src/vec/vec3f32.rs:38-43 | after `norm` the vector is `normed` of its old value, a unit vector |
| Vec4f32.MagnitudeSquaredSign | src/vec/vec4f32.rs:38-40 | `magnitude_squared` is never negative and is zero exactly at the zero vector |
| Vec4f32.Div | src/vec/vec4f32.rs:136-145 | the quotient scaled back by the divisor is the vector |
| Vec4f32.Normalized | src/vec/vec4f32.rs:50-58 | `normalized` of a non-zero vector is a unit vector that scales back to the vector |
| Vec4f32.DotSymmetric | src/vec/vec4f32.rs:60-62 | `dot` is symmetric |
| Vec4f32.DotSelfIsMagnitudeSquared | src/vec/vec4f32.rs:38-62 | `v.dot(v)` is `magnitude_squared` |
| Vec4f32.ScaleCommutes | src/vec/vec4f32.rs:105-125 | `v * s` and `s * v` are equal |
| Vec4f32.AddSubInverse | src/vec/vec4f32.rs:65-94 | `(v + w) - w` is `v` |
| Vec4f32.AddCommutes | src/vec/vec4f32.rs:65-75 | `v + w` is `w + v` |
| Vec4f32.ScaleDistributes | src/vec/vec4f32.rs:65-115 | `(v + w) * s` is `v * s + w * s` |
| Vec4f32.OneExamples | src/vec/vec4f32.rs:161-215 | the source's tests of `+`, `-`, both products and `/` on `one()` |
| Vec4f32.Vec4f32Var.constructor | src/vec/vec4f32.rs:12-14 | a binding holds the given components |
| Vec4f32.Vec4f32Var.Normalize | src/vec/vec4f32.rs:42-48 | after `normalize` the vector is `normalized` of its old value |
| Vec4f32.Vec4f32Var.AddAssign | src/vec/vec4f32.rs:76-83 | after `+=` the vector is the old one plus `rhs` |
| Vec4f32.Vec4f32Var.SubAssign | src/vec/vec4f32.rs:96-103 | after `-=` the vector is the old one minus `rhs` |
| Vec4f32.Vec4f32Var.MulAssign | src/vec/vec4f32.rs:127-134 | after `*=` the vector is the old one scaled |
| Vec4f32.Vec4f32Var.DivAssign | src/vec/vec4f32.rs:147-154 | after `/=` the vector is the old one divided |
| Vec2f32.MagnitudeSquaredSign | src/vec/vec2f32.rs:26-28 | `magnitude_squared` is never negative and is zero exactly at the zero vector |
| Vec2f32.Div | src/vec/vec2f32.rs:106-113 | the quotient scaled back by the divisor is the vector |
| Vec2f32.Normalized | src/vec/vec2f32.rs:36-42 | `normalized` of a non-zero vector is a unit vector that scales back to the vector |
| Vec2f32.DotSymmetric | src/vec/vec2f32.rs:44-46 | `dot` is symmetric |
| Vec2f32.DotSelfIsMagnitudeSquared | src/vec/vec2f32.rs:26-46 | `v.dot(v)` is `magnitude_squared` |
| Vec2f32.ScaleCommutes | src/vec/vec2f32.rs:81-97 | `v * s` and `s * v` are equal |
| Vec2f32.AddSubInverse | src/vec/vec2f32.rs:49-72 | `(v + w) - w` is `v` |
| Vec2f32.AddCommutes | src/vec/vec2f32.rs:49-57 | `v + w` is `w + v` |
| Vec2f32.ScaleDistributes | src/vec/vec2f32.rs:49-89 | `(v + w) * s` is `v * s + w * s` |
| Vec2f32.OneExamples | src/vec/vec2f32.rs:127-165 | the source's tests of `+`, `-`, both products and `/` on `one()` |
| Vec2f32.Vec2f32Var.constructor | src/vec/vec2f32.rs:10-12 | a binding holds the given components |
| Vec2f32.Vec2f32Var.Normalize | src/vec/vec2f32.rs:30-34 | after `normalize` the vector is `normalized` of its old value |
| Vec2f32.Vec2f32Var.AddAssign | src/vec/vec2f32.rs:58-63 | after `+=` the vector is the old one plus `rhs` |
| Vec2f32.Vec2f32Var.SubAssign | src/vec/vec2f32.rs:74-79 | after `-=` the vector is the old one minus `rhs` |
| Vec2f32.Vec2f32Var.MulAssign | src/vec/vec2f32.rs:99-104 | after `*=` the vector is the old one scaled |
| Vec2f32.Vec2f32Var.DivAssign | src/vec/vec2f32.rs:115-120 | after `/=` the vector is the old one divided |
| Mat4f64.Div | src/mat/mat4f64.rs:188-209 | the quotient scaled back by the divisor is the matrix |
| Mat4f64.TransposedEntries | src/mat/mat4f64.rs:51-62 | entry (i, j) of `transposed()` is entry (j, i) |
| Mat4f64.TransposedInvolution | src/mat/mat4f64.rs:51-62 | transposing twice gives the matrix back |
| Mat4f64.NewFromColsColumns | src/mat/mat4f64.rs:21-25 | `cols[j][i]` is entry (i, j) of `new_from_cols(cols)` |
| Mat4f64.ColMajorRoundTrip | src/mat/mat4f64.rs:21-78 | `as_col_major` and `new_from_cols` are inverse to each other, both ways round |
| Mat4f64.RowMajorEntries | src/mat/mat4f64.rs:70-78 | `as_row_major` holds row i at index i, `as_col_major` column j at index j |
| Mat4f64.ProductEntry | src/mat/mat4f64.rs:217-248 | entry (i, j) of `a * b` is row i of `a` dotted with column j of `b` |
| Mat4f64.MulVecRows | src/mat/mat4f64.rs:256-266 | component i of `m * v` is row i of `m` dotted with `v` |
| Mat4f64.MulVecUnit | src/mat/mat4f64.rs:256-266 | `m` times the unit vector of axis j is column j of `m` |
| Mat4f64.ColumnsDetermine | src/mat/mat4f64.rs:10-12 | matrices with the same columns are equal |
| Mat4f64.MulVecOfProduct | src/mat/mat4f64.rs:217-266 | `(a * b) * v` is `a * (b * v)` |
| Mat4f64.TransposedOfProduct | src/mat/mat4f64.rs:51-62 | the transpose of `a * b` is the transpose of `b` times the transpose of `a` |
| Mat4f64.AddSubInverse | src/mat/mat4f64.rs:94-144 | `(m + k) - k` is `m` |
| Mat4f64.AddCommutes | src/mat/mat4f64.rs:94-115 | `+` is commutative |
| Mat4f64.ScaleDistributes | src/mat/mat4f64.rs:94-174 | `(m + k) * s` is `m * s + k * s` |
| Mat4f64.AssociativeColumn | src/mat/mat4f64.rs:217-248 | column j of `(a * b) * c` is column j of `a * (b * c)` |
| Mat4f64.MulAssociative | src/mat/mat4f64.rs:217-248 | `(a * b) * c` is `a * (b * c)` |
| Mat4f64.AddZero | src/mat/mat4f64.rs:27-37 | `zero()` is neutral for `+` |
| Mat4f64.IdentityLeft | src/mat/mat4f64.rs:39-49 | `identity() * m` is `m` |
| Mat4f64.IdentityRight | src/mat/mat4f64.rs:39-49 | `m * identity()` is `m` |
| Mat4f64.IdentityApplied | src/mat/mat4f64.rs:39-49 | `identity() * v` is `v` |
| Mat4f64.CreationExamples | src/mat/mat4f64.rs:275-450 | the source's tests of `new`, `new_from_cols`, `transposed`, `as_row_major` and `as_col_major` |
| Mat4f64.ArithmeticExamples | src/mat/mat4f64.rs:453-731 | the source's tests of `+`, `-`, both scalar products, `/`, the matrix product and the vector product |
| Mat4f64.Mat4f64Var.constructor | src/mat/mat4f64.rs:16-19 | a binding's entries are those of the given matrix |
| Mat4f64.Mat4f64Var.Store | src/mat/mat4f64.rs:66-68 | `*self = m` leaves `m` in the entries |
| Mat4f64.Mat4f64Var.SetEntry | src/mat/mat4f64.rs:88-92 | `m[i][j] = x` changes entry (i, j) and no other |
| Mat4f64.Mat4f64Var.Transpose | src/mat/mat4f64.rs:64-68 | after `transpose` the matrix is the transpose of its old value |
| Mat4f64.Mat4f64Var.AddAssign | src/mat/mat4f64.rs:117-121 | after `+=` the matrix is the old one plus `rhs` |
| Mat4f64.Mat4f64Var.SubAssign | src/mat/mat4f64.rs:146-150 | after `-=` the matrix is the old one minus `rhs` |
| Mat4f64.Mat4f64Var.MulAssign | src/mat/mat4f64.rs:182-186 | after `*= scalar` the matrix is the old one scaled |
| Mat4f64.Mat4f64Var.DivAssign | src/mat/mat4f64.rs:211-215 | after `/=` the matrix is the old one divided |
| Mat4f64.Mat4f64Var.MulAssignMat | src/mat/mat4f64.rs:250-254 | after `*= rhs` the matrix is the old one times `rhs` |
| Mat3f64.Div | src/mat/mat3f64.rs:156-170 | the quotient scaled back by the divisor is the matrix |
| Mat3f64.TransposedEntries | src/mat/mat3f64.rs:41-51 | entry (i, j) of `transposed()` is entry (j, i) |
| Mat3f64.TransposedInvolution | src/mat/mat3f64.rs:41-51 | transposing twice gives the matrix back |
| Mat3f64.NewFromColsColumns | src/mat/mat3f64.rs:21-25 | `cols[j][i]` is entry (i, j) of `new_from_cols(cols)` |
| Mat3f64.ColMajorRoundTrip | src/mat/mat3f64.rs:21-67 | `as_col_major` and `new_from_cols` are inverse to each other, both ways round |
| Mat3f64.RowMajorEntries | src/mat/mat3f64.rs:59-67 | `as_row_major` holds row i at index i, `as_col_major` column j at index j |
| Mat3f64.ProductEntry | src/mat/mat3f64.rs:178-200 | entry (i, j) of `a * b` is row i of `a` dotted with column j of `b` |
| Mat3f64.MulVecRows | src/mat/mat3f64.rs:208-217 | component i of `m * v` is row i of `m` dotted with `v` |
| Mat3f64.MulVecUnit | src/mat/mat3f64.rs:208-217 | `m` times the unit vector of axis j is column j of `m` |
| Mat3f64.ColumnsDetermine | src/mat/mat3f64.rs:10-12 | matrices with the same columns are equal |
| Mat3f64.MulVecOfProduct | src/mat/mat3f64.rs:178-217 | `(a * b) * v` is `a * (b * v)` |
| Mat3f64.TransposedOfProduct | src/mat/mat3f64.rs:41-51 | the transpose of `a * b` is the transpose of `b` times the transpose of `a` |
| Mat3f64.AddSubInverse | src/mat/mat3f64.rs:83-119 | `(m + k) - k` is `m` |
| Mat3f64.AddCommutes | src/mat/mat3f64.rs:83-97 | `+` is commutative |
| Mat3f64.ScaleDistributes | src/mat/mat3f64.rs:83-142 | `(m + k) * s` is `m * s + k * s` |
| Mat3f64.AssociativeColumn | src/mat/mat3f64.rs:178-200 | column j of `(a * b) * c` is column j of `a * (b * c)` |
| Mat3f64.MulAssociative | src/mat/mat3f64.rs:178-200 | `(a * b) * c` is `a * (b * c)` |
| Mat3f64.AddZero | src/mat/mat3f64.rs:27-32 | `zero()` is neutral for `+` |
| Mat3f64.IdentityLeft | src/mat/mat3f64.rs:34-39 | `identity() * m` is `m` |
| Mat3f64.IdentityRight | src/mat/mat3f64.rs:34-39 | `m * identity()` is `m` |
| Mat3f64.IdentityApplied | src/mat/mat3f64.rs:34-39 | `identity() * v` is `v` |
| Mat3f64.CreationExamples | src/mat/mat3f64.rs:226-326 | the source's tests of `new`, `new_from_cols`, `transposed`, `as_row_major` and `as_col_major` |
| Mat3f64.ArithmeticExamples | src/mat/mat3f64.rs:328-483 | the source's tests of `+`, `-`, both scalar products, `/`, the matrix product and the vector product |
| Mat3f64.Mat3f64Var.constructor | src/mat/mat3f64.rs:16-19 | a binding's entries are those of the given matrix |
| Mat3f64.Mat3f64Var.Store | src/mat/mat3f64.rs:55-57 | `*self = m` leaves `m` in the entries |
| Mat3f64.Mat3f64Var.SetEntry | src/mat/mat3f64.rs:77-81 | `m[i][j] = x` changes entry (i, j) and no other |
| Mat3f64.Mat3f64Var.Transpose | src/mat/mat3f64.rs:53-57 | after `transpose` the matrix is the transpose of its old value |
| Mat3f64.Mat3f64Var.AddAssign | src/mat/mat3f64.rs:99-103 | after `+=` the matrix is the old one plus `rhs` |
| Mat3f64.Mat3f64Var.SubAssign | src/mat/mat3f64.rs:121-125 | after `-=` the matrix is the old one minus `rhs` |
| Mat3f64.Mat3f64Var.MulAssign | src/mat/mat3f64.rs:150-154 | after `*= scalar` the matrix is the old one scaled |
| Mat3f64.Mat3f64Var.DivAssign | src/mat/mat3f64.rs:172-176 | after `/=` the matrix is the old one divided |
| Mat3f64.Mat3f64Var.MulAssignMat | src/mat/mat3f64.rs:202-206 | after `*= rhs` the matrix is the old one times `rhs` |
| Mat2f64.Div | src/mat/mat2f64.rs:135-144 | the quotient scaled back by the divisor is the matrix |
| Mat2f64.TransposedEntries | src/mat/mat2f64.rs:39-45 | entry (i, j) of `transposed()` is entry (j, i) |
| Mat2f64.TransposedInvolution | src/mat/mat2f64.rs:39-45 | transposing twice gives the matrix back |
| Mat2f64.NewFromColsColumns | src/mat/mat2f64.rs:19-23 | `cols[j][i]` is entry (i, j) of `new_from_cols(cols)` |
| Mat2f64.ColMajorRoundTrip | src/mat/mat2f64.rs:19-61 | `as_col_major` and `new_from_cols` are inverse to each other, both ways round |
| Mat2f64.RowMajorEntries | src/mat/mat2f64.rs:53-61 | `as_row_major` holds row i at index i, `as_col_major` column j at index j |
| Mat2f64.ProductEntry | src/mat/mat2f64.rs:152-166 | entry (i, j) of `a * b` is row i of `a` dotted with column j of `b` |
| Mat2f64.MulVecRows | src/mat/mat2f64.rs:174-182 | component i of `m * v` is row i of `m` dotted with `v` |
| Mat2f64.MulVecUnit | src/mat/mat2f64.rs:174-182 | `m` times the unit vector of axis j is column j of `m` |
| Mat2f64.ColumnsDetermine | src/mat/mat2f64.rs:8-10 | matrices with the same columns are equal |
| Mat2f64.MulVecOfProduct | src/mat/mat2f64.rs:152-182 | `(a * b) * v` is `a * (b * v)` |
| Mat2f64.TransposedOfProduct | src/mat/mat2f64.rs:39-45 | the transpose of `a * b` is the transpose of `b` times the transpose of `a` |
| Mat2f64.AddSubInverse | src/mat/mat2f64.rs:77-103 | `(m + k) - k` is `m` |
| Mat2f64.AddCommutes | src/mat/mat2f64.rs:77-86 | `+` is commutative |
| Mat2f64.ScaleDistributes | src/mat/mat2f64.rs:77-121 | `(m + k) * s` is `m * s + k * s` |
| Mat2f64.AssociativeColumn | src/mat/mat2f64.rs:152-166 | column j of `(a * b) * c` is column j of `a * (b * c)` |
| Mat2f64.MulAssociative | src/mat/mat2f64.rs:152-166 | `(a * b) * c` is `a * (b * c)` |
| Mat2f64.AddZero | src/mat/mat2f64.rs:25-30 | `zero()` is neutral for `+` |
| Mat2f64.IdentityLeft | src/mat/mat2f64.rs:32-37 | `identity() * m` is `m` |
| Mat2f64.IdentityRight | src/mat/mat2f64.rs:32-37 | `m * identity()` is `m` |
| Mat2f64.IdentityApplied | src/mat/mat2f64.rs:32-37 | `identity() * v` is `v` |
| Mat2f64.CreationExamples | src/mat/mat2f64.rs:191-251 | the source's tests of `new`, `new_from_cols`, `transposed`, `as_row_major` and `as_col_major` |
| Mat2f64.ArithmeticExamples | src/mat/mat2f64.rs:253-348 | the source's tests of `+`, `-`, both scalar products, `/`, the matrix product and the vector product |
| Mat2f64.Mat2f64Var.constructor | src/mat/mat2f64.rs:14-17 | a binding's entries are those of the given matrix |
| Mat2f64.Mat2f64Var.Store | src/mat/mat2f64.rs:49-51 | `*self = m` leaves `m` in the entries |
| Mat2f64.Mat2f64Var.SetEntry | src/mat/mat2f64.rs:71-75 | `m[i][j] = x` changes entry (i, j) and no other |
| Mat2f64.Mat2f64Var.Transpose | src/mat/mat2f64.rs:47-51 | after `transpose` the matrix is the transpose of its old value |
| Mat2f64.Mat2f64Var.AddAssign | src/mat/mat2f64.rs:88-92 | after `+=` the matrix is the old one plus `rhs` |
| Mat2f64.Mat2f64Var.SubAssign | src/mat/mat2f64.rs:105-109 | after `-=` the matrix is the old one minus `rhs` |
| Mat2f64.Mat2f64Var.MulAssign | src/mat/mat2f64.rs:129-133 | after `*= scalar` the matrix is the old one scaled |
| Mat2f64.Mat2f64Var.DivAssign | src/mat/mat2f64.rs:146-150 | after `/=` the matrix is the old one divided |
| Mat2f64.Mat2f64Var.MulAssignMat | src/mat/mat2f64.rs:168-172 | after `*= rhs` the matrix is the old one times `rhs` |

## Left out

- Floating point: `f64` and `f32` are modelled as exact reals. Rounding, NaN and infinities are not modelled.
  - A zero vector or rotor, which the source normalizes to NaN, is excluded by a `requires`.
  - A zero divisor is excluded by a `requires`.
  - The `f32` types differ from the `f64` ones only in name.
- `sqrt`: `mag`, `magnitude`, `norm`, `normed`, `normalize` and `normalized` receive the root as an argument `mag`, with `requires IsRoot(..., mag)`. The model proves facts about it, such as `mag > 0`, but does not compute it.
- The test tolerances (`(0.9999..1.0001).contains(..)`) become exact equalities. The examples hold exactly over the reals.
- The debug-only unit-length assertions of `new` and `new_exact` become `requires` that the squared magnitudes are 1.
  - Exact 1 is stronger than the 0.999..1.001 window the source accepts.
  - The assertion is compiled out of release builds.
- `Vec3f64::perpendicular`, which `new_exact` calls at src/rot/rot3f64.rs:58, is not defined in src/vec/vec3f64.rs. `Rot3f64.NewExact` receives its value as an argument `perp`, assumed to be a unit vector orthogonal to `a`.
- `rotation_mat` calls `Vec4f64::new` with four numbers and `Mat4f64::new_row_major`, neither of which src/vec/vec4f64.rs or src/mat/mat4f64.rs defines. It is modelled as the matrix whose rows are those four vectors, as the name says.
- src/lib.rs declares no `rot` module, so src/rot/rot3f64.rs is not compiled as shipped. It is modelled as if it were.
- src/mat/mat3f64.rs uses an array-backed `Vec3f64` (`Vec3f64::new([..])`, `v[0]`), but the `Vec3f64` in src/vec/vec3f64.rs has named fields. `Mat3f64.MulVec` uses the named-field one, with indices 0, 1, 2 meaning x, y, z.
- The binary operators that take `mut self` and return it (`+`, `-`, `*`, `/`) are pure functions. The mutated copy is invisible to the caller.
  - `rotated_vec`, `inverted` and `appended`, which run `rotate_vec`, `invert` and `append` on a copy, are likewise functions.
  - Each of those three has a method in `Rot3f64.Rot3f64Var`.
- Vec4f64.Vec4f64Var.MulAssign, DivAssign, AddAssign and SubAssign (and their Vec2f64 and Vec3f32 counterparts) store the new coordinates in one parallel assignment rather than one by one. No component reads another, so the result is the same.
- Mat4f64.Mat4f64Var.Transpose (and the other matrix `...Assign` methods) is written as `Store` of the new value, as the source assigns `*self` whole. The source's `+=` and `-=` forward to `+` and `-` in the same way.
- `Index` and `IndexMut` panic for an index past the end. The model requires the index to be in range, in `Index`, `Set` and `SetEntry`.
- `Debug`, `Clone`, `Copy`, `PartialEq`, `PartialOrd` and the serde and bitcode derives are not modelled. `PartialEq` is Dafny's equality on datatypes.
- Rot3f64.NewExact carries no `ensures` of its own. What it returns is stated by `Rot3f64Laws.NewExactBranch`, `NewExactIsUnit`, `NewExactTurnsOnto` and `NewExactTurnsOpposite`.
- Rot3f64.Rot3f64Var.RotateVec works on a separate `Vec3f64Var`, so aliasing between the rotor and the vector, which Rust's borrow rules forbid, does not arise.

## Findings

| source | as written | input that shows it | evidently intended | confidence | as-written member | corrected member |
|---|---|---|---|---|---|---|
| src/rot/rot3f64.rs:98-104 | `a.appended(r)` is the product `a r`, which rotates by `r` first and by `a` second | `a = (0.6, 0.8, 0, 0)`, `r = (0.6, 0, 0.8, 0)`, vector e1: `a.appended(r)` gives (-0.28, -0.96, 0), while rotating by `a` and then by `r` gives (-0.28, 0.2688, 0.9216) | the doc comment says "First self then r", which is the product `r a` | not executed; the doc comment rather than the code may be what is wrong | Rot3f64Laws.AppendedOrderCounterexample | Rot3f64Laws.AppendedSelfFirstRotation |

The rest of the model keeps the code's order. `Rot3f64.Appended` and `Rot3f64.Rot3f64Var.Append` compute `self r`, as the code does, and `Rot3f64Laws.AppendedRotation` states the order that follows. `Rot3f64Laws.AppendedSelfFirst` is the documented combination.
