/** The fragment of glm that the viewer uses, over exact reals.

    Matrices are stored column-major, as glm stores them: `c0` is `m[0]`,
    the first column. Multiplication, the mat3/mat4 conversions and lookAt
    follow glm's definitions. The routines that need transcendental
    functions or square roots (radians, normalize, the rotation matrix of
    `glm::rotate`, `glm::perspective`) and the mat3 inverse are taken as
    given functions, collected in `GlmOps`. */
module Glm {

  datatype Option<T> = None | Some(value: T)

  datatype Vec2 = Vec2(x: real, y: real)
  datatype Vec3 = Vec3(x: real, y: real, z: real)
  datatype Vec4 = Vec4(x: real, y: real, z: real, w: real)

  /** glm::mat3: three columns. */
  datatype Mat3 = Mat3(c0: Vec3, c1: Vec3, c2: Vec3)
  /** glm::mat4: four columns; `c3` is the translation column. */
  datatype Mat4 = Mat4(c0: Vec4, c1: Vec4, c2: Vec4, c3: Vec4)

  /** The glm routines taken as given.
      - `radians(d)`: glm::radians, degrees to radians.
      - `normalize(v)`: glm::normalize.
      - `inverse3(m)`: glm::inverse on a mat3.
      - `rotation(a, v)`: the 3x3 rotation by angle `a` about axis `v` that
        glm::rotate builds and multiplies onto its matrix argument.
      - `perspective(fovy, aspect, near, far)`: glm::perspective. */
  datatype GlmOps = GlmOps(
    radians: real -> real,
    normalize: Vec3 -> Vec3,
    inverse3: Mat3 -> Mat3,
    rotation: (real, Vec3) -> Mat3,
    perspective: (real, real, real, real) -> Mat4)

  const Zero3 := Vec3(0.0, 0.0, 0.0)

  function Add3(a: Vec3, b: Vec3): (r: Vec3) { Vec3(a.x + b.x, a.y + b.y, a.z + b.z) }
  function Sub3(a: Vec3, b: Vec3): (r: Vec3) { Vec3(a.x - b.x, a.y - b.y, a.z - b.z) }
  function Neg3(a: Vec3): (r: Vec3) { Vec3(-a.x, -a.y, -a.z) }
  function Scale3(a: Vec3, s: real): (r: Vec3) { Vec3(a.x * s, a.y * s, a.z * s) }

  /** vec3 / float, component by component. */
  function Div3(a: Vec3, s: real): (r: Vec3)
    requires s != 0.0
  {
    Vec3(a.x / s, a.y / s, a.z / s)
  }

  function Dot3(a: Vec3, b: Vec3): (r: real) { a.x * b.x + a.y * b.y + a.z * b.z }

  function Cross(a: Vec3, b: Vec3): (r: Vec3)
  {
    Vec3(a.y * b.z - b.y * a.z, a.z * b.x - b.z * a.x, a.x * b.y - b.x * a.y)
  }

  function Scale4(a: Vec4, s: real): (r: Vec4) { Vec4(a.x * s, a.y * s, a.z * s, a.w * s) }

  /** glm::vec3(v) for a vec4 `v`: drops the fourth component. */
  function Xyz(v: Vec4): (r: Vec3) { Vec3(v.x, v.y, v.z) }

  /** glm::mat3(s): `s` on the diagonal. */
  function Scalar3(s: real): (r: Mat3)
  {
    Mat3(Vec3(s, 0.0, 0.0), Vec3(0.0, s, 0.0), Vec3(0.0, 0.0, s))
  }

  function Identity3(): (r: Mat3) { Scalar3(1.0) }

  function Identity4(): (r: Mat4)
  {
    Mat4(Vec4(1.0, 0.0, 0.0, 0.0), Vec4(0.0, 1.0, 0.0, 0.0),
         Vec4(0.0, 0.0, 1.0, 0.0), Vec4(0.0, 0.0, 0.0, 1.0))
  }

  /** Unary minus on a mat3. */
  function NegMat3(m: Mat3): (r: Mat3) { Mat3(Neg3(m.c0), Neg3(m.c1), Neg3(m.c2)) }

  /** The rows of a mat3. */
  function Row0(m: Mat3): (r: Vec3) { Vec3(m.c0.x, m.c1.x, m.c2.x) }
  function Row1(m: Mat3): (r: Vec3) { Vec3(m.c0.y, m.c1.y, m.c2.y) }
  function Row2(m: Mat3): (r: Vec3) { Vec3(m.c0.z, m.c1.z, m.c2.z) }

  /** m * v: component i is row i of `m` dotted with `v`. */
  function MulVec3(m: Mat3, v: Vec3): (r: Vec3)
  {
    Vec3(Dot3(Row0(m), v), Dot3(Row1(m), v), Dot3(Row2(m), v))
  }

  /** a * b: column j of the product is a * (column j of b). */
  function Mul3(a: Mat3, b: Mat3): (r: Mat3)
  {
    Mat3(MulVec3(a, b.c0), MulVec3(a, b.c1), MulVec3(a, b.c2))
  }

  function MulVec4(m: Mat4, v: Vec4): (r: Vec4)
  {
    Vec4(m.c0.x * v.x + m.c1.x * v.y + m.c2.x * v.z + m.c3.x * v.w,
         m.c0.y * v.x + m.c1.y * v.y + m.c2.y * v.z + m.c3.y * v.w,
         m.c0.z * v.x + m.c1.z * v.y + m.c2.z * v.z + m.c3.z * v.w,
         m.c0.w * v.x + m.c1.w * v.y + m.c2.w * v.z + m.c3.w * v.w)
  }

  function Mul4(a: Mat4, b: Mat4): (r: Mat4)
  {
    Mat4(MulVec4(a, b.c0), MulVec4(a, b.c1), MulVec4(a, b.c2), MulVec4(a, b.c3))
  }

  /** glm::mat3(m) for a mat4 `m`: the upper-left 3x3 block. */
  function Mat3Of(m: Mat4): (r: Mat3) { Mat3(Xyz(m.c0), Xyz(m.c1), Xyz(m.c2)) }

  /** glm::mat4(m) for a mat3 `m`: `m` in the upper-left block, 1 in the corner. */
  function Mat4Of(m: Mat3): (r: Mat4)
  {
    Mat4(Vec4(m.c0.x, m.c0.y, m.c0.z, 0.0), Vec4(m.c1.x, m.c1.y, m.c1.z, 0.0),
         Vec4(m.c2.x, m.c2.y, m.c2.z, 0.0), Vec4(0.0, 0.0, 0.0, 1.0))
  }

  /** glm::rotate(m, angle, axis) == m * mat4(rotation(angle, axis)). */
  function Rotate(ops: GlmOps, m: Mat4, angle: real, axis: Vec3): (r: Mat4)
  {
    Mul4(m, Mat4Of(ops.rotation(angle, axis)))
  }

  /** glm::lookAt in its right-handed (default) form. */
  function LookAt(ops: GlmOps, eye: Vec3, center: Vec3, up: Vec3): (r: Mat4)
  {
    var f := ops.normalize(Sub3(center, eye));
    var s := ops.normalize(Cross(f, up));
    LookAtFrame(eye, f, s)
  }

  /** The matrix lookAt builds from the eye point, the unit forward
      direction `f` and the unit side direction `s`. */
  function LookAtFrame(eye: Vec3, f: Vec3, s: Vec3): (r: Mat4)
  {
    var u := Cross(s, f);
    Mat4(Vec4(s.x, u.x, -f.x, 0.0), Vec4(s.y, u.y, -f.y, 0.0),
         Vec4(s.z, u.z, -f.z, 0.0), Vec4(-Dot3(s, eye), -Dot3(u, eye), Dot3(f, eye), 1.0))
  }

  /** lookAt at arguments where normalize is known. */
  lemma LookAtIsFrame(ops: GlmOps, eye: Vec3, center: Vec3, up: Vec3, f: Vec3, s: Vec3)
    requires ops.normalize(Sub3(center, eye)) == f
    requires ops.normalize(Cross(f, up)) == s
    ensures LookAt(ops, eye, center, up) == LookAtFrame(eye, f, s)
  {
  }

  /** Multiplying by mat4(r) acts on the upper-left block only and keeps the
      translation column. */
  lemma MulMat4OfBlock(m: Mat4, r: Mat3)
    ensures Mat3Of(Mul4(m, Mat4Of(r))) == Mul3(Mat3Of(m), r)
    ensures Mul4(m, Mat4Of(r)).c3 == m.c3
  {
  }

  /** Multiplying by the first and second unit vectors picks out the first
      and second columns. */
  lemma ColumnOfProduct(m: Mat3)
    ensures MulVec3(m, Vec3(1.0, 0.0, 0.0)) == m.c0
    ensures MulVec3(m, Vec3(0.0, 1.0, 0.0)) == m.c1
  {
  }

  /** One row of a * (b * v) against (a * b) * v. */
  lemma RowAssoc(row: Vec3, b: Mat3, v: Vec3)
    ensures Dot3(row, MulVec3(b, v)) == Dot3(Vec3(Dot3(row, b.c0), Dot3(row, b.c1), Dot3(row, b.c2)), v)
  {
  }

  /** Matrix-vector products associate. */
  lemma MulVec3Assoc(a: Mat3, b: Mat3, v: Vec3)
    ensures MulVec3(a, MulVec3(b, v)) == MulVec3(Mul3(a, b), v)
  {
    RowAssoc(Row0(a), b, v);
    RowAssoc(Row1(a), b, v);
    RowAssoc(Row2(a), b, v);
  }

  /** The first three columns scaled by `s`, the translation column kept. */
  function ScaleBlock(m: Mat4, s: real): (r: Mat4)
  {
    Mat4(Scale4(m.c0, s), Scale4(m.c1, s), Scale4(m.c2, s), m.c3)
  }

  /** m * mat4(mat3(s)) scales the first three columns of `m` by `s`. */
  lemma MulScalarBlock(m: Mat4, s: real)
    ensures Mul4(m, Mat4Of(Scalar3(s))) == ScaleBlock(m, s)
  {
    assert MulVec4(m, Vec4(s, 0.0, 0.0, 0.0)) == Scale4(m.c0, s);
    assert MulVec4(m, Vec4(0.0, s, 0.0, 0.0)) == Scale4(m.c1, s);
    assert MulVec4(m, Vec4(0.0, 0.0, s, 0.0)) == Scale4(m.c2, s);
    assert MulVec4(m, Vec4(0.0, 0.0, 0.0, 1.0)) == m.c3;
  }
}
