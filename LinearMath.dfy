/** The vector, matrix and rigid-transform algebra the convex cast is written
    against. Scalars are reals: rounding is not modelled. A matrix is stored as
    three rows, as Bullet's 3x3 matrix is. */
module LinearMath {

  datatype Vec3 = Vec3(x: real, y: real, z: real)

  const Zero := Vec3(0.0, 0.0, 0.0)

  function Add(a: Vec3, b: Vec3): Vec3 {
    Vec3(a.x + b.x, a.y + b.y, a.z + b.z)
  }

  function Sub(a: Vec3, b: Vec3): Vec3 {
    Vec3(a.x - b.x, a.y - b.y, a.z - b.z)
  }

  function Neg(a: Vec3): Vec3 {
    Vec3(-a.x, -a.y, -a.z)
  }

  function Scale(k: real, a: Vec3): Vec3 {
    Vec3(k * a.x, k * a.y, k * a.z)
  }

  function Dot(a: Vec3, b: Vec3): real {
    a.x * b.x + a.y * b.y + a.z * b.z
  }

  /** Squared length. */
  function Length2(a: Vec3): real
  {
    Dot(a, a)
  }

  /** A 3x3 matrix given by its rows. */
  datatype Mat3 = Mat3(row0: Vec3, row1: Vec3, row2: Vec3)

  function Column0(m: Mat3): Vec3 { Vec3(m.row0.x, m.row1.x, m.row2.x) }
  function Column1(m: Mat3): Vec3 { Vec3(m.row0.y, m.row1.y, m.row2.y) }
  function Column2(m: Mat3): Vec3 { Vec3(m.row0.z, m.row1.z, m.row2.z) }

  function Transpose(m: Mat3): Mat3 {
    Mat3(Column0(m), Column1(m), Column2(m))
  }

  /** The matrix applied to a column vector: m * v. */
  function MulMatVec(m: Mat3, v: Vec3): Vec3 {
    Vec3(Dot(m.row0, v), Dot(m.row1, v), Dot(m.row2, v))
  }

  /** A row vector times the matrix: v * m, that is, the transposed matrix
      applied to v. This is how a world direction is turned into a local one. */
  function MulVecMat(v: Vec3, m: Mat3): Vec3 {
    Vec3(Dot(Column0(m), v), Dot(Column1(m), v), Dot(Column2(m), v))
  }

  function MulMat(a: Mat3, b: Mat3): Mat3 {
    Mat3(MulVecMat(a.row0, b), MulVecMat(a.row1, b), MulVecMat(a.row2, b))
  }

  /** A rigid transform: rotate by `basis`, then translate by `origin`. */
  datatype Transform = Transform(basis: Mat3, origin: Vec3)

  function Apply(t: Transform, v: Vec3): Vec3 {
    Add(MulMatVec(t.basis, v), t.origin)
  }

  /** The inverse of a rigid transform, whose basis is a rotation (so its
      transpose is its inverse). */
  function Inverse(t: Transform): Transform {
    var inv := Transpose(t.basis);
    Transform(inv, MulMatVec(inv, Neg(t.origin)))
  }

  /** a * b: first b, then a. */
  function Compose(a: Transform, b: Transform): Transform {
    Transform(MulMat(a.basis, b.basis), Apply(a, b.origin))
  }

  /** The transform built from a basis alone: the same rotation, no translation. */
  function RotationOnly(t: Transform): (r: Transform)
    ensures forall v :: Apply(r, v) == MulMatVec(t.basis, v)
  {
    Transform(t.basis, Zero)
  }

  /** Moving a direction through the matrix on the left of a dot product is
      the same as moving the other factor through the transpose. */
  lemma DotThroughMatrix(a: Vec3, m: Mat3, y: Vec3)
    ensures Dot(a, MulMatVec(m, y)) == Dot(MulVecMat(a, m), y)
  {
  }

  /** The dot product distributes over a translation. */
  lemma DotAdd(a: Vec3, u: Vec3, w: Vec3)
    ensures Dot(a, Add(u, w)) == Dot(a, u) + Dot(a, w)
  {
  }
}
