/** Points, vectors and 3x3 matrices over exact reals. */
module Geometry {

  /** A position, velocity or acceleration in the writing frame: x is the
      horizontal axis, y the vertical axis, z the pen height. */
  datatype Vec3 = Vec3(x: real, y: real, z: real)

  /** One spatial axis; the trajectory generators run once per axis. */
  datatype Axis = X | Y | Z

  const Zero: Vec3 := Vec3(0.0, 0.0, 0.0)

  function Coord(v: Vec3, k: Axis): real
  {
    match k
    case X => v.x
    case Y => v.y
    case Z => v.z
  }

  /** A vector is determined by its three coordinates. */
  lemma SameCoords(a: Vec3, b: Vec3)
    requires Coord(a, X) == Coord(b, X) && Coord(a, Y) == Coord(b, Y) && Coord(a, Z) == Coord(b, Z)
    ensures a == b
  {
  }

  /** Rebuilds a vector from its three coordinates. */
  function FromAxes(f: Axis -> real): (v: Vec3)
    ensures forall k: Axis :: Coord(v, k) == f(k)
  {
    Vec3(f(X), f(Y), f(Z))
  }

  function Add(a: Vec3, b: Vec3): Vec3
  {
    Vec3(a.x + b.x, a.y + b.y, a.z + b.z)
  }

  function Sub(a: Vec3, b: Vec3): Vec3
  {
    Vec3(a.x - b.x, a.y - b.y, a.z - b.z)
  }

  function Scale(s: real, a: Vec3): Vec3
  {
    Vec3(s * a.x, s * a.y, s * a.z)
  }

  /** A 3x3 matrix stored by rows. */
  datatype Mat3 = Mat3(r0: Vec3, r1: Vec3, r2: Vec3)

  function Row(m: Mat3, i: nat): Vec3
    requires i < 3
  {
    if i == 0 then m.r0 else if i == 1 then m.r1 else m.r2
  }

  /** Entry (i, j), zero-based as in numpy's `m[i, j]`. */
  function At(m: Mat3, i: nat, j: nat): real
    requires i < 3 && j < 3
  {
    var r := Row(m, i);
    if j == 0 then r.x else if j == 1 then r.y else r.z
  }

  function Column(m: Mat3, j: nat): Vec3
    requires j < 3
  {
    Vec3(At(m, 0, j), At(m, 1, j), At(m, 2, j))
  }

  function Dot(a: Vec3, b: Vec3): real
  {
    a.x * b.x + a.y * b.y + a.z * b.z
  }

  /** numpy's `m @ v` for a matrix and a vector. */
  function MatVec(m: Mat3, v: Vec3): Vec3
  {
    Vec3(Dot(m.r0, v), Dot(m.r1, v), Dot(m.r2, v))
  }

  /** numpy's `a @ b` for two matrices. */
  function MatMul(a: Mat3, b: Mat3): Mat3
  {
    Mat3(
      Vec3(Dot(a.r0, Column(b, 0)), Dot(a.r0, Column(b, 1)), Dot(a.r0, Column(b, 2))),
      Vec3(Dot(a.r1, Column(b, 0)), Dot(a.r1, Column(b, 1)), Dot(a.r1, Column(b, 2))),
      Vec3(Dot(a.r2, Column(b, 0)), Dot(a.r2, Column(b, 1)), Dot(a.r2, Column(b, 2))))
  }
}
