/**
  Minimal stand-ins for the framework's `Vector3d` and `Matrix` classes:
  exactly the operations the camera and the translation use, over `real`
  (so without floating-point rounding). Vectors are values; a matrix is a
  sequence of rows.
 */
module Linear {

  datatype Vec3 = Vec3(x: real, y: real, z: real)

  const Zero: Vec3 := Vec3(0.0, 0.0, 0.0)
  const UnitY: Vec3 := Vec3(0.0, 1.0, 0.0)

  /** `a.add(b)` */
  function Add(a: Vec3, b: Vec3): Vec3 {
    Vec3(a.x + b.x, a.y + b.y, a.z + b.z)
  }

  /** `a.sub(b)`, the difference a - b */
  function Sub(a: Vec3, b: Vec3): Vec3 {
    Vec3(a.x - b.x, a.y - b.y, a.z - b.z)
  }

  /** `a.times(k)` */
  function Scale(k: real, a: Vec3): Vec3 {
    Vec3(k * a.x, k * a.y, k * a.z)
  }

  /** `a.dot(b)` */
  function Dot(a: Vec3, b: Vec3): real {
    a.x * b.x + a.y * b.y + a.z * b.z
  }

  /** `a.cross(b)` */
  function Cross(a: Vec3, b: Vec3): Vec3 {
    Vec3(a.y * b.z - a.z * b.y, a.z * b.x - a.x * b.z, a.x * b.y - a.y * b.x)
  }

  /** A cross product is orthogonal to both of its factors. */
  lemma CrossOrthogonal(a: Vec3, b: Vec3)
    ensures Dot(Cross(a, b), a) == 0.0 && Dot(Cross(a, b), b) == 0.0
  {
  }

  /** The dot product is linear in its first argument. */
  lemma DotScale(k: real, a: Vec3, b: Vec3)
    ensures Dot(Scale(k, a), b) == k * Dot(a, b)
  {
  }

  /** ... and in its second. */
  lemma DotScaleRight(k: real, a: Vec3, b: Vec3)
    ensures Dot(a, Scale(k, b)) == k * Dot(a, b)
  {
  }

  /** |a x b|^2 == |a|^2 |b|^2 - (a.b)^2 (Lagrange's identity) */
  lemma Lagrange(a: Vec3, b: Vec3)
    ensures Dot(Cross(a, b), Cross(a, b)) == Dot(a, a) * Dot(b, b) - Dot(a, b) * Dot(a, b)
  {
  }

  /** Crossing with the zero vector gives the zero vector. */
  lemma CrossZero(a: Vec3)
    ensures Cross(a, Zero) == Zero
  {
  }

  lemma ScaleNonZero(k: real, a: Vec3)
    requires k != 0.0 && a != Zero
    ensures Scale(k, a) != Zero
  {
    var s := Scale(k, a);
    assert a == Vec3(s.x / k, s.y / k, s.z / k);
  }

  /** A matrix with `rows` rows of `cols` entries each. */
  ghost predicate IsMatrix(m: seq<seq<real>>, rows: nat, cols: nat) {
    |m| == rows && forall i :: 0 <= i < rows ==> |m[i]| == cols
  }

  /** `Matrix.identity(k, k)` */
  function Identity(k: nat): (m: seq<seq<real>>)
    ensures IsMatrix(m, k, k)
    ensures forall i, j :: 0 <= i < k && 0 <= j < k ==> m[i][j] == (if i == j then 1.0 else 0.0)
  {
    seq(k, i => seq(k, j => if i == j then 1.0 else 0.0))
  }

  /** `v.toMatrix()`: the homogeneous column (x, y, z, 1) of a point. */
  function Homogeneous(v: Vec3): seq<real> {
    [v.x, v.y, v.z, 1.0]
  }

  function Dot4(r: seq<real>, c: seq<real>): real
    requires |r| == 4 && |c| == 4
  {
    r[0] * c[0] + r[1] * c[1] + r[2] * c[2] + r[3] * c[3]
  }

  /** `m.times(c)` for a 4x4 matrix and a 4x1 column, the column given as a sequence. */
  function Apply(m: seq<seq<real>>, c: seq<real>): (r: seq<real>)
    requires IsMatrix(m, 4, 4) && |c| == 4
    ensures |r| == 4
  {
    [Dot4(m[0], c), Dot4(m[1], c), Dot4(m[2], c), Dot4(m[3], c)]
  }

  /** Column `j` of a 4x4 matrix. */
  function Column(m: seq<seq<real>>, j: nat): (c: seq<real>)
    requires IsMatrix(m, 4, 4) && j < 4
    ensures |c| == 4
  {
    [m[0][j], m[1][j], m[2][j], m[3][j]]
  }

  /** `a.times(b)` for two 4x4 matrices. */
  function Multiply(a: seq<seq<real>>, b: seq<seq<real>>): (m: seq<seq<real>>)
    requires IsMatrix(a, 4, 4) && IsMatrix(b, 4, 4)
    ensures IsMatrix(m, 4, 4)
  {
    seq(4, i requires 0 <= i < 4 => seq(4, j requires 0 <= j < 4 => Dot4(a[i], Column(b, j))))
  }
}
