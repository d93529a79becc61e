/** Homogeneous 4x4 transforms as numpy holds them: row-major nested
    sequences of reals, indexed m[row][column]. */
module Matrix {

  predicate IsMat(m: seq<seq<real>>, rows: nat, cols: nat)
  {
    |m| == rows && forall i | 0 <= i < rows :: |m[i]| == cols
  }

  type Mat4 = m: seq<seq<real>> | IsMat(m, 4, 4)
    witness [[1.0, 0.0, 0.0, 0.0], [0.0, 1.0, 0.0, 0.0], [0.0, 0.0, 1.0, 0.0], [0.0, 0.0, 0.0, 1.0]]

  type Mat3 = m: seq<seq<real>> | IsMat(m, 3, 3)
    witness [[1.0, 0.0, 0.0], [0.0, 1.0, 0.0], [0.0, 0.0, 1.0]]

  /** A 3-vector, used for translations and directions. */
  datatype Vec3 = Vec3(x: real, y: real, z: real)

  function Delta(i: int, j: int): real
  {
    if i == j then 1.0 else 0.0
  }

  /** np.eye(4). */
  function Identity(): (r: Mat4)
    ensures forall i, j | 0 <= i < 4 && 0 <= j < 4 :: r[i][j] == Delta(i, j)
  {
    seq(4, i => seq(4, j => Delta(i, j)))
  }

  /** np.zeros((4, 4)). */
  function Zero(): (r: Mat4)
    ensures forall i, j | 0 <= i < 4 && 0 <= j < 4 :: r[i][j] == 0.0
  {
    seq(4, i => seq(4, j => 0.0))
  }

  /** Two matrices are equal when all sixteen entries are. */
  lemma Ext(a: Mat4, b: Mat4)
    requires forall i, j | 0 <= i < 4 && 0 <= j < 4 :: a[i][j] == b[i][j]
    ensures a == b
  {
    forall i | 0 <= i < 4
      ensures a[i] == b[i]
    {
      assert forall j | 0 <= j < 4 :: a[i][j] == b[i][j];
    }
  }

  /** One entry of the matrix product a @ b. */
  function Dot4(a: Mat4, b: Mat4, i: nat, j: nat): real
    requires i < 4 && j < 4
  {
    a[i][0] * b[0][j] + a[i][1] * b[1][j] + a[i][2] * b[2][j] + a[i][3] * b[3][j]
  }

  /** Dot4 in terms of the row of a and the column of b, named as scalars. */
  lemma Dot4Of(a: Mat4, b: Mat4, i: nat, j: nat, x0: real, x1: real, x2: real, x3: real, y0: real, y1: real, y2: real, y3: real)
    requires i < 4 && j < 4
    requires a[i][0] == x0 && a[i][1] == x1 && a[i][2] == x2 && a[i][3] == x3
    requires b[0][j] == y0 && b[1][j] == y1 && b[2][j] == y2 && b[3][j] == y3
    ensures Dot4(a, b, i, j) == x0 * y0 + x1 * y1 + x2 * y2 + x3 * y3
  {
  }

  /** The matrix product a @ b. */
  function Mul(a: Mat4, b: Mat4): (r: Mat4)
    ensures forall i, j | 0 <= i < 4 && 0 <= j < 4 :: r[i][j] == Dot4(a, b, i, j)
  {
    seq(4, i requires 0 <= i < 4 => seq(4, j requires 0 <= j < 4 => Dot4(a, b, i, j)))
  }

  lemma MulIdentityLeft(m: Mat4)
    ensures Mul(Identity(), m) == m
  {
    Ext(Mul(Identity(), m), m);
  }

  lemma MulIdentityRight(m: Mat4)
    ensures Mul(m, Identity()) == m
  {
    Ext(Mul(m, Identity()), m);
  }

  function Transpose(m: Mat4): (r: Mat4)
    ensures forall i, j | 0 <= i < 4 && 0 <= j < 4 :: r[i][j] == m[j][i]
  {
    seq(4, i requires 0 <= i < 4 => seq(4, j requires 0 <= j < 4 => m[j][i]))
  }

  /** m[:3, 3]. */
  function Translation(m: Mat4): Vec3
  {
    Vec3(m[0][3], m[1][3], m[2][3])
  }

  /** The entry at (row, column), with every other entry kept. */
  function Set(m: Mat4, row: nat, col: nat, v: real): (r: Mat4)
    requires row < 4 && col < 4
    ensures r[row][col] == v
    ensures forall i, j | 0 <= i < 4 && 0 <= j < 4 && (i, j) != (row, col) :: r[i][j] == m[i][j]
  {
    m[row := m[row][col := v]]
  }

  /** m[:3, 3] = t. */
  function WithTranslation(m: Mat4, t: Vec3): (r: Mat4)
    ensures Translation(r) == t
    ensures forall i, j | 0 <= i < 4 && 0 <= j < 3 :: r[i][j] == m[i][j]
    ensures r[3] == m[3]
  {
    Set(Set(Set(m, 0, 3, t.x), 1, 3, t.y), 2, 3, t.z)
  }

  /** m[:3, :3]. */
  function Rotation(m: Mat4): (r: Mat3)
    ensures forall i, j | 0 <= i < 3 && 0 <= j < 3 :: r[i][j] == m[i][j]
  {
    seq(3, i requires 0 <= i < 3 => seq(3, j requires 0 <= j < 3 => m[i][j]))
  }

  /** A transform from a rotation block and a translation, bottom row [0, 0, 0, 1]. */
  function Rigid(rot: Mat3, t: Vec3): (r: Mat4)
    ensures Rotation(r) == rot && Translation(r) == t
    ensures r[3] == [0.0, 0.0, 0.0, 1.0]
  {
    var r := [rot[0] + [t.x], rot[1] + [t.y], rot[2] + [t.z], [0.0, 0.0, 0.0, 1.0]];
    assert Rotation(r) == rot by {
      forall i | 0 <= i < 3 ensures Rotation(r)[i] == rot[i] {
        assert forall j | 0 <= j < 3 :: Rotation(r)[i][j] == rot[i][j];
      }
    }
    r
  }

  /** The bottom row of a rigid transform. */
  predicate Homogeneous(m: Mat4)
  {
    m[3] == [0.0, 0.0, 0.0, 1.0]
  }

  /** Column i of r dotted with column j. */
  function ColDot(r: Mat3, i: nat, j: nat): real
    requires i < 3 && j < 3
  {
    r[0][i] * r[0][j] + r[1][i] * r[1][j] + r[2][i] * r[2][j]
  }

  /** Row i of r dotted with row j. */
  function RowDot(r: Mat3, i: nat, j: nat): real
    requires i < 3 && j < 3
  {
    r[i][0] * r[j][0] + r[i][1] * r[j][1] + r[i][2] * r[j][2]
  }

  /** The 3x3 block has orthonormal columns and rows (a rotation or reflection). */
  predicate Orthonormal(r: Mat3)
  {
    forall i, j | 0 <= i < 3 && 0 <= j < 3 :: ColDot(r, i, j) == Delta(i, j) && RowDot(r, i, j) == Delta(i, j)
  }

  /** The 3x3 block transposed. */
  function Transpose3(r: Mat3): (t: Mat3)
    ensures forall i, j | 0 <= i < 3 && 0 <= j < 3 :: t[i][j] == r[j][i]
  {
    seq(3, i requires 0 <= i < 3 => seq(3, j requires 0 <= j < 3 => r[j][i]))
  }

  /** r @ v for a 3x3 block. */
  function Apply3(r: Mat3, v: Vec3): Vec3
  {
    Vec3(r[0][0] * v.x + r[0][1] * v.y + r[0][2] * v.z,
         r[1][0] * v.x + r[1][1] * v.y + r[1][2] * v.z,
         r[2][0] * v.x + r[2][1] * v.y + r[2][2] * v.z)
  }

  function Neg(v: Vec3): Vec3
  {
    Vec3(-v.x, -v.y, -v.z)
  }

  function Sub(a: Vec3, b: Vec3): Vec3
  {
    Vec3(a.x - b.x, a.y - b.y, a.z - b.z)
  }

  function Add(a: Vec3, b: Vec3): Vec3
  {
    Vec3(a.x + b.x, a.y + b.y, a.z + b.z)
  }

  function Scale(k: real, v: Vec3): Vec3
  {
    Vec3(k * v.x, k * v.y, k * v.z)
  }
}
