/**
 * Rigid-body transformation matrices (`RBTMatrix`): the top three rows of a
 * 4x4 affine matrix, whose bottom row is implicitly [0 0 0 1]. A matrix
 * owns a fixed 3x4 buffer of entries; its value is the grid of those entries.
 */
module Matrices {
  import opened Common

  /** One row of a matrix: the entries in columns 0 to 3. */
  datatype Row = Row(c0: real, c1: real, c2: real, c3: real)

  /** A matrix value: its three rows. */
  datatype Grid = Grid(r0: Row, r1: Row, r2: Row)

  /** Entry (i, j), for 0 <= i < 3 and 0 <= j < 4. */
  function GridEntry(g: Grid, i: int, j: int): real
    requires 0 <= i < 3 && 0 <= j < 4
  {
    var r := if i == 0 then g.r0 else if i == 1 then g.r1 else g.r2;
    if j == 0 then r.c0 else if j == 1 then r.c1 else if j == 2 then r.c2 else r.c3
  }

  const ZerosGrid := Grid(Row(0.0, 0.0, 0.0, 0.0), Row(0.0, 0.0, 0.0, 0.0), Row(0.0, 0.0, 0.0, 0.0))

  /** Ones on the diagonal of the 3x3 block, zeros elsewhere (no translation). */
  const IdentityGrid := Grid(Row(1.0, 0.0, 0.0, 0.0), Row(0.0, 1.0, 0.0, 0.0), Row(0.0, 0.0, 1.0, 0.0))

  /** A row applied to a point (w = 1). */
  function RowPoint(r: Row, p: Vec3): real
  {
    r.c0 * p.x + r.c1 * p.y + r.c2 * p.z + r.c3
  }

  /** A row applied to a free vector (w = 0). */
  function RowVector(r: Row, v: Vec3): real
  {
    r.c0 * v.x + r.c1 * v.y + r.c2 * v.z
  }

  /** The image of a point: the 3x3 block applied, then the translation added. */
  function PointImage(g: Grid, p: Vec3): Vec3
  {
    Vec3(RowPoint(g.r0, p), RowPoint(g.r1, p), RowPoint(g.r2, p))
  }

  /** The image of a free vector: the 3x3 block applied, no translation. */
  function VectorImage(g: Grid, v: Vec3): Vec3
  {
    Vec3(RowVector(g.r0, v), RowVector(g.r1, v), RowVector(g.r2, v))
  }

  /** A row of the affine product: the row's block part times b's block, and the row's translation added to the last column. */
  function RowTimes(r: Row, b: Grid): Row
  {
    Row(r.c0 * b.r0.c0 + r.c1 * b.r1.c0 + r.c2 * b.r2.c0,
        r.c0 * b.r0.c1 + r.c1 * b.r1.c1 + r.c2 * b.r2.c1,
        r.c0 * b.r0.c2 + r.c1 * b.r1.c2 + r.c2 * b.r2.c2,
        r.c0 * b.r0.c3 + r.c1 * b.r1.c3 + r.c2 * b.r2.c3 + r.c3)
  }

  /** The affine product, as if both had the row [0 0 0 1] below. */
  function Product(a: Grid, b: Grid): Grid
  {
    Grid(RowTimes(a.r0, b), RowTimes(a.r1, b), RowTimes(a.r2, b))
  }

  /** Column j of the 3x3 block (u, v, w for j = 0, 1, 2) or the translation t (j = 3). */
  function Column(g: Grid, j: int): Vec3
    requires 0 <= j < 4
  {
    Vec3(GridEntry(g, 0, j), GridEntry(g, 1, j), GridEntry(g, 2, j))
  }

  /** The inverse of a rigid-body transform: the transposed block, and -dot(column, t) as translation. */
  function InverseGrid(g: Grid): Grid
  {
    var u, v, w, t := Column(g, 0), Column(g, 1), Column(g, 2), Column(g, 3);
    Grid(Row(u.x, u.y, u.z, -Dot(u, t)), Row(v.x, v.y, v.z, -Dot(v, t)), Row(w.x, w.y, w.z, -Dot(w, t)))
  }

  /** The inverse, written with the columns of g. */
  lemma InverseFromColumns(g: Grid, u: Vec3, v: Vec3, w: Vec3, t: Vec3)
    requires u == Vec3(g.r0.c0, g.r1.c0, g.r2.c0) && v == Vec3(g.r0.c1, g.r1.c1, g.r2.c1)
    requires w == Vec3(g.r0.c2, g.r1.c2, g.r2.c2) && t == Vec3(g.r0.c3, g.r1.c3, g.r2.c3)
    ensures InverseGrid(g) == Grid(Row(u.x, u.y, u.z, -Dot(u, t)), Row(v.x, v.y, v.z, -Dot(v, t)), Row(w.x, w.y, w.z, -Dot(w, t)))
  {
    assert Column(g, 0) == u && Column(g, 1) == v && Column(g, 2) == w && Column(g, 3) == t;
  }

  /** The columns of the 3x3 block are unit length and pairwise perpendicular (a rotation or reflection). */
  predicate Orthonormal(g: Grid)
  {
    var u, v, w := Column(g, 0), Column(g, 1), Column(g, 2);
    Dot(u, u) == 1.0 && Dot(v, v) == 1.0 && Dot(w, w) == 1.0
    && Dot(u, v) == 0.0 && Dot(u, w) == 0.0 && Dot(v, w) == 0.0
  }

  /** The position of entry (i, j) of the homogeneous 4x4 matrix in column-major order. */
  function RepIndex(i: int, j: int): int
  {
    4 * j + i
  }

  /** Zeros sends every point to the origin. */
  lemma PointImageOfZeros(p: Vec3)
    ensures PointImage(ZerosGrid, p) == Zero3
  {
  }

  /** The identity fixes every point and every vector. */
  lemma ImageOfIdentity(p: Vec3)
    ensures PointImage(IdentityGrid, p) == p
    ensures VectorImage(IdentityGrid, p) == p
  {
  }

  /** The product applies the right operand first: (A * B)(p) = A(B(p)). */
  lemma PointImageOfProduct(a: Grid, b: Grid, p: Vec3)
    ensures PointImage(Product(a, b), p) == PointImage(a, PointImage(b, p))
  {
    RowOfProduct(a.r0, b, p);
    RowOfProduct(a.r1, b, p);
    RowOfProduct(a.r2, b, p);
  }

  lemma RowOfProduct(r: Row, b: Grid, p: Vec3)
    ensures RowPoint(RowTimes(r, b), p) == RowPoint(r, PointImage(b, p))
  {
    var rb, q := RowTimes(r, b), PointImage(b, p);
    Regroup(r.c0, r.c1, r.c2, r.c3, b.r0.c0, b.r0.c1, b.r0.c2, b.r0.c3, b.r1.c0, b.r1.c1, b.r1.c2, b.r1.c3,
      b.r2.c0, b.r2.c1, b.r2.c2, b.r2.c3, p.x, p.y, p.z, rb.c0, rb.c1, rb.c2, rb.c3, q.x, q.y, q.z);
  }

  /**
   * A row (a0 a1 a2 a3) of a product with b, applied to (x y z), equals the
   * row applied to b's image q of (x y z).
   */
  lemma Regroup(a0: real, a1: real, a2: real, a3: real,
                b00: real, b01: real, b02: real, b03: real,
                b10: real, b11: real, b12: real, b13: real,
                b20: real, b21: real, b22: real, b23: real,
                x: real, y: real, z: real,
                s0: real, s1: real, s2: real, s3: real,
                qx: real, qy: real, qz: real)
    requires s0 == a0 * b00 + a1 * b10 + a2 * b20
    requires s1 == a0 * b01 + a1 * b11 + a2 * b21
    requires s2 == a0 * b02 + a1 * b12 + a2 * b22
    requires s3 == a0 * b03 + a1 * b13 + a2 * b23 + a3
    requires qx == b00 * x + b01 * y + b02 * z + b03
    requires qy == b10 * x + b11 * y + b12 * z + b13
    requires qz == b20 * x + b21 * y + b22 * z + b23
    ensures s0 * x + s1 * y + s2 * z + s3 == a0 * qx + a1 * qy + a2 * qz + a3
  {
  }

  /** A row whose entries are those of row r times b is that row of the product. */
  lemma RowByEntries(r: Row, b: Grid, c: Row)
    requires c.c0 == r.c0 * b.r0.c0 + r.c1 * b.r1.c0 + r.c2 * b.r2.c0
    requires c.c1 == r.c0 * b.r0.c1 + r.c1 * b.r1.c1 + r.c2 * b.r2.c1
    requires c.c2 == r.c0 * b.r0.c2 + r.c1 * b.r1.c2 + r.c2 * b.r2.c2
    requires c.c3 == r.c0 * b.r0.c3 + r.c1 * b.r1.c3 + r.c2 * b.r2.c3 + r.c3
    ensures c == RowTimes(r, b)
  {
  }

  /** The vector image ignores the translation: it maps the difference of two points to the difference of their images. */
  lemma VectorImageOfDifference(g: Grid, p: Vec3, q: Vec3)
    ensures VectorImage(g, Sub(p, q)) == Sub(PointImage(g, p), PointImage(g, q))
  {
    var d := Sub(p, q);
    RowOfDifference(g.r0.c0, g.r0.c1, g.r0.c2, g.r0.c3, p.x, p.y, p.z, q.x, q.y, q.z, d.x, d.y, d.z,
      RowPoint(g.r0, p), RowPoint(g.r0, q));
    RowOfDifference(g.r1.c0, g.r1.c1, g.r1.c2, g.r1.c3, p.x, p.y, p.z, q.x, q.y, q.z, d.x, d.y, d.z,
      RowPoint(g.r1, p), RowPoint(g.r1, q));
    RowOfDifference(g.r2.c0, g.r2.c1, g.r2.c2, g.r2.c3, p.x, p.y, p.z, q.x, q.y, q.z, d.x, d.y, d.z,
      RowPoint(g.r2, p), RowPoint(g.r2, q));
  }

  /** The image of a point is the image of the same vector moved by the translation column. */
  lemma PointImageAsVector(g: Grid, p: Vec3)
    ensures PointImage(g, p) == Add(VectorImage(g, p), Column(g, 3))
  {
  }

  /** A row (g0 g1 g2 g3) applied to the difference d of two points is the difference a - b of its values at them. */
  lemma RowOfDifference(g0: real, g1: real, g2: real, g3: real, px: real, py: real, pz: real,
                        qx: real, qy: real, qz: real, dx: real, dy: real, dz: real, a: real, b: real)
    requires dx == px - qx && dy == py - qy && dz == pz - qz
    requires a == g0 * px + g1 * py + g2 * pz + g3
    requires b == g0 * qx + g1 * qy + g2 * qz + g3
    ensures g0 * dx + g1 * dy + g2 * dz == a - b
  {
  }

  /**
   * When the 3x3 block is orthonormal, the inverse undoes the transform:
   * inverse(M)(M(p)) = p.
   */
  lemma InverseUndoes(g: Grid, p: Vec3)
    requires Orthonormal(g)
    ensures PointImage(InverseGrid(g), PointImage(g, p)) == p
  {
    var u, v, w := Column(g, 0), Column(g, 1), Column(g, 2);
    InverseRowOf(g, u, p);
    InverseRowOf(g, v, p);
    InverseRowOf(g, w, p);
    DotSymmetric(u, v);
    DotSymmetric(u, w);
    DotSymmetric(v, w);
    Weights(Dot(u, u), Dot(u, v), Dot(u, w), p.x, p.y, p.z);
    Weights(Dot(v, v), Dot(v, u), Dot(v, w), p.y, p.x, p.z);
    Weights(Dot(w, w), Dot(w, u), Dot(w, v), p.z, p.x, p.y);
  }

  /** A row c of the inverse applied to M(p) is the dot products of c with M's block columns, weighting p. */
  lemma InverseRowOf(g: Grid, c: Vec3, p: Vec3)
    ensures RowPoint(Row(c.x, c.y, c.z, -Dot(c, Column(g, 3))), PointImage(g, p))
         == Dot(c, Column(g, 0)) * p.x + Dot(c, Column(g, 1)) * p.y + Dot(c, Column(g, 2)) * p.z
  {
    var r0, r1, r2 := g.r0, g.r1, g.r2;
    ExpandInverseRow(c.x, c.y, c.z, r0.c0, r0.c1, r0.c2, r0.c3, r1.c0, r1.c1, r1.c2, r1.c3,
      r2.c0, r2.c1, r2.c2, r2.c3, p.x, p.y, p.z);
  }

  lemma DotSymmetric(a: Vec3, b: Vec3)
    ensures Dot(a, b) == Dot(b, a)
  {
    Commute3(a.x, a.y, a.z, b.x, b.y, b.z);
  }

  lemma Commute3(a0: real, a1: real, a2: real, b0: real, b1: real, b2: real)
    ensures a0 * b0 + a1 * b1 + a2 * b2 == b0 * a0 + b1 * a1 + b2 * a2
  {
  }

  /** Row (c0 c1 c2) of the inverse applied to M(x y z), as dot products of c with M's columns. */
  lemma ExpandInverseRow(c0: real, c1: real, c2: real,
                         g00: real, g01: real, g02: real, g03: real,
                         g10: real, g11: real, g12: real, g13: real,
                         g20: real, g21: real, g22: real, g23: real,
                         x: real, y: real, z: real)
    ensures c0 * (g00 * x + g01 * y + g02 * z + g03) + c1 * (g10 * x + g11 * y + g12 * z + g13)
          + c2 * (g20 * x + g21 * y + g22 * z + g23) + -(c0 * g03 + c1 * g13 + c2 * g23)
         == (c0 * g00 + c1 * g10 + c2 * g20) * x + (c0 * g01 + c1 * g11 + c2 * g21) * y
          + (c0 * g02 + c1 * g12 + c2 * g22) * z
  {
  }

  /** A combination with weights 1, 0, 0 picks out its first term. */
  lemma Weights(one: real, zero1: real, zero2: real, a: real, b: real, c: real)
    requires one == 1.0 && zero1 == 0.0 && zero2 == 0.0
    ensures one * a + zero1 * b + zero2 * c == a
    ensures zero1 * b + one * a + zero2 * c == a
    ensures zero1 * b + zero2 * c + one * a == a
  {
  }

  /**
   * `RBTMatrix`: the entries `m[i][j]` of a rigid-body transform, held in a
   * 3x4 buffer. Methods that change the matrix change only that buffer.
   */
  class RBTMatrix {
    const m: array2<real>

    /** The buffer is 3x4. */
    ghost predicate Valid()
      reads this
    {
      m.Length0 == 3 && m.Length1 == 4
    }

    /** The grid of entries in the buffer. */
    ghost function Value(): Grid
      reads this, m
      requires Valid()
    {
      Grid(Row(m[0, 0], m[0, 1], m[0, 2], m[0, 3]),
           Row(m[1, 0], m[1, 1], m[1, 2], m[1, 3]),
           Row(m[2, 0], m[2, 1], m[2, 2], m[2, 3]))
    }

    /** The default constructor: a fresh buffer, reset to zeros. */
    constructor()
      ensures Valid() && fresh(m)
      ensures Value() == ZerosGrid
    {
      m := new real[3, 4];
      new;
      ResetToZeros();
    }

    /** The copy constructor: a fresh buffer holding the same entries. */
    constructor Copy(rhs: RBTMatrix)
      requires rhs.Valid()
      ensures Valid() && fresh(m)
      ensures Value() == rhs.Value()
    {
      var buffer := new real[3, 4];
      for i := 0 to 3
        invariant forall a, b :: 0 <= a < i && 0 <= b < 4 ==> buffer[a, b] == rhs.m[a, b]
      {
        for j := 0 to 4
          invariant forall a, b :: 0 <= a < i && 0 <= b < 4 ==> buffer[a, b] == rhs.m[a, b]
          invariant forall b :: 0 <= b < j ==> buffer[i, b] == rhs.m[i, b]
        {
          buffer[i, j] := rhs.m[i, j];
        }
      }
      m := buffer;
    }

    /** `zeros`: a new matrix of zeros. */
    static method Zeros() returns (r: RBTMatrix)
      ensures fresh(r) && fresh(r.m) && r.Valid()
      ensures r.Value() == ZerosGrid
    {
      r := new RBTMatrix();
    }

    /** `identity`: a new matrix with ones on the diagonal of the 3x3 block and zeros elsewhere. */
    static method Identity() returns (r: RBTMatrix)
      ensures fresh(r) && fresh(r.m) && r.Valid()
      ensures r.Value() == IdentityGrid
    {
      r := new RBTMatrix();
      r.m[0, 0] := 1.0;
      r.m[1, 1] := 1.0;
      r.m[2, 2] := 1.0;
    }

    /** `operator()`: the entry in row i, column j, for 0 <= i < 3 and 0 <= j < 4 only. */
    function Entry(i: int, j: int): (x: real)
      reads this, m
      requires Valid() && 0 <= i < 3 && 0 <= j < 4
      ensures x == GridEntry(Value(), i, j)
    {
      m[i, j]
    }

    /** The writable `operator()`: entry (i, j) becomes x and no other entry changes. */
    method SetEntry(i: int, j: int, x: real)
      requires Valid() && 0 <= i < 3 && 0 <= j < 4
      modifies m
      ensures forall a, b :: 0 <= a < 3 && 0 <= b < 4 ==> m[a, b] == if a == i && b == j then x else old(m[a, b])
    {
      m[i, j] := x;
    }

    /** `reset_to_zeros`: every entry becomes 0. */
    method ResetToZeros()
      requires Valid()
      modifies m
      ensures Value() == ZerosGrid
    {
      for i := 0 to 3
        invariant forall a, b :: 0 <= a < i && 0 <= b < 4 ==> m[a, b] == 0.0
      {
        for j := 0 to 4
          invariant forall a, b :: 0 <= a < i && 0 <= b < 4 ==> m[a, b] == 0.0
          invariant forall b :: 0 <= b < j ==> m[i, b] == 0.0
        {
          m[i, j] := 0.0;
        }
      }
    }

    /**
     * `add_scaled`: m += mat * scale, entrywise. Each entry of `mat` is read
     * just before the same entry of this matrix is written, so the result is
     * the same when `mat` is this matrix itself.
     */
    method AddScaled(mat: RBTMatrix, scale: real)
      requires Valid() && mat.Valid()
      modifies m
      ensures forall i, j :: 0 <= i < 3 && 0 <= j < 4 ==> m[i, j] == old(m[i, j]) + old(mat.m[i, j]) * scale
    {
      for i := 0 to 3
        invariant forall a, b :: 0 <= a < 3 && 0 <= b < 4 ==>
          m[a, b] == if a < i then old(m[a, b]) + old(mat.m[a, b]) * scale else old(m[a, b])
      {
        for j := 0 to 4
          invariant forall a, b :: 0 <= a < 3 && 0 <= b < 4 ==>
            m[a, b] == if a < i || (a == i && b < j) then old(m[a, b]) + old(mat.m[a, b]) * scale else old(m[a, b])
        {
          assert mat.m[i, j] == old(mat.m[i, j]);
          m[i, j] := m[i, j] + mat.m[i, j] * scale;
        }
      }
    }

    /** `operator+=`: m += rhs, entrywise (also when rhs is this matrix). */
    method AddAssign(rhs: RBTMatrix)
      requires Valid() && rhs.Valid()
      modifies m
      ensures forall i, j :: 0 <= i < 3 && 0 <= j < 4 ==> m[i, j] == old(m[i, j]) + old(rhs.m[i, j])
    {
      for i := 0 to 3
        invariant forall a, b :: 0 <= a < 3 && 0 <= b < 4 ==>
          m[a, b] == if a < i then old(m[a, b]) + old(rhs.m[a, b]) else old(m[a, b])
      {
        for j := 0 to 4
          invariant forall a, b :: 0 <= a < 3 && 0 <= b < 4 ==>
            m[a, b] == if a < i || (a == i && b < j) then old(m[a, b]) + old(rhs.m[a, b]) else old(m[a, b])
        {
          assert rhs.m[i, j] == old(rhs.m[i, j]);
          m[i, j] := m[i, j] + rhs.m[i, j];
        }
      }
    }

    /** `operator*=` by a scale: every entry multiplied by it. */
    method ScaleBy(scale: real)
      requires Valid()
      modifies m
      ensures forall i, j :: 0 <= i < 3 && 0 <= j < 4 ==> m[i, j] == old(m[i, j]) * scale
    {
      for i := 0 to 3
        invariant forall a, b :: 0 <= a < 3 && 0 <= b < 4 ==>
          m[a, b] == if a < i then old(m[a, b]) * scale else old(m[a, b])
      {
        for j := 0 to 4
          invariant forall a, b :: 0 <= a < 3 && 0 <= b < 4 ==>
            m[a, b] == if a < i || (a == i && b < j) then old(m[a, b]) * scale else old(m[a, b])
        {
          m[i, j] := m[i, j] * scale;
        }
      }
    }

    /** Scalar `operator*` (either order): a scaled copy; the operand is unchanged. */
    static method ScaledCopy(mat: RBTMatrix, scale: real) returns (r: RBTMatrix)
      requires mat.Valid()
      ensures fresh(r) && fresh(r.m) && r.Valid()
      ensures forall i, j :: 0 <= i < 3 && 0 <= j < 4 ==> r.m[i, j] == mat.m[i, j] * scale
    {
      r := new RBTMatrix.Copy(mat);
      r.ScaleBy(scale);
    }

    /** The first k terms of row i of lhs's block times column j of rhs's. */
    static ghost function RowColumn(lhs: RBTMatrix, rhs: RBTMatrix, i: int, j: int, k: nat): real
      reads lhs, lhs.m, rhs, rhs.m
      requires lhs.Valid() && rhs.Valid() && 0 <= i < 3 && 0 <= j < 4 && k <= 3
    {
      if k == 0 then 0.0 else RowColumn(lhs, rhs, i, j, k - 1) + lhs.m[i, k - 1] * rhs.m[k - 1, j]
    }

    /**
     * Matrix `operator*`: a new matrix of zeros; each entry accumulates row i
     * of lhs's block times column j of rhs's, then lhs's translation is added
     * to the last column.
     */
    static method Multiply(lhs: RBTMatrix, rhs: RBTMatrix) returns (r: RBTMatrix)
      requires lhs.Valid() && rhs.Valid()
      ensures fresh(r) && fresh(r.m) && r.Valid()
      ensures r.Value() == Product(lhs.Value(), rhs.Value())
    {
      r := Zeros();
      for i := 0 to 3
        invariant forall x, y :: 0 <= x < 3 && 0 <= y < 4 ==>
          r.m[x, y] == if x < i then RowColumn(lhs, rhs, x, y, 3) else 0.0
      {
        for j := 0 to 4
          invariant forall x, y :: 0 <= x < 3 && 0 <= y < 4 ==>
            r.m[x, y] == if x < i || (x == i && y < j) then RowColumn(lhs, rhs, x, y, 3) else 0.0
        {
          AccumulateEntry(lhs, rhs, r, i, j);
        }
      }
      for i := 0 to 3
        invariant forall x, y :: 0 <= x < 3 && 0 <= y < 4 ==>
          r.m[x, y] == RowColumn(lhs, rhs, x, y, 3) + (if y == 3 && x < i then lhs.m[x, 3] else 0.0)
      {
        r.m[i, 3] := r.m[i, 3] + lhs.m[i, 3];
      }
      ProductOf(lhs, rhs, r);
    }

    /** Entries that sum row times column, plus lhs's translation in the last column, hold the product. */
    static lemma ProductOf(lhs: RBTMatrix, rhs: RBTMatrix, r: RBTMatrix)
      requires lhs.Valid() && rhs.Valid() && r.Valid()
      requires forall x, y :: 0 <= x < 3 && 0 <= y < 4 ==>
        r.m[x, y] == RowColumn(lhs, rhs, x, y, 3) + (if y == 3 then lhs.m[x, 3] else 0.0)
      ensures r.Value() == Product(lhs.Value(), rhs.Value())
    {
      ProductRowOf(lhs, rhs, r, 0);
      ProductRowOf(lhs, rhs, r, 1);
      ProductRowOf(lhs, rhs, r, 2);
    }

    /** Row x of such entries is row x of lhs times rhs. */
    static lemma ProductRowOf(lhs: RBTMatrix, rhs: RBTMatrix, r: RBTMatrix, x: int)
      requires lhs.Valid() && rhs.Valid() && r.Valid() && 0 <= x < 3
      requires forall y :: 0 <= y < 4 ==>
        r.m[x, y] == RowColumn(lhs, rhs, x, y, 3) + (if y == 3 then lhs.m[x, 3] else 0.0)
      ensures Row(r.m[x, 0], r.m[x, 1], r.m[x, 2], r.m[x, 3])
           == RowTimes(Row(lhs.m[x, 0], lhs.m[x, 1], lhs.m[x, 2], lhs.m[x, 3]), rhs.Value())
    {
      RowColumnExpanded(lhs, rhs, x, 0);
      RowColumnExpanded(lhs, rhs, x, 1);
      RowColumnExpanded(lhs, rhs, x, 2);
      RowColumnExpanded(lhs, rhs, x, 3);
      RowByEntries(Row(lhs.m[x, 0], lhs.m[x, 1], lhs.m[x, 2], lhs.m[x, 3]), rhs.Value(),
        Row(r.m[x, 0], r.m[x, 1], r.m[x, 2], r.m[x, 3]));
    }

    /** Row i of lhs's block times column j of rhs's, written out. */
    static lemma {:induction false} RowColumnExpanded(lhs: RBTMatrix, rhs: RBTMatrix, i: int, j: int)
      requires lhs.Valid() && rhs.Valid() && 0 <= i < 3 && 0 <= j < 4
      ensures RowColumn(lhs, rhs, i, j, 3) == lhs.m[i, 0] * rhs.m[0, j] + lhs.m[i, 1] * rhs.m[1, j] + lhs.m[i, 2] * rhs.m[2, j]
    {
      var p0, p1, p2 := lhs.m[i, 0] * rhs.m[0, j], lhs.m[i, 1] * rhs.m[1, j], lhs.m[i, 2] * rhs.m[2, j];
      calc {
        RowColumn(lhs, rhs, i, j, 3);
        RowColumn(lhs, rhs, i, j, 2) + p2;
        RowColumn(lhs, rhs, i, j, 1) + p1 + p2;
        RowColumn(lhs, rhs, i, j, 0) + p0 + p1 + p2;
      }
    }

    /** The innermost loop of `operator*`: entry (i, j) of ret accumulates row i of lhs times column j of rhs. */
    static method AccumulateEntry(lhs: RBTMatrix, rhs: RBTMatrix, ret: RBTMatrix, i: int, j: int)
      requires lhs.Valid() && rhs.Valid() && ret.Valid() && 0 <= i < 3 && 0 <= j < 4
      requires ret.m != lhs.m && ret.m != rhs.m
      modifies ret.m
      ensures forall x, y :: 0 <= x < 3 && 0 <= y < 4 ==>
        ret.m[x, y] == if x == i && y == j then old(ret.m[x, y]) + RowColumn(lhs, rhs, x, y, 3) else old(ret.m[x, y])
    {
      for k := 0 to 3
        invariant forall x, y :: 0 <= x < 3 && 0 <= y < 4 && (x != i || y != j) ==> ret.m[x, y] == old(ret.m[x, y])
        invariant ret.m[i, j] == old(ret.m[i, j]) + RowColumn(lhs, rhs, i, j, k)
      {
        ret.m[i, j] := ret.m[i, j] + lhs.m[i, k] * rhs.m[k, j];
      }
    }

    /**
     * Matrix `operator*=`: lhs = lhs * rhs rebinds the pointer to a new
     * matrix holding the product; the matrix lhs pointed to is unchanged.
     */
    static method MultiplyAssign(lhs: RBTMatrix, rhs: RBTMatrix) returns (newLhs: RBTMatrix)
      requires lhs.Valid() && rhs.Valid()
      ensures fresh(newLhs) && fresh(newLhs.m) && newLhs.Valid()
      ensures newLhs.Value() == Product(lhs.Value(), rhs.Value())
    {
      newLhs := Multiply(lhs, rhs);
    }

    /** `apply_to_point`: the image of p as a point. */
    function ApplyToPoint(p: Vec3): (q: Vec3)
      reads this, m
      requires Valid()
      ensures q == PointImage(Value(), p)
    {
      Vec3(m[0, 0] * p.x + m[0, 1] * p.y + m[0, 2] * p.z + m[0, 3],
           m[1, 0] * p.x + m[1, 1] * p.y + m[1, 2] * p.z + m[1, 3],
           m[2, 0] * p.x + m[2, 1] * p.y + m[2, 2] * p.z + m[2, 3])
    }

    /** `apply_to_vector`: the image of v as a free vector. */
    function ApplyToVector(v: Vec3): (q: Vec3)
      reads this, m
      requires Valid()
      ensures q == VectorImage(Value(), v)
    {
      Vec3(m[0, 0] * v.x + m[0, 1] * v.y + m[0, 2] * v.z,
           m[1, 0] * v.x + m[1, 1] * v.y + m[1, 2] * v.z,
           m[2, 0] * v.x + m[2, 1] * v.y + m[2, 2] * v.z)
    }

    /** `inverse`: a new matrix holding the rigid-body inverse (transposed block, translation -dot(column, t)). */
    method Inverse() returns (inv: RBTMatrix)
      requires Valid()
      ensures fresh(inv) && fresh(inv.m) && inv.Valid()
      ensures inv.Value() == InverseGrid(Value())
    {
      var u := Vec3(m[0, 0], m[1, 0], m[2, 0]);
      var v := Vec3(m[0, 1], m[1, 1], m[2, 1]);
      var w := Vec3(m[0, 2], m[1, 2], m[2, 2]);
      var t := Vec3(m[0, 3], m[1, 3], m[2, 3]);
      InverseFromColumns(Value(), u, v, w, t);
      inv := new RBTMatrix();
      var du, dv, dw := -Dot(u, t), -Dot(v, t), -Dot(w, t);
      inv.m[0, 0], inv.m[0, 1], inv.m[0, 2], inv.m[0, 3] := u.x, u.y, u.z, du;
      inv.m[1, 0], inv.m[1, 1], inv.m[1, 2], inv.m[1, 3] := v.x, v.y, v.z, dv;
      inv.m[2, 0], inv.m[2, 1], inv.m[2, 2], inv.m[2, 3] := w.x, w.y, w.z, dw;
    }

    /**
     * `rep`: the homogeneous 4x4 matrix in column-major order, entry (i, j)
     * at 4j + i, with [0 0 0 1] as the bottom row.
     */
    function Rep(): (r: seq<real>)
      reads this, m
      requires Valid()
      ensures |r| == 16
      ensures forall i, j :: 0 <= i < 3 && 0 <= j < 4 ==> r[RepIndex(i, j)] == m[i, j]
      ensures forall j :: 0 <= j < 4 ==> r[RepIndex(3, j)] == if j == 3 then 1.0 else 0.0
    {
      [m[0, 0], m[1, 0], m[2, 0], 0.0,
       m[0, 1], m[1, 1], m[2, 1], 0.0,
       m[0, 2], m[1, 2], m[2, 2], 0.0,
       m[0, 3], m[1, 3], m[2, 3], 1.0]
    }
  }
}
