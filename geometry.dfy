/**
 * Poses and intrinsics as the mesher stores and rebuilds them: a 4x4 rigid
 * transform is saved as its first three rows (12 values, row-major, the KITTI
 * layout), and a pinhole camera as the four values [fx, fy, cx, cy].
 */
module Geometry {
  import opened Common

  datatype Vec3 = Vec3(x: real, y: real, z: real)

  type Matrix = seq<seq<real>>

  predicate IsMatrix(m: Matrix, rows: nat, cols: nat) {
    |m| == rows && forall i :: 0 <= i < rows ==> |m[i]| == cols
  }

  type Matrix4 = m: Matrix | IsMatrix(m, 4, 4)
    witness [[1.0, 0.0, 0.0, 0.0], [0.0, 1.0, 0.0, 0.0], [0.0, 0.0, 1.0, 0.0], [0.0, 0.0, 0.0, 1.0]]

  const HomogeneousRow: seq<real> := [0.0, 0.0, 0.0, 1.0]

  function Transpose(m: Matrix, rows: nat, cols: nat): (t: Matrix)
    requires IsMatrix(m, rows, cols)
    ensures IsMatrix(t, cols, rows)
  {
    seq(cols, j requires 0 <= j < cols => seq(rows, i requires 0 <= i < rows => m[i][j]))
  }

  /** `T[:3].reshape(-1)`: the first three rows, concatenated. */
  function PoseRecord(m: Matrix4): (r: seq<real>)
    ensures |r| == 12
    ensures forall k :: 0 <= k < 12 ==> r[k] == m[k / 4][k % 4]
  {
    m[0] + m[1] + m[2]
  }

  /**
   * `np.array(v).reshape(3, 4)` followed by `np.vstack([_, [0, 0, 0, 1]])`;
   * numpy refuses the reshape unless `v` holds exactly 12 values.
   */
  function CompletePose(v: seq<real>): (r: Option<Matrix4>)
    ensures r.Some? <==> |v| == 12
    ensures r.Some? ==> r.value[3] == HomogeneousRow
    ensures r.Some? ==> forall i, j :: 0 <= i < 3 && 0 <= j < 4 ==> r.value[i][j] == v[4 * i + j]
  {
    if |v| != 12 then None
    else Some([v[0..4], v[4..8], v[8..12], HomogeneousRow])
  }

  /** Completing any 12-value record and storing it again gives back the record. */
  lemma RecordRoundTrip(v: seq<real>)
    requires |v| == 12
    ensures CompletePose(v).Some? && PoseRecord(CompletePose(v).value) == v
  {
    var m := CompletePose(v).value;
    assert m[0] + m[1] + m[2] == v[0..4] + v[4..8] + v[8..12];
    assert v[0..4] + v[4..8] + v[8..12] == v;
  }

  /**
   * Storing a pose and completing it again reproduces the pose exactly when
   * its bottom row was [0, 0, 0, 1]; otherwise that row is lost.
   */
  lemma PoseRoundTrip(m: Matrix4)
    ensures CompletePose(PoseRecord(m)) == Some(m) <==> m[3] == HomogeneousRow
  {
    var r := PoseRecord(m);
    var c := CompletePose(r).value;
    forall i | 0 <= i < 3 ensures c[i] == m[i] {
      forall j | 0 <= j < 4 ensures c[i][j] == m[i][j] {
        assert r[4 * i + j] == m[(4 * i + j) / 4][(4 * i + j) % 4];
      }
    }
    if m[3] == HomogeneousRow {
      assert c == m;
    }
  }

  /**
   * The camera matrix built from a frame's projection record,
   * `[[p0, 0, p2], [0, p1, p3], [0, 0, 1]]`; a record with fewer than four
   * entries makes the indexing fail.
   */
  function Intrinsics(p: seq<real>): (k: Option<Matrix>)
    ensures k.Some? <==> |p| >= 4
  {
    if |p| < 4 then None
    else Some([[p[0], 0.0, p[2]], [0.0, p[1], p[3]], [0.0, 0.0, 1.0]])
  }

  /** A 3x3 matrix applied to a column vector. */
  function MatVec3(m: Matrix, v: Vec3): (r: Vec3)
    requires IsMatrix(m, 3, 3)
  {
    Vec3(m[0][0] * v.x + m[0][1] * v.y + m[0][2] * v.z,
         m[1][0] * v.x + m[1][1] * v.y + m[1][2] * v.z,
         m[2][0] * v.x + m[2][1] * v.y + m[2][2] * v.z)
  }

  /**
   * The camera matrix is a pinhole projection: it maps a camera-frame point
   * (x, y, z) to (fx x + cx z, fy y + cy z, z), so dividing by z gives the
   * pixel (fx x / z + cx, fy y / z + cy).
   */
  lemma IntrinsicsProjects(p: seq<real>, v: Vec3)
    requires |p| >= 4
    ensures Intrinsics(p).Some? && IsMatrix(Intrinsics(p).value, 3, 3)
    ensures MatVec3(Intrinsics(p).value, v) == Vec3(p[0] * v.x + p[2] * v.z, p[1] * v.y + p[3] * v.z, v.z)
  {
  }

  /**
   * The four values kept from a camera's projection matrix P:
   * `[P.T[0,0], P.T[1,1], P.T[0,2], P.T[1,2]]`.
   */
  function ProjectionRecord(p: Matrix4): (r: seq<real>)
    ensures |r| == 4
    ensures var t := Transpose(p, 4, 4); r == [t[0][0], t[1][1], t[0][2], t[1][2]]
  {
    [p[0][0], p[1][1], p[2][0], p[2][1]]
  }

  /**
   * Open3D's `transform` of a point by a homogeneous matrix. For a matrix whose
   * bottom row is [0, 0, 0, 1] the homogeneous coordinate stays 1, so only the
   * first three rows take part.
   */
  function ApplyToPoint(m: Matrix4, p: Vec3): Vec3 {
    Vec3(m[0][0] * p.x + m[0][1] * p.y + m[0][2] * p.z + m[0][3],
         m[1][0] * p.x + m[1][1] * p.y + m[1][2] * p.z + m[1][3],
         m[2][0] * p.x + m[2][1] * p.y + m[2][2] * p.z + m[2][3])
  }

  /** Open3D's `transform` of a normal: only the rotation block acts on it. */
  function ApplyToNormal(m: Matrix4, n: Vec3): Vec3 {
    Vec3(m[0][0] * n.x + m[0][1] * n.y + m[0][2] * n.z,
         m[1][0] * n.x + m[1][1] * n.y + m[1][2] * n.z,
         m[2][0] * n.x + m[2][1] * n.y + m[2][2] * n.z)
  }

  const Identity4: Matrix4 := [[1.0, 0.0, 0.0, 0.0], [0.0, 1.0, 0.0, 0.0], [0.0, 0.0, 1.0, 0.0], HomogeneousRow]

  /** Entry (i, j) of the product of `a` and `b`. */
  function ProductEntry(a: Matrix4, b: Matrix4, i: nat, j: nat): real
    requires i < 4 && j < 4
  {
    a[i][0] * b[0][j] + a[i][1] * b[1][j] + a[i][2] * b[2][j] + a[i][3] * b[3][j]
  }

  /** The product of two 4x4 matrices: the pose of doing `b` first, then `a`. */
  function Compose(a: Matrix4, b: Matrix4): (c: Matrix4)
  {
    seq(4, i requires 0 <= i < 4 => seq(4, j requires 0 <= j < 4 => ProductEntry(a, b, i, j)))
  }

  /** Transforming by the identity pose leaves points and normals where they were. */
  lemma IdentityTransform(p: Vec3)
    ensures ApplyToPoint(Identity4, p) == p && ApplyToNormal(Identity4, p) == p
  {
  }

  /**
   * Transforming by `b` and then by `a` is transforming once by their
   * product, as long as `b` is a rigid-transform matrix (bottom row [0, 0, 0, 1]).
   */
  lemma ComposeTransforms(a: Matrix4, b: Matrix4, p: Vec3)
    requires b[3] == HomogeneousRow
    ensures ApplyToPoint(a, ApplyToPoint(b, p)) == ApplyToPoint(Compose(a, b), p)
    ensures ApplyToNormal(a, ApplyToNormal(b, p)) == ApplyToNormal(Compose(a, b), p)
  {
    var q, n, c := ApplyToPoint(b, p), ApplyToNormal(b, p), Compose(a, b);
    var lp, rp := ApplyToPoint(a, q), ApplyToPoint(c, p);
    var ln, rn := ApplyToNormal(a, n), ApplyToNormal(c, p);
    assert lp.x == rp.x && ln.x == rn.x by { ComposeRow(a, b, p, 0); }
    assert lp.y == rp.y && ln.y == rn.y by { ComposeRow(a, b, p, 1); }
    assert lp.z == rp.z && ln.z == rn.z by { ComposeRow(a, b, p, 2); }
  }

  /** Row `i` of the composition, for a point and for a normal. */
  lemma ComposeRow(a: Matrix4, b: Matrix4, p: Vec3, i: nat)
    requires b[3] == HomogeneousRow && i < 3
    ensures var q, n, c := ApplyToPoint(b, p), ApplyToNormal(b, p), Compose(a, b);
      && a[i][0] * q.x + a[i][1] * q.y + a[i][2] * q.z + a[i][3] == c[i][0] * p.x + c[i][1] * p.y + c[i][2] * p.z + c[i][3]
      && a[i][0] * n.x + a[i][1] * n.y + a[i][2] * n.z == c[i][0] * p.x + c[i][1] * p.y + c[i][2] * p.z
  {
    var c := Compose(a, b);
    assert c[i][0] == ProductEntry(a, b, i, 0) && c[i][1] == ProductEntry(a, b, i, 1);
    assert c[i][2] == ProductEntry(a, b, i, 2) && c[i][3] == ProductEntry(a, b, i, 3);
    assert b[3][0] == 0.0 && b[3][1] == 0.0 && b[3][2] == 0.0 && b[3][3] == 1.0;
    RowDistributes(a[i][0], a[i][1], a[i][2], a[i][3],
      b[0][0], b[0][1], b[0][2], b[0][3], b[1][0], b[1][1], b[1][2], b[1][3],
      b[2][0], b[2][1], b[2][2], b[2][3], p.x, p.y, p.z);
  }

  /** One row of `a` times a rigid `b` applied to (x, y, z, 1), multiplied out. */
  lemma RowDistributes(a0: real, a1: real, a2: real, a3: real,
                       b00: real, b01: real, b02: real, b03: real,
                       b10: real, b11: real, b12: real, b13: real,
                       b20: real, b21: real, b22: real, b23: real,
                       x: real, y: real, z: real)
    ensures a0 * (b00 * x + b01 * y + b02 * z + b03)
          + a1 * (b10 * x + b11 * y + b12 * z + b13)
          + a2 * (b20 * x + b21 * y + b22 * z + b23) + a3
         == (a0 * b00 + a1 * b10 + a2 * b20 + a3 * 0.0) * x
          + (a0 * b01 + a1 * b11 + a2 * b21 + a3 * 0.0) * y
          + (a0 * b02 + a1 * b12 + a2 * b22 + a3 * 0.0) * z
          + (a0 * b03 + a1 * b13 + a2 * b23 + a3 * 1.0)
    ensures a0 * (b00 * x + b01 * y + b02 * z)
          + a1 * (b10 * x + b11 * y + b12 * z)
          + a2 * (b20 * x + b21 * y + b22 * z)
         == (a0 * b00 + a1 * b10 + a2 * b20 + a3 * 0.0) * x
          + (a0 * b01 + a1 * b11 + a2 * b21 + a3 * 0.0) * y
          + (a0 * b02 + a1 * b12 + a2 * b22 + a3 * 0.0) * z
  {
  }
}
