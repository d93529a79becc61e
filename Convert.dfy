/** Packing of a WebXR hand frame for the viewer: each hand becomes 25
    column-major 4x4 joint transforms (400 numbers), one per joint of the
    XRHandJoint list in the "Skeleton Joints" section of the W3C WebXR Hand
    Input Module - Level 1, laid out as XRRigidTransform.matrix of the WebXR
    Device API is (column-major). */
module Convert {
  import opened Common
  import opened Matrix

  /** The 25 hand joints, in skeleton order. */
  const JointOrder: seq<string> := [
    "wrist", "thumb-metacarpal", "thumb-phalanx-proximal", "thumb-phalanx-distal", "thumb-tip",
    "index-finger-metacarpal", "index-finger-phalanx-proximal", "index-finger-phalanx-intermediate", "index-finger-phalanx-distal", "index-finger-tip",
    "middle-finger-metacarpal", "middle-finger-phalanx-proximal", "middle-finger-phalanx-intermediate", "middle-finger-phalanx-distal", "middle-finger-tip",
    "ring-finger-metacarpal", "ring-finger-phalanx-proximal", "ring-finger-phalanx-intermediate", "ring-finger-phalanx-distal", "ring-finger-tip",
    "pinky-finger-metacarpal", "pinky-finger-phalanx-proximal", "pinky-finger-phalanx-intermediate", "pinky-finger-phalanx-distal", "pinky-finger-tip"]

  /** An orientation quaternion (x, y, z, w). */
  datatype Quat = Quat(x: real, y: real, z: real, w: real)

  /** One joint of the incoming frame. */
  datatype JointPose = JointPose(position: Vec3, orientation: Quat)

  /** One hand of the incoming frame: its tracked joints by name. */
  datatype HandJson = HandJson(joints: map<string, JointPose>)

  /** The incoming frame: the tracked hands by name. */
  datatype FrameJson = FrameJson(hands: map<string, HandJson>)

  /** The gesture record of one hand. */
  datatype HandState = HandState(pinch: bool, squeeze: bool, tap: bool, pinchValue: real, squeezeValue: real, tapValue: real)

  /** The converted frame; a hand not tracked is None. */
  datatype HandsOut = HandsOut(left: Option<seq<real>>, right: Option<seq<real>>, leftState: HandState, rightState: HandState)

  /** The rotation block of a quaternion, with the bottom row [0, 0, 0, 1]
      and a zero translation column, row-major. */
  function QuatMatrix(q: Quat): Mat4
  {
    [[1.0 - 2.0 * q.y * q.y - 2.0 * q.z * q.z, 2.0 * q.x * q.y - 2.0 * q.z * q.w, 2.0 * q.x * q.z + 2.0 * q.y * q.w, 0.0],
     [2.0 * q.x * q.y + 2.0 * q.z * q.w, 1.0 - 2.0 * q.x * q.x - 2.0 * q.z * q.z, 2.0 * q.y * q.z - 2.0 * q.x * q.w, 0.0],
     [2.0 * q.x * q.z - 2.0 * q.y * q.w, 2.0 * q.y * q.z + 2.0 * q.x * q.w, 1.0 - 2.0 * q.x * q.x - 2.0 * q.y * q.y, 0.0],
     [0.0, 0.0, 0.0, 1.0]]
  }

  /** m.T.flatten(): entry k is row k % 4 of column k / 4. */
  function ColumnMajor(m: Mat4): (r: seq<real>)
    ensures |r| == 16
    ensures forall k | 0 <= k < 16 :: r[k] == m[k % 4][k / 4]
  {
    seq(16, k requires 0 <= k < 16 => m[k % 4][k / 4])
  }

  /** The joint transform make_matrix produces. */
  function MatrixOf(pose: JointPose): (r: seq<real>)
    ensures |r| == 16
    ensures r[12] == pose.position.x && r[13] == pose.position.y && r[14] == pose.position.z
    ensures r[15] == 1.0
  {
    ColumnMajor(WithTranslation(QuatMatrix(pose.orientation), pose.position))
  }

  /** np.eye(4).T.flatten(): the block of a joint that is not tracked. */
  function IdentityBlock(): seq<real>
  {
    ColumnMajor(Identity())
  }

  /** A 4x4 array holding the entries of m. */
  ghost predicate Entries(a: array2<real>, m: Mat4)
    reads a
  {
    a.Length0 == 4 && a.Length1 == 4 && forall i, j | 0 <= i < 4 && 0 <= j < 4 :: a[i, j] == m[i][j]
  }

  /** make_matrix: the rotation block is filled in, the translation is
      written into column 3, and the matrix is read out column by column. */
  method MakeMatrix(pose: JointPose) returns (r: seq<real>)
    ensures r == MatrixOf(pose)
  {
    var q := pose.orientation;
    ghost var rotation := QuatMatrix(q);
    var rot := new real[4, 4]((i, j) requires 0 <= i < 4 && 0 <= j < 4 => QuatMatrix(q)[i][j]);
    assert Entries(rot, rotation);
    rot[0, 3] := pose.position.x;
    rot[1, 3] := pose.position.y;
    rot[2, 3] := pose.position.z;
    ghost var m := WithTranslation(rotation, pose.position);
    assert Entries(rot, m);
    r := [];
    for k := 0 to 16
      invariant |r| == k
      invariant forall i | 0 <= i < k :: r[i] == m[i % 4][i / 4]
    {
      r := r + [rot[k % 4, k / 4]];
    }
    assert r == ColumnMajor(m);
  }

  /** Entries 12, 13 and 14 are the position, entries 3, 7 and 11 are zero
      and entry 15 is one; entry 4j + i is row i of column j of the rotation. */
  lemma MatrixLayout(pose: JointPose)
    ensures |MatrixOf(pose)| == 16
    ensures var r := MatrixOf(pose);
      && r[12] == pose.position.x && r[13] == pose.position.y && r[14] == pose.position.z
      && r[3] == 0.0 && r[7] == 0.0 && r[11] == 0.0 && r[15] == 1.0
    ensures forall i, j | 0 <= i < 3 && 0 <= j < 3 :: MatrixOf(pose)[4 * j + i] == QuatMatrix(pose.orientation)[i][j]
  {
    var r := MatrixOf(pose);
    assert r[12] == WithTranslation(QuatMatrix(pose.orientation), pose.position)[0][3];
    assert r[13] == WithTranslation(QuatMatrix(pose.orientation), pose.position)[1][3];
    assert r[14] == WithTranslation(QuatMatrix(pose.orientation), pose.position)[2][3];
    forall i, j | 0 <= i < 3 && 0 <= j < 3
      ensures MatrixOf(pose)[4 * j + i] == QuatMatrix(pose.orientation)[i][j]
    {
      assert (4 * j + i) % 4 == i && (4 * j + i) / 4 == j;
    }
  }

  /** The quaternion (0, 0, 0, 1) gives the identity rotation, so a joint at
      the origin with it is the identity block. */
  lemma IdentityQuaternion(position: Vec3)
    ensures QuatMatrix(Quat(0.0, 0.0, 0.0, 1.0)) == Identity()
    ensures MatrixOf(JointPose(Vec3(0.0, 0.0, 0.0), Quat(0.0, 0.0, 0.0, 1.0))) == IdentityBlock()
  {
    Ext(QuatMatrix(Quat(0.0, 0.0, 0.0, 1.0)), Identity());
    var m := WithTranslation(Identity(), Vec3(0.0, 0.0, 0.0));
    Ext(m, Identity());
  }

  /** q and -q describe the same rotation and give the same matrix. */
  lemma QuaternionSign(pose: JointPose)
    ensures var q := pose.orientation;
      MatrixOf(JointPose(pose.position, Quat(-q.x, -q.y, -q.z, -q.w))) == MatrixOf(pose)
  {
    var q := pose.orientation;
    NegPair(q.x, q.y); NegPair(q.z, q.w); NegPair(q.x, q.z); NegPair(q.y, q.w);
    NegPair(q.x, q.x); NegPair(q.y, q.y); NegPair(q.z, q.z); NegPair(q.y, q.z); NegPair(q.x, q.w);
    Ext(QuatMatrix(Quat(-q.x, -q.y, -q.z, -q.w)), QuatMatrix(q));
  }

  lemma NegPair(a: real, b: real)
    ensures 2.0 * (-a) * (-b) == 2.0 * a * b
  {
  }

  /** The conjugate quaternion gives the transposed (inverse) rotation. */
  lemma ConjugateTransposes(q: Quat)
    ensures forall i, j | 0 <= i < 3 && 0 <= j < 3 :: QuatMatrix(Quat(-q.x, -q.y, -q.z, q.w))[i][j] == QuatMatrix(q)[j][i]
  {
    var x, y, z, w := q.x, q.y, q.z, q.w;
    var c, m := QuatMatrix(Quat(-x, -y, -z, w)), QuatMatrix(q);
    NegPair(x, x); NegPair(y, y); NegPair(z, z);
    NegPair(x, y); NegPair(x, z); NegPair(y, z);
    assert c[0][0] == m[0][0] && c[1][1] == m[1][1] && c[2][2] == m[2][2];
    assert c[0][1] == m[1][0] && c[1][0] == m[0][1];
    assert c[0][2] == m[2][0] && c[2][0] == m[0][2];
    assert c[1][2] == m[2][1] && c[2][1] == m[1][2];
  }

  /** |q|^2. */
  function Norm2(q: Quat): real
  {
    q.x * q.x + q.y * q.y + q.z * q.z + q.w * q.w
  }

  predicate Unit(q: Quat)
  {
    Norm2(q) == 1.0
  }

  /** (2(pa - qb))^2 + (2(pb + qa))^2 = 4 (p^2 + q^2)(a^2 + b^2). */
  lemma TwoSquares(p: real, q: real, a: real, b: real)
    ensures (2.0 * (p * a - q * b)) * (2.0 * (p * a - q * b)) + (2.0 * (p * b + q * a)) * (2.0 * (p * b + q * a))
         == 4.0 * (p * p + q * q) * (a * a + b * b)
  {
  }

  /** A row (1 - 2s, e1, e2) with e1^2 + e2^2 = 4ts and s + t = 1 has
      length 1. */
  lemma RowLength(d: real, e1: real, e2: real, s: real, t: real)
    requires d == 1.0 - 2.0 * s && e1 * e1 + e2 * e2 == 4.0 * t * s && s + t == 1.0
    ensures d * d + e1 * e1 + e2 * e2 == 1.0
  {
    assert d * d == 1.0 - 4.0 * s + 4.0 * s * s;
    assert 4.0 * s * s + 4.0 * t * s == 4.0 * s * (s + t);
  }

  /** Row 0 of QuatMatrix has length 1 for a unit
      quaternion. */
  lemma Row0Length(x: real, y: real, z: real, w: real)
    requires x * x + y * y + z * z + w * w == 1.0
    ensures (1.0 - 2.0 * y * y - 2.0 * z * z) * (1.0 - 2.0 * y * y - 2.0 * z * z)
      + (2.0 * x * y - 2.0 * z * w) * (2.0 * x * y - 2.0 * z * w)
      + (2.0 * x * z + 2.0 * y * w) * (2.0 * x * z + 2.0 * y * w) == 1.0
  {
    TwoSquares(x, w, y, z);
    RowLength(1.0 - 2.0 * y * y - 2.0 * z * z, 2.0 * x * y - 2.0 * z * w, 2.0 * x * z + 2.0 * y * w, y * y + z * z, x * x + w * w);
  }

  /** Row 1 of QuatMatrix has length 1 for a unit
      quaternion. */
  lemma Row1Length(x: real, y: real, z: real, w: real)
    requires x * x + y * y + z * z + w * w == 1.0
    ensures (2.0 * x * y + 2.0 * z * w) * (2.0 * x * y + 2.0 * z * w)
      + (1.0 - 2.0 * x * x - 2.0 * z * z) * (1.0 - 2.0 * x * x - 2.0 * z * z)
      + (2.0 * y * z - 2.0 * x * w) * (2.0 * y * z - 2.0 * x * w) == 1.0
  {
    TwoSquares(y, w, x, -z);
    var e := 2.0 * (y * (-z) + w * x);
    var c := 2.0 * y * z - 2.0 * x * w;
    assert c * c == e * e;
    RowLength(1.0 - 2.0 * x * x - 2.0 * z * z, 2.0 * x * y + 2.0 * z * w, e, x * x + z * z, y * y + w * w);
  }

  /** Row 2 of QuatMatrix has length 1 for a unit
      quaternion. */
  lemma Row2Length(x: real, y: real, z: real, w: real)
    requires x * x + y * y + z * z + w * w == 1.0
    ensures (2.0 * x * z - 2.0 * y * w) * (2.0 * x * z - 2.0 * y * w)
      + (2.0 * y * z + 2.0 * x * w) * (2.0 * y * z + 2.0 * x * w)
      + (1.0 - 2.0 * x * x - 2.0 * y * y) * (1.0 - 2.0 * x * x - 2.0 * y * y) == 1.0
  {
    TwoSquares(z, w, x, y);
    RowLength(1.0 - 2.0 * x * x - 2.0 * y * y, 2.0 * x * z - 2.0 * y * w, 2.0 * y * z + 2.0 * x * w, x * x + y * y, z * z + w * w);
  }

  /** The dot product of rows 0 and 1 of QuatMatrix, expanded. */
  lemma Rows01Dot(x: real, y: real, z: real, w: real)
    ensures (1.0 - 2.0 * y * y - 2.0 * z * z) * (2.0 * x * y + 2.0 * z * w)
      + (2.0 * x * y - 2.0 * z * w) * (1.0 - 2.0 * x * x - 2.0 * z * z)
      + (2.0 * x * z + 2.0 * y * w) * (2.0 * y * z - 2.0 * x * w)
      == 4.0 * x * y * (1.0 - (x * x + y * y + z * z + w * w))
  {
  }

  /** The dot product of rows 0 and 2 of QuatMatrix, expanded. */
  lemma Rows02Dot(x: real, y: real, z: real, w: real)
    ensures (1.0 - 2.0 * y * y - 2.0 * z * z) * (2.0 * x * z - 2.0 * y * w)
      + (2.0 * x * y - 2.0 * z * w) * (2.0 * y * z + 2.0 * x * w)
      + (2.0 * x * z + 2.0 * y * w) * (1.0 - 2.0 * x * x - 2.0 * y * y)
      == 4.0 * x * z * (1.0 - (x * x + y * y + z * z + w * w))
  {
  }

  /** The dot product of rows 1 and 2 of QuatMatrix, expanded. */
  lemma Rows12Dot(x: real, y: real, z: real, w: real)
    ensures (2.0 * x * y + 2.0 * z * w) * (2.0 * x * z - 2.0 * y * w)
      + (1.0 - 2.0 * x * x - 2.0 * z * z) * (2.0 * y * z + 2.0 * x * w)
      + (2.0 * y * z - 2.0 * x * w) * (1.0 - 2.0 * x * x - 2.0 * y * y)
      == 4.0 * y * z * (1.0 - (x * x + y * y + z * z + w * w))
  {
  }

  /** Rows 0 and 1 of QuatMatrix are orthogonal for a unit quaternion. */
  lemma Rows01Zero(x: real, y: real, z: real, w: real)
    requires x * x + y * y + z * z + w * w == 1.0
    ensures (1.0 - 2.0 * y * y - 2.0 * z * z) * (2.0 * x * y + 2.0 * z * w)
      + (2.0 * x * y - 2.0 * z * w) * (1.0 - 2.0 * x * x - 2.0 * z * z)
      + (2.0 * x * z + 2.0 * y * w) * (2.0 * y * z - 2.0 * x * w)
      == 0.0
  {
    Rows01Dot(x, y, z, w);
    ZeroScaled(4.0 * x * y, x * x + y * y + z * z + w * w);
  }

  /** Rows 0 and 2 of QuatMatrix are orthogonal for a unit quaternion. */
  lemma Rows02Zero(x: real, y: real, z: real, w: real)
    requires x * x + y * y + z * z + w * w == 1.0
    ensures (1.0 - 2.0 * y * y - 2.0 * z * z) * (2.0 * x * z - 2.0 * y * w)
      + (2.0 * x * y - 2.0 * z * w) * (2.0 * y * z + 2.0 * x * w)
      + (2.0 * x * z + 2.0 * y * w) * (1.0 - 2.0 * x * x - 2.0 * y * y)
      == 0.0
  {
    Rows02Dot(x, y, z, w);
    ZeroScaled(4.0 * x * z, x * x + y * y + z * z + w * w);
  }

  /** Rows 1 and 2 of QuatMatrix are orthogonal for a unit quaternion. */
  lemma Rows12Zero(x: real, y: real, z: real, w: real)
    requires x * x + y * y + z * z + w * w == 1.0
    ensures (2.0 * x * y + 2.0 * z * w) * (2.0 * x * z - 2.0 * y * w)
      + (1.0 - 2.0 * x * x - 2.0 * z * z) * (2.0 * y * z + 2.0 * x * w)
      + (2.0 * y * z - 2.0 * x * w) * (1.0 - 2.0 * x * x - 2.0 * y * y)
      == 0.0
  {
    Rows12Dot(x, y, z, w);
    ZeroScaled(4.0 * y * z, x * x + y * y + z * z + w * w);
  }

  /** c (1 - s) vanishes when s is 1. */
  lemma ZeroScaled(c: real, s: real)
    requires s == 1.0
    ensures c * (1.0 - s) == 0.0
  {
  }

  /** The rows of the rotation block of QuatMatrix, written out as
      polynomials in the components of a unit quaternion, are orthonormal:
      each has length 1 and any two are orthogonal. */
  lemma QuatRowsOrthonormal(x: real, y: real, z: real, w: real)
    requires x * x + y * y + z * z + w * w == 1.0
    ensures (1.0 - 2.0 * y * y - 2.0 * z * z) * (1.0 - 2.0 * y * y - 2.0 * z * z) + (2.0 * x * y - 2.0 * z * w) * (2.0 * x * y - 2.0 * z * w) + (2.0 * x * z + 2.0 * y * w) * (2.0 * x * z + 2.0 * y * w) == 1.0
    ensures (2.0 * x * y + 2.0 * z * w) * (2.0 * x * y + 2.0 * z * w) + (1.0 - 2.0 * x * x - 2.0 * z * z) * (1.0 - 2.0 * x * x - 2.0 * z * z) + (2.0 * y * z - 2.0 * x * w) * (2.0 * y * z - 2.0 * x * w) == 1.0
    ensures (2.0 * x * z - 2.0 * y * w) * (2.0 * x * z - 2.0 * y * w) + (2.0 * y * z + 2.0 * x * w) * (2.0 * y * z + 2.0 * x * w) + (1.0 - 2.0 * x * x - 2.0 * y * y) * (1.0 - 2.0 * x * x - 2.0 * y * y) == 1.0
    ensures (1.0 - 2.0 * y * y - 2.0 * z * z) * (2.0 * x * y + 2.0 * z * w) + (2.0 * x * y - 2.0 * z * w) * (1.0 - 2.0 * x * x - 2.0 * z * z) + (2.0 * x * z + 2.0 * y * w) * (2.0 * y * z - 2.0 * x * w) == 0.0
    ensures (1.0 - 2.0 * y * y - 2.0 * z * z) * (2.0 * x * z - 2.0 * y * w) + (2.0 * x * y - 2.0 * z * w) * (2.0 * y * z + 2.0 * x * w) + (2.0 * x * z + 2.0 * y * w) * (1.0 - 2.0 * x * x - 2.0 * y * y) == 0.0
    ensures (2.0 * x * y + 2.0 * z * w) * (2.0 * x * z - 2.0 * y * w) + (1.0 - 2.0 * x * x - 2.0 * z * z) * (2.0 * y * z + 2.0 * x * w) + (2.0 * y * z - 2.0 * x * w) * (1.0 - 2.0 * x * x - 2.0 * y * y) == 0.0
  {
    Row0Length(x, y, z, w);
    Row1Length(x, y, z, w);
    Row2Length(x, y, z, w);
    Rows01Zero(x, y, z, w);
    Rows02Zero(x, y, z, w);
    Rows12Zero(x, y, z, w);
  }

  /** The block of one joint: its transform, or the identity when the frame
      does not track it. */
  function Block(hand: HandJson, joint: string): (r: seq<real>)
    ensures |r| == 16
  {
    if joint in hand.joints then MatrixOf(hand.joints[joint]) else IdentityBlock()
  }

  /** Concatenation of a list of blocks. */
  function Concat(blocks: seq<seq<real>>): seq<real>
  {
    if blocks == [] then [] else Concat(blocks[..|blocks| - 1]) + blocks[|blocks| - 1]
  }

  /** Blocks of sixteen concatenate to 16n entries, block k at 16k. */
  lemma {:induction false} ConcatBlocks(blocks: seq<seq<real>>)
    requires forall k | 0 <= k < |blocks| :: |blocks[k]| == 16
    ensures |Concat(blocks)| == 16 * |blocks|
    ensures forall k | 0 <= k < |blocks| :: Concat(blocks)[16 * k .. 16 * k + 16] == blocks[k]
  {
    if blocks != [] {
      var n := |blocks| - 1;
      ConcatBlocks(blocks[..n]);
      assert Concat(blocks) == Concat(blocks[..n]) + blocks[n];
      forall k | 0 <= k < |blocks|
        ensures Concat(blocks)[16 * k .. 16 * k + 16] == blocks[k]
      {
        if k < n {
          assert Concat(blocks)[16 * k .. 16 * k + 16] == Concat(blocks[..n])[16 * k .. 16 * k + 16];
        }
      }
    }
  }

  /** The blocks of a hand, in joint order. */
  function Blocks(hand: HandJson): (r: seq<seq<real>>)
    ensures |r| == |JointOrder|
    ensures forall k | 0 <= k < |JointOrder| :: r[k] == Block(hand, JointOrder[k])
  {
    seq(|JointOrder|, k requires 0 <= k < |JointOrder| => Block(hand, JointOrder[k]))
  }

  /** convert_hand's result. */
  function HandArray(hand: HandJson): seq<real>
  {
    Concat(Blocks(hand))
  }

  /** 25 * 16 = 400 values; values 16k to 16k + 15 are joint k's block, the
      identity for a joint the frame does not track. */
  lemma HandArrayLayout(hand: HandJson)
    ensures |HandArray(hand)| == 400
    ensures forall k | 0 <= k < 25 :: HandArray(hand)[16 * k .. 16 * k + 16] == Block(hand, JointOrder[k])
    ensures forall k | 0 <= k < 25 && JointOrder[k] !in hand.joints :: HandArray(hand)[16 * k .. 16 * k + 16] == IdentityBlock()
  {
    ConcatBlocks(Blocks(hand));
  }

  /** convert_hand: one block per joint, appended in joint order. */
  method ConvertHand(hand: HandJson) returns (r: seq<real>)
    ensures r == HandArray(hand)
  {
    var matrices: seq<seq<real>> := [];
    for k := 0 to |JointOrder|
      invariant |matrices| == k
      invariant forall i | 0 <= i < k :: matrices[i] == Block(hand, JointOrder[i])
    {
      var joint := JointOrder[k];
      var mat;
      if joint in hand.joints {
        mat := MakeMatrix(hand.joints[joint]);
      } else {
        mat := IdentityBlock();
      }
      matrices := matrices + [mat];
    }
    assert matrices == Blocks(hand);
    r := Concat(matrices);
  }

  /** The fixed gesture record: nothing pressed, every value 0. */
  const IdleState: HandState := HandState(false, false, false, 0.0, 0.0, 0.0)

  /** convert's result. */
  function ConvertOf(data: FrameJson): (r: HandsOut)
    ensures r.left.Some? <==> "left" in data.hands
    ensures r.right.Some? <==> "right" in data.hands
    ensures r.leftState == IdleState && r.rightState == IdleState
  {
    HandsOut(
      if "left" in data.hands then Some(HandArray(data.hands["left"])) else None,
      if "right" in data.hands then Some(HandArray(data.hands["right"])) else None,
      IdleState, IdleState)
  }

  /** A hand the frame does not carry stays None, a carried hand becomes 400
      values, and both gesture records are always idle. */
  lemma ConvertFacts(data: FrameJson)
    ensures var out := ConvertOf(data);
      && (out.left.Some? <==> "left" in data.hands)
      && (out.right.Some? <==> "right" in data.hands)
      && (out.left.Some? ==> |out.left.value| == 400)
      && (out.right.Some? ==> |out.right.value| == 400)
      && out.leftState == IdleState && out.rightState == IdleState
      && !out.leftState.pinch && !out.leftState.squeeze && !out.leftState.tap
      && out.leftState.pinchValue == 0.0 && out.rightState.tapValue == 0.0
  {
    if "left" in data.hands {
      HandArrayLayout(data.hands["left"]);
    }
    if "right" in data.hands {
      HandArrayLayout(data.hands["right"]);
    }
  }

  /** convert: starts with both hands None and idle gesture records, then
      fills in each tracked hand, left first. */
  method ConvertFrame(data: FrameJson) returns (out: HandsOut)
    ensures out == ConvertOf(data)
  {
    out := HandsOut(None, None, IdleState, IdleState);
    var names := ["left", "right"];
    for i := 0 to 2
      invariant i >= 1 ==> out.left == ConvertOf(data).left
      invariant i < 1 ==> out.left == None
      invariant i >= 2 ==> out.right == ConvertOf(data).right
      invariant i < 2 ==> out.right == None
      invariant out.leftState == IdleState && out.rightState == IdleState
    {
      var hand := names[i];
      if hand in data.hands {
        var values := ConvertHand(data.hands[hand]);
        if i == 0 {
          out := out.(left := Some(values));
        } else {
          out := out.(right := Some(values));
        }
      }
    }
  }
}
