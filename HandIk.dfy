/** The no-IK finger estimate: each finger's curl is read off the X Euler
    angle of its tip relative to its metacarpal, wrapped, normalised into
    [0, 1] and inverted; the thumb-metacarpal angle is appended. */
module HandIk {
  import opened Common
  import opened Matrix
  import Util

  /** Joint indices (into the 24 finger poses) of the five tips and of the
      five metacarpals they are measured against. */
  const TipIndices: seq<nat> := [3, 8, 13, 18, 23]
  const MetacarpalIndices: seq<nat> := [0, 4, 9, 14, 20]

  /** Rotation.from_matrix(r).as_euler('XYZ'): three intrinsic angles, or
      Err("ValueError") when the conversion rejects the matrix. */
  type EulerXyz = Mat3 -> Result<Vec3>

  /** (left_joints, combined_angles), six values each. */
  datatype HandJoints = HandJoints(left: seq<real>, right: seq<real>)

  /** Every tip expressed in the frame of its metacarpal; indexing past the
      end of the pose array raises IndexError. */
  function TipsRelativeToMetacarpals(right: seq<Mat4>): (r: Result<seq<Mat4>>)
    ensures r.Ok? <==> |right| >= 24
    ensures r.Err? ==> r.error == "IndexError"
    ensures r.Ok? ==> |r.value| == 5
  {
    if |right| < 24 then Err("IndexError")
    else Ok(seq(5, k requires 0 <= k < 5 =>
      Mul(Util.FastMatInv(right[MetacarpalIndices[k]]), right[TipIndices[k]])))
  }

  /** The five (metacarpal, tip) pairs, in finger order from the thumb. */
  lemma TipPairs(right: seq<Mat4>)
    requires |right| >= 24
    ensures var rel := TipsRelativeToMetacarpals(right).value;
      && rel[0] == Mul(Util.FastMatInv(right[0]), right[3])
      && rel[1] == Mul(Util.FastMatInv(right[4]), right[8])
      && rel[2] == Mul(Util.FastMatInv(right[9]), right[13])
      && rel[3] == Mul(Util.FastMatInv(right[14]), right[18])
      && rel[4] == Mul(Util.FastMatInv(right[20]), right[23])
  {
  }

  /** (a - 1.5) % (2 pi), with Python's sign-of-divisor modulo. */
  function Wrap(a: real): (r: real)
    ensures 0.0 <= r < 2.0 * Pi
  {
    FloatMod(a - 1.5, 2.0 * Pi)
  }

  /** Finger k's wrapped angle mapped so that the calibrated open/closed
      angles become 0 and 1: [3.0, 5.3] for the thumb, [0.4, 4.8] otherwise. */
  function Normalise(k: nat, a: real): real
  {
    if k == 0 then (a - 3.0) / (5.3 - 3.0) else (a - 0.4) / (4.8 - 0.4)
  }

  lemma NormaliseCalibration()
    ensures Normalise(0, 3.0) == 0.0 && Normalise(0, 5.3) == 1.0
    ensures forall k: nat | 1 <= k :: Normalise(k, 0.4) == 0.0 && Normalise(k, 4.8) == 1.0
  {
  }

  /** Whether every conversion the try-block performs succeeds. */
  predicate Converts(rel: seq<Mat4>, right: seq<Mat4>, euler: EulerXyz)
    requires |right| > 0
  {
    (forall k | 0 <= k < |rel| :: euler(Rotation(rel[k])).Ok?) && euler(Rotation(right[0])).Ok?
  }

  /** calculate_hand_joints_no_ik. Only the right-hand poses are read. */
  function CalculateHandJointsNoIk(left: seq<Mat4>, right: seq<Mat4>, euler: EulerXyz): (r: Result<HandJoints>)
    ensures r.Ok? <==> |right| >= 24
    ensures r.Err? ==> r.error == "IndexError"
    ensures r.Ok? ==> r.value.left == Zeros(6) && |r.value.right| == 6
    ensures r.Ok? ==> forall k | 0 <= k < 6 :: 0.0 <= r.value.right[k] <= 1.0
  {
    match TipsRelativeToMetacarpals(right)
    case Err(e) => Err(e)
    case Ok(rel) =>
      if !Converts(rel, right, euler) then Ok(HandJoints(Zeros(6), Zeros(6)))
      else
        var angles := seq(5, k requires 0 <= k < 5 => Normalise(k, Wrap(euler(Rotation(rel[k])).value.x)));
        var thumb := euler(Rotation(right[0])).value.y;
        var combined := ClipAll(angles + [thumb], 0.0, 1.0);
        Ok(HandJoints(Zeros(6), seq(6, k requires 0 <= k < 6 => if k < 5 then 1.0 - combined[k] else combined[k])))
  }

  /** The left-hand poses never influence the result. */
  lemma LeftPosesIgnored(left1: seq<Mat4>, left2: seq<Mat4>, right: seq<Mat4>, euler: EulerXyz)
    ensures CalculateHandJointsNoIk(left1, right, euler) == CalculateHandJointsNoIk(left2, right, euler)
  {
  }

  /** When a conversion raises ValueError both hands fall back to zeros. */
  lemma ValueErrorGivesZeros(left: seq<Mat4>, right: seq<Mat4>, euler: EulerXyz)
    requires |right| >= 24
    requires !Converts(TipsRelativeToMetacarpals(right).value, right, euler)
    ensures CalculateHandJointsNoIk(left, right, euler) == Ok(HandJoints(Zeros(6), Zeros(6)))
  {
  }

  /** Entries 0-4 are one minus the clipped normalised finger angle; entry 5
      is the clipped thumb-metacarpal Y angle, not inverted. */
  lemma FingerEntries(left: seq<Mat4>, right: seq<Mat4>, euler: EulerXyz)
    requires |right| >= 24
    requires Converts(TipsRelativeToMetacarpals(right).value, right, euler)
    ensures var out := CalculateHandJointsNoIk(left, right, euler).value.right;
      var rel := TipsRelativeToMetacarpals(right).value;
      && (forall k | 0 <= k < 5 ::
            out[k] == 1.0 - Clip(Normalise(k, Wrap(euler(Rotation(rel[k])).value.x)), 0.0, 1.0))
      && out[5] == Clip(euler(Rotation(right[0])).value.y, 0.0, 1.0)
  {
  }
}
