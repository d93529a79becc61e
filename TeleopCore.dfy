/** The hand/controller teleoperation core: it keeps the latest wrist or
    controller pose of each side, the trigger values and the finger poses,
    and turns them into two 6-element arm commands (five arm joints plus a
    gripper) and two 6-element finger commands. The arm solver, the vector
    norm and the Euler conversion are parameters. */
module TeleopCore {
  import opened Common
  import opened Matrix
  import HandIk

  /** The solver: a list of target poses (right first) to a joint vector. */
  type Ik = seq<Mat4> -> seq<real>

  /** np.linalg.norm of a 3-vector. */
  type Norm = Vec3 -> real

  /** np.eye(4) with translation (0, 0, 0.25): robot base to head. */
  const BaseToHead: Mat4 :=
    [[1.0, 0.0, 0.0, 0.0], [0.0, 1.0, 0.0, 0.0], [0.0, 0.0, 1.0, 0.25], [0.0, 0.0, 0.0, 1.0]]

  /** The axis permutation used for the default wrist orientation. */
  const DefaultWristRotation: Mat3 := [[0.0, 0.0, -1.0], [-1.0, 0.0, 0.0], [0.0, 1.0, 0.0]]

  /** Lowest target height handed to the solver. */
  const MinTargetZ: real := -0.2

  /** Full gripper opening, reached with the trigger released. */
  const GripperOpen: real := 0.068

  /** Thumb-to-index spacing at which the gripper is fully open. */
  const FullSpacing: real := 0.15

  /** target[2, 3] = max(target[2, 3], -0.2). */
  function ClampZ(t: Mat4): (r: Mat4)
    ensures r[2][3] >= MinTargetZ
    ensures t[2][3] >= MinTargetZ ==> r == t
    ensures t[2][3] < MinTargetZ ==> r[2][3] == MinTargetZ
    ensures forall i, j | 0 <= i < 4 && 0 <= j < 4 && (i, j) != (2, 3) :: r[i][j] == t[i][j]
  {
    var r := Set(t, 2, 3, Max(t[2][3], MinTargetZ));
    assert t[2][3] >= MinTargetZ ==> r == t by {
      if t[2][3] >= MinTargetZ {
        Ext(r, t);
      }
    }
    r
  }

  /** The solver target for one wrist pose: base_to_head @ pose, z clamped. */
  function HandTarget(pose: Mat4): (r: Mat4)
    ensures r[2][3] >= MinTargetZ
    ensures forall i, j | 0 <= i < 4 && 0 <= j < 4 && (i, j) != (2, 3) :: r[i][j] == Mul(BaseToHead, pose)[i][j]
  {
    ClampZ(Mul(BaseToHead, pose))
  }

  /** For a pose with bottom row [0, 0, 0, 1], base_to_head @ pose is the
      pose raised by 0.25. */
  lemma BaseToHeadRaises(pose: Mat4)
    requires Homogeneous(pose)
    ensures Mul(BaseToHead, pose) == WithTranslation(pose, Vec3(pose[0][3], pose[1][3], pose[2][3] + 0.25))
  {
    var p := Mul(BaseToHead, pose);
    var q := WithTranslation(pose, Vec3(pose[0][3], pose[1][3], pose[2][3] + 0.25));
    forall i, j | 0 <= i < 4 && 0 <= j < 4
      ensures p[i][j] == q[i][j]
    {
      assert pose[3][j] == Delta(3, j);
    }
    Ext(p, q);
  }

  /** The gripper joint from a trigger value: 1.0 (pressed) closes it. */
  function GripperFromTrigger(v: real): (r: real)
    ensures v == 0.0 ==> r == GripperOpen
    ensures v == 1.0 ==> r == 0.0
    ensures 0.0 <= v <= 1.0 <==> 0.0 <= r <= GripperOpen
  {
    GripperOpen * (1.0 - v)
  }

  /** The gripper joint from the thumb-tip to index-tip spacing. */
  function GripperFromSpacing(spacing: real): (r: real)
    ensures 0.0 <= r <= GripperOpen
    ensures spacing >= FullSpacing ==> r == GripperOpen
    ensures spacing <= 0.0 ==> r == 0.0
    ensures 0.0 <= spacing <= FullSpacing ==> r == GripperOpen * spacing / FullSpacing
  {
    GripperOpen * Clip(spacing / FullSpacing, 0.0, 1.0)
  }

  /** norm(fingers[8, :3, 3] - fingers[3, :3, 3]); fewer than nine poses is
      an IndexError. */
  function FingerSpacing(fingers: seq<Mat4>, norm: Norm): (r: Result<real>)
    ensures r.Ok? <==> |fingers| >= 9
    ensures r.Err? ==> r.error == "IndexError"
  {
    if |fingers| < 9 then Err("IndexError")
    else Ok(norm(Sub(Translation(fingers[8]), Translation(fingers[3]))))
  }

  /** Everything the core remembers between calls. */
  datatype Teleop = Teleop(
    head: Mat4,
    rightFingers: seq<Mat4>,
    leftFingers: seq<Mat4>,
    rightWrist: Mat4,
    leftWrist: Mat4,
    rightGripper: real,
    leftGripper: real,
    useFingers: bool)

  /** A default wrist pose: the fixed rotation at the given position. */
  function DefaultPose(t: Vec3): (r: Mat4)
    ensures Homogeneous(r) && Translation(r) == t && Rotation(r) == DefaultWristRotation
  {
    Rigid(DefaultWristRotation, t)
  }

  /** The state before any update. */
  function Initial(): (s: Teleop)
    ensures Translation(s.leftWrist) == Vec3(0.2, 0.2, -0.4)
    ensures Translation(s.rightWrist) == Vec3(0.2, -0.2, -0.4)
    ensures |s.rightFingers| == 24 && |s.leftFingers| == 24
    ensures s.head == Identity()
    ensures forall k | 0 <= k < 24 :: s.rightFingers[k] == Zero() && s.leftFingers[k] == Zero()
    ensures s.rightGripper == 0.0 && s.leftGripper == 0.0 && !s.useFingers
  {
    Teleop(Identity(), seq(24, _ => Zero()), seq(24, _ => Zero()),
      DefaultPose(Vec3(0.2, -0.2, -0.4)), DefaultPose(Vec3(0.2, 0.2, -0.4)), 0.0, 0.0, false)
  }

  /** The two gripper joints (right, left), from finger spacing in hand mode
      and from the triggers in controller mode. */
  function Grippers(s: Teleop, norm: Norm): (r: Result<(real, real)>)
    ensures !s.useFingers ==> r == Ok((GripperFromTrigger(s.rightGripper), GripperFromTrigger(s.leftGripper)))
    ensures s.useFingers ==> (r.Ok? <==> |s.rightFingers| >= 9 && |s.leftFingers| >= 9)
    ensures s.useFingers && r.Ok? ==> 0.0 <= r.value.0 <= GripperOpen && 0.0 <= r.value.1 <= GripperOpen
  {
    if s.useFingers then
      match FingerSpacing(s.rightFingers, norm)
      case Err(e) => Err(e)
      case Ok(right) =>
        match FingerSpacing(s.leftFingers, norm)
        case Err(e) => Err(e)
        case Ok(left) => Ok((GripperFromSpacing(right), GripperFromSpacing(left)))
    else
      Ok((GripperFromTrigger(s.rightGripper), GripperFromTrigger(s.leftGripper)))
  }

  /** Controller-mode finger command before clipping: the trigger value on
      the five fingers and 1 on the thumb metacarpal. */
  function ControllerFingers(g: real): (r: seq<real>)
    ensures |r| == 6 && r[5] == 1.0
    ensures forall k | 0 <= k < 5 :: r[k] == g
  {
    [g, g, g, g, g, 1.0]
  }

  /** The finger commands (right, left) before clipping. */
  function Fingers(s: Teleop, euler: HandIk.EulerXyz): (r: Result<(seq<real>, seq<real>)>)
    ensures !s.useFingers ==> r == Ok((ControllerFingers(s.rightGripper), ControllerFingers(s.leftGripper)))
    ensures s.useFingers ==> (r.Ok? <==> |s.rightFingers| >= 24)
    ensures r.Ok? ==> |r.value.0| == 6 && |r.value.1| == 6
  {
    if s.useFingers then
      match HandIk.CalculateHandJointsNoIk(s.leftFingers, s.rightFingers, euler)
      case Err(e) => Err(e)
      case Ok(h) => Ok((h.right, h.left))
    else
      Ok((ControllerFingers(s.rightGripper), ControllerFingers(s.leftGripper)))
  }

  /** The return value of compute_joint_angles. */
  datatype JointCommands = JointCommands(
    rightArm: seq<real>,
    leftArm: seq<real>,
    rightFingers: seq<real>,
    leftFingers: seq<real>)

  /** The solver input: the right target first, then the left. */
  function IkInput(s: Teleop): (r: seq<Mat4>)
    ensures |r| == 2 && r[0][2][3] >= MinTargetZ && r[1][2][3] >= MinTargetZ
  {
    [HandTarget(s.rightWrist), HandTarget(s.leftWrist)]
  }

  /** compute_joint_angles as a function of the state. */
  function JointAngles(s: Teleop, ik: Ik, norm: Norm, euler: HandIk.EulerXyz): (r: Result<JointCommands>)
    ensures r.Err? <==> s.useFingers && (|s.rightFingers| < 24 || |s.leftFingers| < 9)
    ensures r.Err? ==> r.error == "IndexError"
    ensures r.Ok? ==> |r.value.rightFingers| == 6 && |r.value.leftFingers| == 6
    ensures r.Ok? ==> forall k | 0 <= k < 6 :: 0.0 <= r.value.rightFingers[k] <= 1.0 && 0.0 <= r.value.leftFingers[k] <= 1.0
  {
    var joints := ik(IkInput(s));
    match Grippers(s, norm)
    case Err(e) => Err(e)
    case Ok(g) =>
      match Fingers(s, euler)
      case Err(e) => Err(e)
      case Ok(f) =>
        Ok(JointCommands(Take(joints, 5) + [g.0], Drop(joints, 5) + [g.1],
          ClipAll(f.0, 0.0, 1.0), ClipAll(f.1, 0.0, 1.0)))
  }

  /** With a 10-element solution, each arm command is that side's five joints
      (right = first half, left = second half) followed by its gripper. */
  lemma ArmSplit(s: Teleop, ik: Ik, norm: Norm, euler: HandIk.EulerXyz)
    requires |ik(IkInput(s))| == 10
    requires JointAngles(s, ik, norm, euler).Ok?
    ensures var joints := ik(IkInput(s));
      var c := JointAngles(s, ik, norm, euler).value;
      var g := Grippers(s, norm).value;
      && |c.rightArm| == 6 && |c.leftArm| == 6
      && c.rightArm[..5] == joints[..5] && c.rightArm[5] == g.0
      && c.leftArm[..5] == joints[5..] && c.leftArm[5] == g.1
  {
  }

  /** In controller mode the fingers follow the trigger on all five digits
      and hold the thumb metacarpal at 1, clipped into [0, 1]. */
  lemma ControllerModeFingers(s: Teleop, ik: Ik, norm: Norm, euler: HandIk.EulerXyz)
    requires !s.useFingers
    ensures var r := JointAngles(s, ik, norm, euler);
      && r.Ok?
      && r.value.rightFingers[5] == 1.0 && r.value.leftFingers[5] == 1.0
      && (forall k | 0 <= k < 5 :: r.value.rightFingers[k] == Clip(s.rightGripper, 0.0, 1.0))
      && (forall k | 0 <= k < 5 :: r.value.leftFingers[k] == Clip(s.leftGripper, 0.0, 1.0))
  {
  }

  /** In hand mode the left fingers are all zero and the right fingers are
      the hand estimate, which is already within [0, 1]. */
  lemma HandModeFingers(s: Teleop, ik: Ik, norm: Norm, euler: HandIk.EulerXyz)
    requires s.useFingers
    requires JointAngles(s, ik, norm, euler).Ok?
    ensures var c := JointAngles(s, ik, norm, euler).value;
      && c.leftFingers == Zeros(6)
      && c.rightFingers == HandIk.CalculateHandJointsNoIk(s.leftFingers, s.rightFingers, euler).value.right
  {
    var h := HandIk.CalculateHandJointsNoIk(s.leftFingers, s.rightFingers, euler).value;
    var c := JointAngles(s, ik, norm, euler).value;
    assert c.rightFingers == h.right by {
      assert forall k | 0 <= k < 6 :: Clip(h.right[k], 0.0, 1.0) == h.right[k];
    }
  }

  /** The stateful core: its fields are the attributes the update methods
      assign. */
  class TeleopCore {
    var headMatrix: Mat4
    var rightFingerPoses: seq<Mat4>
    var leftFingerPoses: seq<Mat4>
    var rightWristPose: Mat4
    var leftWristPose: Mat4
    var rightGripperValue: real
    var leftGripperValue: real
    var useFingers: bool

    function State(): Teleop
      reads this
    {
      Teleop(headMatrix, rightFingerPoses, leftFingerPoses, rightWristPose, leftWristPose,
        rightGripperValue, leftGripperValue, useFingers)
    }

    constructor()
      ensures State() == Initial()
    {
      headMatrix := Identity();
      rightFingerPoses := seq(24, _ => Zero());
      leftFingerPoses := seq(24, _ => Zero());
      rightWristPose := DefaultPose(Vec3(0.2, -0.2, -0.4));
      leftWristPose := DefaultPose(Vec3(0.2, 0.2, -0.4));
      rightGripperValue := 0.0;
      leftGripperValue := 0.0;
      useFingers := false;
    }

    method UpdateHead(matrix: Mat4)
      modifies this
      ensures State() == old(State()).(head := matrix)
    {
      headMatrix := matrix;
    }

    /** A hand update switches both sides to finger mode. */
    method UpdateLeftHand(wrist: Mat4, fingers: seq<Mat4>)
      modifies this
      ensures State() == old(State()).(leftWrist := wrist, leftFingers := fingers, useFingers := true)
    {
      leftWristPose := wrist;
      leftFingerPoses := fingers;
      useFingers := true;
    }

    method UpdateRightHand(wrist: Mat4, fingers: seq<Mat4>)
      modifies this
      ensures State() == old(State()).(rightWrist := wrist, rightFingers := fingers, useFingers := true)
    {
      rightWristPose := wrist;
      rightFingerPoses := fingers;
      useFingers := true;
    }

    /** A controller update switches both sides to controller mode. */
    method UpdateLeftController(pose: Mat4, gripperValue: real)
      modifies this
      ensures State() == old(State()).(leftWrist := pose, leftGripper := gripperValue, useFingers := false)
    {
      leftWristPose := pose;
      leftGripperValue := gripperValue;
      useFingers := false;
    }

    method UpdateRightController(pose: Mat4, gripperValue: real)
      modifies this
      ensures State() == old(State()).(rightWrist := pose, rightGripper := gripperValue, useFingers := false)
    {
      rightWristPose := pose;
      rightGripperValue := gripperValue;
      useFingers := false;
    }

    /** compute_joint_angles; `logged` is the pair of targets sent to the
        visualiser, which here happens after the clamp. */
    method ComputeJointAngles(ik: Ik, norm: Norm, euler: HandIk.EulerXyz)
      returns (r: Result<JointCommands>, logged: seq<Mat4>)
      ensures r == JointAngles(State(), ik, norm, euler)
      ensures logged == IkInput(State())
    {
      var targetLeft := Mul(BaseToHead, leftWristPose);
      var targetRight := Mul(BaseToHead, rightWristPose);
      targetLeft := Set(targetLeft, 2, 3, Max(targetLeft[2][3], MinTargetZ));
      targetRight := Set(targetRight, 2, 3, Max(targetRight[2][3], MinTargetZ));
      logged := [targetRight, targetLeft];
      var joints := ik([targetRight, targetLeft]);
      var leftArm := Drop(joints, 5);
      var rightArm := Take(joints, 5);
      var grippers := Grippers(State(), norm);
      if grippers.Err? {
        return Err(grippers.error), logged;
      }
      var fingers := Fingers(State(), euler);
      if fingers.Err? {
        return Err(fingers.error), logged;
      }
      var rightFingers := ClipAll(fingers.value.0, 0.0, 1.0);
      var leftFingers := ClipAll(fingers.value.1, 0.0, 1.0);
      r := Ok(JointCommands(rightArm + [grippers.value.0], leftArm + [grippers.value.1], rightFingers, leftFingers));
    }
  }
}
