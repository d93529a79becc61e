/** The controller-only teleoperation core: two controller poses and two
    trigger values become two 6-element arm commands. Unlike TeleopCore it
    has no finger mode, and it logs the solver targets before clamping them. */
module ControllerTeleopCore {
  import opened Common
  import opened Matrix
  import TeleopCore

  /** Everything the core remembers between calls. */
  datatype ControllerTeleop = ControllerTeleop(
    head: Mat4,
    rightPose: Mat4,
    leftPose: Mat4,
    rightGripper: real,
    leftGripper: real)

  /** The state before any update. */
  function Initial(): (s: ControllerTeleop)
    ensures Translation(s.leftPose) == Vec3(0.2, 0.2, -0.4)
    ensures Translation(s.rightPose) == Vec3(0.2, -0.2, -0.4)
    ensures Rotation(s.leftPose) == TeleopCore.DefaultWristRotation
    ensures Rotation(s.rightPose) == TeleopCore.DefaultWristRotation
    ensures s.rightGripper == 0.0 && s.leftGripper == 0.0
  {
    ControllerTeleop(Identity(), TeleopCore.DefaultPose(Vec3(0.2, -0.2, -0.4)),
      TeleopCore.DefaultPose(Vec3(0.2, 0.2, -0.4)), 0.0, 0.0)
  }

  /** The targets passed to the visualiser: base_to_head @ pose, unclamped. */
  function LoggedTargets(s: ControllerTeleop): (r: seq<Mat4>)
    ensures |r| == 2
  {
    [Mul(TeleopCore.BaseToHead, s.rightPose), Mul(TeleopCore.BaseToHead, s.leftPose)]
  }

  /** The solver input: the logged targets with z clamped, right first. */
  function IkInput(s: ControllerTeleop): (r: seq<Mat4>)
    ensures |r| == 2 && r[0][2][3] >= TeleopCore.MinTargetZ && r[1][2][3] >= TeleopCore.MinTargetZ
  {
    [TeleopCore.ClampZ(LoggedTargets(s)[0]), TeleopCore.ClampZ(LoggedTargets(s)[1])]
  }

  /** The solver sees the logged targets except for a z raised to -0.2. */
  lemma LoggedDiffersOnlyInZ(s: ControllerTeleop, side: nat)
    requires side < 2
    ensures var logged := LoggedTargets(s)[side];
      var input := IkInput(s)[side];
      && (forall i, j | 0 <= i < 4 && 0 <= j < 4 && (i, j) != (2, 3) :: input[i][j] == logged[i][j])
      && input[2][3] == Max(logged[2][3], TeleopCore.MinTargetZ)
      && (logged[2][3] >= TeleopCore.MinTargetZ ==> input == logged)
  {
  }

  /** The return value of compute_joint_angles: (right_arm, left_arm). */
  datatype ArmCommands = ArmCommands(rightArm: seq<real>, leftArm: seq<real>)

  /** compute_joint_angles as a function of the state. The gripper joints
      are not clamped: a trigger outside [0, 1] puts them outside
      [0, 0.068]. */
  function JointAngles(s: ControllerTeleop, ik: TeleopCore.Ik): (r: ArmCommands)
    ensures |r.rightArm| > 0 && |r.leftArm| > 0
    ensures |ik(IkInput(s))| >= 5 ==> |r.rightArm| == 6
    ensures |ik(IkInput(s))| == 10 ==> |r.leftArm| == 6
    ensures 0.0 <= r.rightArm[|r.rightArm| - 1] <= TeleopCore.GripperOpen <==> 0.0 <= s.rightGripper <= 1.0
    ensures 0.0 <= r.leftArm[|r.leftArm| - 1] <= TeleopCore.GripperOpen <==> 0.0 <= s.leftGripper <= 1.0
  {
    var joints := ik(IkInput(s));
    ArmCommands(Take(joints, 5) + [TeleopCore.GripperFromTrigger(s.rightGripper)],
      Drop(joints, 5) + [TeleopCore.GripperFromTrigger(s.leftGripper)])
  }

  /** With a 10-element solution the right arm is the first half and the left
      arm the second half, each followed by its trigger-derived gripper. */
  lemma ArmSplit(s: ControllerTeleop, ik: TeleopCore.Ik)
    requires |ik(IkInput(s))| == 10
    ensures var joints := ik(IkInput(s));
      var c := JointAngles(s, ik);
      && c.rightArm == joints[..5] + [0.068 * (1.0 - s.rightGripper)]
      && c.leftArm == joints[5..] + [0.068 * (1.0 - s.leftGripper)]
  {
  }

  class ControllerTeleopCore {
    var headMatrix: Mat4
    var rightControllerPose: Mat4
    var leftControllerPose: Mat4
    var rightGripperValue: real
    var leftGripperValue: real

    function State(): ControllerTeleop
      reads this
    {
      ControllerTeleop(headMatrix, rightControllerPose, leftControllerPose, rightGripperValue, leftGripperValue)
    }

    constructor()
      ensures State() == Initial()
    {
      headMatrix := Identity();
      rightControllerPose := TeleopCore.DefaultPose(Vec3(0.2, -0.2, -0.4));
      leftControllerPose := TeleopCore.DefaultPose(Vec3(0.2, 0.2, -0.4));
      rightGripperValue := 0.0;
      leftGripperValue := 0.0;
    }

    method UpdateHead(matrix: Mat4)
      modifies this
      ensures State() == old(State()).(head := matrix)
    {
      headMatrix := matrix;
    }

    /** Changes only the left pose and left trigger value. */
    method UpdateLeftController(pose: Mat4, gripperValue: real)
      modifies this
      ensures State() == old(State()).(leftPose := pose, leftGripper := gripperValue)
    {
      leftControllerPose := pose;
      leftGripperValue := gripperValue;
    }

    /** Changes only the right pose and right trigger value. */
    method UpdateRightController(pose: Mat4, gripperValue: real)
      modifies this
      ensures State() == old(State()).(rightPose := pose, rightGripper := gripperValue)
    {
      rightControllerPose := pose;
      rightGripperValue := gripperValue;
    }

    /** compute_joint_angles; `logged` is the pair of targets sent to the
        visualiser, taken before the clamp. */
    method ComputeJointAngles(ik: TeleopCore.Ik) returns (r: ArmCommands, logged: seq<Mat4>)
      ensures r == JointAngles(State(), ik)
      ensures logged == LoggedTargets(State())
    {
      var targetLeft := Mul(TeleopCore.BaseToHead, leftControllerPose);
      var targetRight := Mul(TeleopCore.BaseToHead, rightControllerPose);
      logged := [targetRight, targetLeft];
      targetLeft := Set(targetLeft, 2, 3, Max(targetLeft[2][3], TeleopCore.MinTargetZ));
      targetRight := Set(targetRight, 2, 3, Max(targetRight[2][3], TeleopCore.MinTargetZ));
      var joints := ik([targetRight, targetLeft]);
      var leftArm := Drop(joints, 5);
      var rightArm := Take(joints, 5);
      var rightGripper := 0.068 * (1.0 - rightGripperValue);
      var leftGripper := 0.068 * (1.0 - leftGripperValue);
      r := ArmCommands(rightArm + [rightGripper], leftArm + [leftGripper]);
    }
  }
}
