/** The browser's robot view: the joint angles the server computes for one
    arm are applied to the matching joints of the loaded robot model. */
module UrdfView {
  import opened Common
  import opened ThreeScene

  /** actuatorMapping.left, entries "0" to "4". */
  const LeftActuators: seq<string> := [
    "dof_left_shoulder_pitch_03", "dof_left_shoulder_roll_03", "dof_left_shoulder_yaw_02",
    "dof_left_elbow_02", "dof_left_wrist_00"]

  /** actuatorMapping.right, entries "0" to "4". */
  const RightActuators: seq<string> := [
    "dof_right_shoulder_pitch_03", "dof_right_shoulder_roll_03", "dof_right_shoulder_yaw_02",
    "dof_right_elbow_02", "dof_right_wrist_00"]

  /** actuatorMapping[side]: the joints a side drives, by array index, or
      None for a side the table does not name. */
  function ActuatorMapping(side: string): (r: Option<seq<string>>)
    ensures r.Some? <==> side == "left" || side == "right"
    ensures r.Some? ==> |r.value| == 5
    ensures r.Some? ==> forall i | 0 <= i < 5 :: StartsWith(r.value[i], "dof_" + side + "_")
  {
    if side == "left" then
      LeftPrefixes();
      Some(LeftActuators)
    else if side == "right" then
      RightPrefixes();
      Some(RightActuators)
    else None
  }

  /** Every left actuator is a "dof_left_" joint. */
  lemma LeftPrefixes()
    ensures forall i | 0 <= i < 5 :: StartsWith(LeftActuators[i], "dof_" + "left" + "_")
  {
    assert "dof_" + "left" + "_" == "dof_left_";
    forall i | 0 <= i < 5
      ensures LeftActuators[i][..9] == "dof_left_"
    {
    }
  }

  /** Every right actuator is a "dof_right_" joint. */
  lemma RightPrefixes()
    ensures forall i | 0 <= i < 5 :: StartsWith(RightActuators[i], "dof_" + "right" + "_")
  {
    assert "dof_" + "right" + "_" == "dof_right_";
    forall i | 0 <= i < 5
      ensures RightActuators[i][..10] == "dof_right_"
    {
    }
  }

  /** urdf-loader's setJointValue, by its effect: the angle a joint holds
      after being asked for a given one (the loader clamps a revolute
      joint to its limits unless they are ignored). */
  type JointSetter = (string, real) -> real

  /** The setter that keeps the requested angle, as with ignoreLimits. */
  function Unclamped(): JointSetter
  {
    (name: string, angle: real) => angle
  }

  /** The joint angles after entries 0 to n - 1 of the array are applied:
      entry i sets joint names[i] when the table has an i-th name and the
      robot has that joint. */
  function Applied(joints: map<string, real>, names: seq<string>, values: seq<real>, n: nat, setJoint: JointSetter): (r: map<string, real>)
    requires n <= |values|
    ensures r.Keys == joints.Keys
  {
    if n == 0 then joints
    else
      var prev := Applied(joints, names, values, n - 1, setJoint);
      if n - 1 < |names| && names[n - 1] in joints then prev[names[n - 1] := setJoint(names[n - 1], values[n - 1])] else prev
  }

  /** Each side's five names are distinct. */
  lemma ActuatorsDistinct(side: string)
    requires side == "left" || side == "right"
    ensures forall i, j | 0 <= i < j < 5 :: ActuatorMapping(side).value[i] != ActuatorMapping(side).value[j]
  {
    var names := ActuatorMapping(side).value;
    var k := if side == "left" then 18 else 19;
    assert names[0][k] == 'p' && names[1][k] == 'r' && names[2][k] == 'y';
    assert names[3][k - 9] == 'e' && names[4][k - 9] == 'w';
    assert forall i | 0 <= i < 3 :: names[i][k - 9] == 's';
  }

  /** With distinct names, a joint the robot has takes entry i when it is
      the i-th name and i < n, and keeps its angle when no applied entry
      names it. */
  lemma {:induction false} AppliedValues(joints: map<string, real>, names: seq<string>, values: seq<real>, n: nat, setJoint: JointSetter)
    requires n <= |values|
    requires forall i, j | 0 <= i < j < |names| :: names[i] != names[j]
    ensures forall i | 0 <= i < n && i < |names| && names[i] in joints ::
      Applied(joints, names, values, n, setJoint)[names[i]] == setJoint(names[i], values[i])
    ensures forall k | k in joints && (forall i | 0 <= i < n && i < |names| :: names[i] != k) ::
      Applied(joints, names, values, n, setJoint)[k] == joints[k]
  {
    if n > 0 {
      AppliedValues(joints, names, values, n - 1, setJoint);
    }
  }

  /** An update for one side keeps the robot's joint set, leaves every
      joint outside that side's "dof_<side>_" names unchanged, and sets the
      joint of each entry 0 to 4 the robot has; later entries name no joint. */
  lemma SideIsolation(joints: map<string, real>, side: string, values: seq<real>, setJoint: JointSetter)
    requires side == "left" || side == "right"
    ensures var r := Applied(joints, ActuatorMapping(side).value, values, |values|, setJoint);
      && r.Keys == joints.Keys
      && (forall k | k in joints && !StartsWith(k, "dof_" + side + "_") :: r[k] == joints[k])
      && (forall i | 0 <= i < |values| && i < 5 && ActuatorMapping(side).value[i] in joints ::
            r[ActuatorMapping(side).value[i]] == setJoint(ActuatorMapping(side).value[i], values[i]))
  {
    var names := ActuatorMapping(side).value;
    ActuatorsDistinct(side);
    AppliedValues(joints, names, values, |values|, setJoint);
  }

  /** With limits ignored, each joint the robot has holds exactly the angle
      the server sent for it. */
  lemma UnclampedStoresAngles(joints: map<string, real>, side: string, values: seq<real>)
    requires side == "left" || side == "right"
    ensures var r := Applied(joints, ActuatorMapping(side).value, values, |values|, Unclamped());
      forall i | 0 <= i < |values| && i < 5 && ActuatorMapping(side).value[i] in joints ::
        r[ActuatorMapping(side).value[i]] == values[i]
  {
    SideIsolation(joints, side, values, Unclamped());
  }

  /** updateURDF: an unknown side or a missing robot changes nothing;
      otherwise each array entry is applied to its joint through the
      loader's setter, in array order. */
  method UpdateURDF(side: string, jointArray: seq<real>, state: SceneState, setJoint: JointSetter)
    modifies state.robot
    ensures state.robot != null && ActuatorMapping(side).None? ==> state.robot.joints == old(state.robot.joints)
    ensures state.robot != null && ActuatorMapping(side).Some? ==>
      state.robot.joints == Applied(old(state.robot.joints), ActuatorMapping(side).value, jointArray, |jointArray|, setJoint)
  {
    var mapping := ActuatorMapping(side);
    if mapping.None? {
      return;
    }
    var robot := state.robot;
    if robot == null {
      return;
    }
    var names := mapping.value;
    ghost var start := robot.joints;
    for index := 0 to |jointArray|
      invariant robot.joints == Applied(start, names, jointArray, index, setJoint)
    {
      if index < |names| && names[index] in robot.joints {
        robot.joints := robot.joints[names[index] := setJoint(names[index], jointArray[index])];
      }
    }
  }
}
