/** The event-driven kinematics entry point: each hand event carries, per
    side, 25 column-major 4x4 joint matrices (wrist first). The module keeps
    the last wrist and finger poses of both sides, clamps the solver targets
    and reports the ten arm joints in degrees under ids 11-15 (left) and
    21-25 (right). */
module Kinematics {
  import opened Common
  import opened Matrix
  import Util
  import TeleopCore

  /** Axis change from the headset frame to the robot frame for wrists. */
  const KbotVuerToUrdf: Mat4 :=
    [[0.0, 0.0, -1.0, 0.0], [-1.0, 0.0, 0.0, 0.0], [0.0, 1.0, 0.0, 0.0], [0.0, 0.0, 0.0, 1.0]]

  /** Axis change from the headset frame to the robot frame for fingers. */
  const HandVuerToUrdf: Mat4 :=
    [[0.0, 1.0, 0.0, 0.0], [0.0, 0.0, 1.0, 0.0], [1.0, 0.0, 0.0, 0.0], [0.0, 0.0, 0.0, 1.0]]

  /** The module-level head pose: the identity, never reassigned. */
  const HeadMatrix: Mat4 :=
    [[1.0, 0.0, 0.0, 0.0], [0.0, 1.0, 0.0, 0.0], [0.0, 0.0, 1.0, 0.0], [0.0, 0.0, 0.0, 1.0]]

  /** Joint matrices per hand in an event. */
  const JointsPerHand: nat := 25

  /** Block k of a flat hand array, read column-major. */
  function Block(raw: seq<real>, k: nat): (m: Mat4)
    requires |raw| == 16 * JointsPerHand && k < JointsPerHand
    ensures forall i, j | 0 <= i < 4 && 0 <= j < 4 :: m[i][j] == raw[16 * k + 4 * j + i]
  {
    seq(4, i requires 0 <= i < 4 => seq(4, j requires 0 <= j < 4 => raw[16 * k + 4 * j + i]))
  }

  /** np.array(raw).reshape(25, 4, 4).transpose((0, 2, 1)); any other size
      than 400 cannot be reshaped and raises ValueError. */
  function Unpack(raw: seq<real>): (r: Result<seq<Mat4>>)
    ensures r.Ok? <==> |raw| == 400
    ensures r.Err? ==> r.error == "ValueError"
    ensures r.Ok? ==> |r.value| == 25
    ensures r.Ok? ==> forall k, i, j | 0 <= k < 25 && 0 <= i < 4 && 0 <= j < 4 :: r.value[k][i][j] == raw[16 * k + 4 * j + i]
  {
    if |raw| != 16 * JointsPerHand then Err("ValueError")
    else Ok(seq(JointsPerHand, k requires 0 <= k < JointsPerHand => Block(raw, k)))
  }

  /** The remembered pose of one hand. */
  datatype HandPose = HandPose(wrist: Mat4, fingers: seq<Mat4>)

  /** Both hands' remembered poses. */
  datatype Arms = Arms(left: HandPose, right: HandPose)

  /** The module state at import: zero wrists and 24 zero finger poses. */
  function Initial(): (s: Arms)
    ensures s.left.wrist == Zero() && s.right.wrist == Zero()
    ensures |s.left.fingers| == 24 && |s.right.fingers| == 24
    ensures forall k | 0 <= k < 24 :: s.left.fingers[k] == Zero() && s.right.fingers[k] == Zero()
  {
    Arms(HandPose(Zero(), seq(24, _ => Zero())), HandPose(Zero(), seq(24, _ => Zero())))
  }

  /** The wrist in the robot frame, less the head translation. */
  function WristPose(m: seq<Mat4>): (r: Mat4)
    requires |m| == 25
    ensures forall i, j | 0 <= i < 4 && 0 <= j < 3 :: r[i][j] == Mul(KbotVuerToUrdf, m[0])[i][j]
    ensures r[3] == Mul(KbotVuerToUrdf, m[0])[3]
  {
    var w := Mul(KbotVuerToUrdf, m[0]);
    WithTranslation(w, Sub(Translation(w), Translation(HeadMatrix)))
  }

  /** Finger n relative to the wrist, in the robot hand frame. */
  function FingerPoses(m: seq<Mat4>): (r: seq<Mat4>)
    requires |m| == 25
    ensures |r| == 24
    ensures forall n | 0 <= n < 24 :: r[n] == Mul(Mul(HandVuerToUrdf, Util.FastMatInv(m[0])), m[n + 1])
  {
    seq(24, n requires 0 <= n < 24 => Mul(Mul(HandVuerToUrdf, Util.FastMatInv(m[0])), m[n + 1]))
  }

  /** Since the head pose is the identity, subtracting its translation
      leaves the wrist at the frame-changed input pose. */
  lemma HeadSubtractsNothing(m: seq<Mat4>)
    requires |m| == 25
    ensures WristPose(m) == Mul(KbotVuerToUrdf, m[0])
  {
    var w := Mul(KbotVuerToUrdf, m[0]);
    Ext(WristPose(m), w);
  }

  /** One side of the event, if present; a malformed array raises before
      anything is written. */
  function Absorb(pose: HandPose, raw: Option<seq<real>>): (r: Result<HandPose>)
    ensures raw.None? ==> r == Ok(pose)
    ensures raw.Some? ==> (r.Ok? <==> |raw.value| == 400)
    ensures r.Ok? ==> |pose.fingers| == 24 ==> |r.value.fingers| == 24
  {
    match raw
    case None => Ok(pose)
    case Some(values) =>
      match Unpack(values)
      case Err(e) => Err(e)
      case Ok(m) => Ok(HandPose(WristPose(m), FingerPoses(m)))
  }

  /** The hand event: each side present (non-null) or not. */
  datatype HandEvent = HandEvent(left: Option<seq<real>>, right: Option<seq<real>>)

  /** The solver input, right target first. */
  function IkInput(s: Arms): (r: seq<Mat4>)
    ensures |r| == 2 && r[0][2][3] >= TeleopCore.MinTargetZ && r[1][2][3] >= TeleopCore.MinTargetZ
    ensures r[0] == TeleopCore.HandTarget(s.right.wrist) && r[1] == TeleopCore.HandTarget(s.left.wrist)
  {
    [TeleopCore.HandTarget(s.right.wrist), TeleopCore.HandTarget(s.left.wrist)]
  }

  /** The ids the robot expects: 11-15 left arm, 21-25 right arm. */
  const JointIds: set<string> := {"11", "12", "13", "14", "15", "21", "22", "23", "24", "25"}

  /** The inner "joints" object: second half of the solution under 11-15,
      first half under 21-25, each in degrees. */
  function JointMap(joints: seq<real>): (r: map<string, real>)
    requires |joints| >= 10
    ensures r.Keys == JointIds
    ensures forall k | 0 <= k < 5 :: r[[ '1', "12345"[k] ]] == RadToDeg(joints[5 + k])
    ensures forall k | 0 <= k < 5 :: r[[ '2', "12345"[k] ]] == RadToDeg(joints[k])
  {
    map["11" := RadToDeg(joints[5]), "12" := RadToDeg(joints[6]), "13" := RadToDeg(joints[7]),
        "14" := RadToDeg(joints[8]), "15" := RadToDeg(joints[9]),
        "21" := RadToDeg(joints[0]), "22" := RadToDeg(joints[1]), "23" := RadToDeg(joints[2]),
        "24" := RadToDeg(joints[3]), "25" := RadToDeg(joints[4])]
  }

  /** The new module state and the call's return value (or its exception). */
  datatype Outcome = Outcome(state: Arms, result: Result<map<string, real>>)

  /** One call of kinematics(event). */
  function Step(s: Arms, ev: HandEvent, ik: TeleopCore.Ik): (o: Outcome)
    ensures ev.left.None? ==> o.state.left == s.left
    ensures ev.right.None? ==> o.state.right == s.right
    ensures ev.left.Some? && |ev.left.value| != 400 ==> o == Outcome(s, Err("ValueError"))
    ensures o.result.Ok? ==> o.result.value.Keys == JointIds
  {
    match Absorb(s.left, ev.left)
    case Err(e) => Outcome(s, Err(e))
    case Ok(left) =>
      var s1 := s.(left := left);
      match Absorb(s1.right, ev.right)
      case Err(e) => Outcome(s1, Err(e))
      case Ok(right) =>
        var s2 := s1.(right := right);
        var joints := ik(IkInput(s2));
        if |joints| < 10 then Outcome(s2, Err("IndexError"))
        else Outcome(s2, Ok(JointMap(joints)))
  }

  /** A malformed left array: nothing is stored. */
  lemma StepLeftError(s: Arms, ev: HandEvent, ik: TeleopCore.Ik)
    requires Absorb(s.left, ev.left).Err?
    ensures Step(s, ev, ik) == Outcome(s, Err(Absorb(s.left, ev.left).error))
  {
  }

  /** A malformed right array: only the left side is stored. */
  lemma StepRightError(s: Arms, ev: HandEvent, ik: TeleopCore.Ik, left: HandPose)
    requires Absorb(s.left, ev.left) == Ok(left) && Absorb(s.right, ev.right).Err?
    ensures Step(s, ev, ik) == Outcome(s.(left := left), Err(Absorb(s.right, ev.right).error))
  {
  }

  /** Both sides absorbed: the solver runs on the stored poses. */
  lemma StepDone(s: Arms, ev: HandEvent, ik: TeleopCore.Ik, s2: Arms)
    requires Absorb(s.left, ev.left) == Ok(s2.left) && Absorb(s.right, ev.right) == Ok(s2.right)
    ensures var joints := ik(IkInput(s2));
      Step(s, ev, ik) == if |joints| < 10 then Outcome(s2, Err("IndexError")) else Outcome(s2, Ok(JointMap(joints)))
  {
  }

  /** A malformed right array raises after the left side has been stored. */
  lemma RightErrorKeepsLeftUpdate(s: Arms, ev: HandEvent, ik: TeleopCore.Ik)
    requires ev.left.Some? && |ev.left.value| == 400
    requires ev.right.Some? && |ev.right.value| != 400
    ensures var m := Unpack(ev.left.value).value;
      Step(s, ev, ik) == Outcome(s.(left := HandPose(WristPose(m), FingerPoses(m))), Err("ValueError"))
  {
  }

  /** A well-formed event reports the solver's second half as the left arm
      and its first half as the right arm, in degrees. */
  lemma ReportsBothArms(s: Arms, ev: HandEvent, ik: TeleopCore.Ik)
    requires ev.left.Some? ==> |ev.left.value| == 400
    requires ev.right.Some? ==> |ev.right.value| == 400
    requires |ik(IkInput(Step(s, ev, ik).state))| >= 10
    ensures var o := Step(s, ev, ik);
      var joints := ik(IkInput(o.state));
      && o.result.Ok?
      && o.result.value["11"] == RadToDeg(joints[5]) && o.result.value["15"] == RadToDeg(joints[9])
      && o.result.value["21"] == RadToDeg(joints[0]) && o.result.value["25"] == RadToDeg(joints[4])
  {
  }

  /** The module-level arrays, overwritten in place by each event. */
  class KinematicsModule {
    var leftWristPose: Mat4
    var rightWristPose: Mat4
    var leftFingerPoses: seq<Mat4>
    var rightFingerPoses: seq<Mat4>

    function State(): Arms
      reads this
    {
      Arms(HandPose(leftWristPose, leftFingerPoses), HandPose(rightWristPose, rightFingerPoses))
    }

    constructor()
      ensures State() == Initial()
    {
      leftWristPose := Zero();
      rightWristPose := Zero();
      leftFingerPoses := seq(24, _ => Zero());
      rightFingerPoses := seq(24, _ => Zero());
    }

    /** kinematics(event). */
    method Kinematics(ev: HandEvent, ik: TeleopCore.Ik) returns (r: Result<map<string, real>>)
      modifies this
      ensures State() == Step(old(State()), ev, ik).state
      ensures r == Step(old(State()), ev, ik).result
    {
      ghost var s0 := State();
      if ev.left.Some? {
        var m := Unpack(ev.left.value);
        if m.Err? {
          StepLeftError(s0, ev, ik);
          return Err(m.error);
        }
        StoreLeft(m.value);
      }
      assert Absorb(s0.left, ev.left) == Ok(State().left);
      ghost var s1 := State();
      if ev.right.Some? {
        var m := Unpack(ev.right.value);
        if m.Err? {
          StepRightError(s0, ev, ik, s1.left);
          return Err(m.error);
        }
        StoreRight(m.value);
      }
      assert Absorb(s1.right, ev.right) == Ok(State().right);
      var targetLeft := Target(leftWristPose);
      var targetRight := Target(rightWristPose);
      assert [targetRight, targetLeft] == IkInput(State());
      StepDone(s0, ev, ik, State());
      var joints := ik([targetRight, targetLeft]);
      if |joints| < 10 {
        return Err("IndexError");
      }
      r := Ok(JointMap(joints));
    }

    /** The left wrist and finger arrays overwritten from one hand's
        matrices. */
    method StoreLeft(m: seq<Mat4>)
      requires |m| == 25
      modifies this
      ensures State() == old(State()).(left := HandPose(WristPose(m), FingerPoses(m)))
    {
      leftWristPose := Mul(KbotVuerToUrdf, m[0]);
      leftWristPose := WithTranslation(leftWristPose, Sub(Translation(leftWristPose), Translation(HeadMatrix)));
      leftFingerPoses := FingerPoses(m);
    }

    /** The right wrist and finger arrays overwritten from one hand's
        matrices. */
    method StoreRight(m: seq<Mat4>)
      requires |m| == 25
      modifies this
      ensures State() == old(State()).(right := HandPose(WristPose(m), FingerPoses(m)))
    {
      rightWristPose := Mul(KbotVuerToUrdf, m[0]);
      rightWristPose := WithTranslation(rightWristPose, Sub(Translation(rightWristPose), Translation(HeadMatrix)));
      rightFingerPoses := FingerPoses(m);
    }

    /** base_to_head @ wrist with its height clamped. */
    static method Target(wrist: Mat4) returns (t: Mat4)
      ensures t == TeleopCore.HandTarget(wrist)
    {
      t := Mul(TeleopCore.BaseToHead, wrist);
      t := Set(t, 2, 3, Max(t[2][3], TeleopCore.MinTargetZ));
    }
  }
}
