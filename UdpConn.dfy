/** The joint-command datagram sent to the robot: the left arm in radians
    with the shoulder pitch inverted, the right arm in degrees, and the right
    hand's fingers as 16-bit glove readings; and the end-effector datagram of
    the reinforcement-learning bridge. */
module UdpConn {
  import opened Common
  import opened Matrix
  import Kinematics

  /** The glove reading for a finger value: 65535 for an open finger (0),
      0 for a closed one (1), truncated to an integer. */
  function FingerCommand(f: real): (r: int)
    ensures 0 <= r <= 65535
    ensures f <= 0.0 ==> r == 65535
    ensures f >= 1.0 ==> r == 0
  {
    Trunc(Clip(65535.0 - f * 65535.0, 0.0, 65535.0))
  }

  /** A finger that closes further never gets a larger reading. */
  lemma FingerCommandAntitone(f: real, g: real)
    requires f <= g
    ensures FingerCommand(g) <= FingerCommand(f)
  {
    var a := Clip(65535.0 - g * 65535.0, 0.0, 65535.0);
    var b := Clip(65535.0 - f * 65535.0, 0.0, 65535.0);
    assert g * 65535.0 >= f * 65535.0;
    assert a <= b;
    assert a.Floor <= b.Floor;
  }

  /** The fields of the joint-command datagram. */
  datatype JointPayload = JointPayload(timestamp: real, joints: map<string, real>, fingers: seq<int>)

  /** The payload _send_udp builds; fewer than five entries in either arm
      list raises IndexError before anything is sent. The left finger values
      are accepted and never read. */
  function SendPayload(now: real, right: seq<real>, left: seq<real>, rightFingers: seq<real>, leftFingers: seq<real>): (r: Result<JointPayload>)
    ensures r.Ok? <==> |left| >= 5 && |right| >= 5
    ensures r.Err? ==> r.error == "IndexError"
    ensures r.Ok? ==> r.value.timestamp == now && r.value.joints.Keys == Kinematics.JointIds
    ensures r.Ok? ==> r.value.joints["11"] == -left[0]
    ensures r.Ok? ==> forall k | 1 <= k < 5 :: r.value.joints[[ '1', "12345"[k] ]] == left[k]
    ensures r.Ok? ==> forall k | 0 <= k < 5 :: r.value.joints[[ '2', "12345"[k] ]] == RadToDeg(right[k])
    ensures r.Ok? ==> |r.value.fingers| == |rightFingers|
    ensures r.Ok? ==> forall i | 0 <= i < |rightFingers| :: r.value.fingers[i] == FingerCommand(rightFingers[i])
  {
    if |left| < 5 || |right| < 5 then Err("IndexError")
    else
      Ok(JointPayload(now,
        map["11" := -left[0], "12" := left[1], "13" := left[2], "14" := left[3], "15" := left[4],
            "21" := RadToDeg(right[0]), "22" := RadToDeg(right[1]), "23" := RadToDeg(right[2]),
            "24" := RadToDeg(right[3]), "25" := RadToDeg(right[4])],
        seq(|rightFingers|, i requires 0 <= i < |rightFingers| => FingerCommand(rightFingers[i]))))
  }

  /** Each right finger becomes one reading in [0, 65535], open fingers the
      largest, and a finger closed further never reads higher than another;
      the left finger values make no difference. */
  lemma FingerReadings(now: real, right: seq<real>, left: seq<real>, rightFingers: seq<real>, leftFingers: seq<real>, other: seq<real>)
    requires |left| >= 5 && |right| >= 5
    ensures var p := SendPayload(now, right, left, rightFingers, leftFingers).value;
      && (forall i | 0 <= i < |rightFingers| :: 0 <= p.fingers[i] <= 65535)
      && (forall i | 0 <= i < |rightFingers| && rightFingers[i] == 0.0 :: p.fingers[i] == 65535)
      && (forall i | 0 <= i < |rightFingers| && rightFingers[i] == 1.0 :: p.fingers[i] == 0)
      && (forall i, j | 0 <= i < |rightFingers| && 0 <= j < |rightFingers| && rightFingers[i] <= rightFingers[j] ::
            p.fingers[j] <= p.fingers[i])
    ensures SendPayload(now, right, left, rightFingers, other) == SendPayload(now, right, left, rightFingers, leftFingers)
  {
    forall i, j | 0 <= i < |rightFingers| && 0 <= j < |rightFingers| && rightFingers[i] <= rightFingers[j]
      ensures FingerCommand(rightFingers[j]) <= FingerCommand(rightFingers[i])
    {
      FingerCommandAntitone(rightFingers[i], rightFingers[j]);
    }
  }

  /** The sender; a failed send is swallowed, so the caller never learns of
      it. `delivered` is the network's verdict on the datagram. */
  class UDPHandler {
    const udpHost: string
    const udpPort: int
    /** The payloads handed to the network, oldest first. */
    var sent: seq<JointPayload>

    constructor(host: string, port: int)
      ensures udpHost == host && udpPort == port && sent == []
    {
      udpHost := host;
      udpPort := port;
      sent := [];
    }

    method SendUdp(now: real, right: seq<real>, left: seq<real>, rightFingers: seq<real>, leftFingers: seq<real>, delivered: bool)
      returns (r: Result<()>)
      modifies this
      ensures var p := SendPayload(now, right, left, rightFingers, leftFingers);
        && (r.Ok? <==> p.Ok?)
        && (r.Err? ==> r.error == p.error)
        && sent == old(sent) + (if p.Ok? && delivered then [p.value] else [])
    {
      var p := SendPayload(now, right, left, rightFingers, leftFingers);
      if p.Err? {
        return Err(p.error);
      }
      if delivered {
        sent := sent + [p.value];
      }
      r := Ok(());
    }
  }

  /** Rotation.from_matrix(m).as_quat(). */
  type AsQuat = Mat3 -> seq<real>

  /** The fields of the end-effector datagram. */
  datatype EePayload = EePayload(velocity: seq<real>, leftEe: seq<real>, rightEe: seq<real>)

  /** An end effector: its position followed by its orientation quaternion. */
  function EndEffector(m: Mat4, quat: AsQuat): (r: seq<real>)
    ensures |r| == 3 + |quat(Rotation(m))|
    ensures r[..3] == [m[0][3], m[1][3], m[2][3]] && r[3..] == quat(Rotation(m))
  {
    [m[0][3], m[1][3], m[2][3]] + quat(Rotation(m))
  }

  /** RLUDPHandler's payload: the velocity is always zero. */
  function EePayloadOf(leftWrist: Mat4, rightWrist: Mat4, quat: AsQuat): (r: EePayload)
    ensures r.velocity == [0.0, 0.0, 0.0]
    ensures |r.leftEe| >= 3 && |r.rightEe| >= 3
    ensures r.leftEe[..3] == [leftWrist[0][3], leftWrist[1][3], leftWrist[2][3]]
    ensures r.rightEe[..3] == [rightWrist[0][3], rightWrist[1][3], rightWrist[2][3]]
  {
    EePayload([0.0, 0.0, 0.0], EndEffector(leftWrist, quat), EndEffector(rightWrist, quat))
  }

  /** The fixed port of the reinforcement-learning bridge. */
  const RlPort: int := 1234

  class RLUDPHandler {
    const udpHost: string
    const udpPort: int
    var sent: seq<EePayload>

    constructor(host: string)
      ensures udpHost == host && udpPort == RlPort && sent == []
    {
      udpHost := host;
      udpPort := 1234;
      sent := [];
    }

    method SendUdp(leftWrist: Mat4, rightWrist: Mat4, quat: AsQuat, delivered: bool)
      modifies this
      ensures sent == old(sent) + (if delivered then [EePayloadOf(leftWrist, rightWrist, quat)] else [])
    {
      if delivered {
        sent := sent + [EePayloadOf(leftWrist, rightWrist, quat)];
      }
    }
  }
}
