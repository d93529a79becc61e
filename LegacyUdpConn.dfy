/** The earlier joint-command datagram: both arm inputs are replaced by
    zeros before the payload is built, and the right fingers are scaled from
    radians over a full turn to 16-bit readings. */
module LegacyUdpConn {
  import opened Common
  import Kinematics

  /** The reading for a finger angle: a full turn maps to 65535, truncated
      to an integer and clipped into the 16-bit range. */
  function FingerCommand(f: real): (r: int)
    ensures 0 <= r <= 65535
    ensures f <= 0.0 ==> r == 0
    ensures f >= 2.0 * Pi ==> r == 65535
  {
    var scaled := f * (65535.0 / (2.0 * Pi));
    assert f >= 2.0 * Pi ==> scaled >= 65535.0 by {
      if f >= 2.0 * Pi {
        assert f * (65535.0 / (2.0 * Pi)) >= (2.0 * Pi) * (65535.0 / (2.0 * Pi));
      }
    }
    Trunc(Clip(scaled, 0.0, 65535.0))
  }

  /** A larger angle never gives a smaller reading. */
  lemma FingerCommandMonotone(f: real, g: real)
    requires f <= g
    ensures FingerCommand(f) <= FingerCommand(g)
  {
    var k := 65535.0 / (2.0 * Pi);
    assert f * k <= g * k;
    var a := Clip(f * k, 0.0, 65535.0);
    var b := Clip(g * k, 0.0, 65535.0);
    assert a <= b;
    assert a.Floor <= b.Floor;
  }

  datatype JointPayload = JointPayload(timestamp: real, joints: map<string, real>, fingers: seq<int>)

  /** The payload _send_udp builds. Both arm lists are overwritten with
      zeros first, so every joint is 0 and no arm input can raise. */
  function SendPayload(now: real, right: seq<real>, left: seq<real>, rightFingers: seq<real>, leftFingers: seq<real>): (r: JointPayload)
    ensures r.timestamp == now && r.joints.Keys == Kinematics.JointIds
    ensures forall id | id in r.joints :: r.joints[id] == 0.0
    ensures |r.fingers| == |rightFingers|
    ensures forall i | 0 <= i < |rightFingers| :: r.fingers[i] == FingerCommand(rightFingers[i])
  {
    var l := Zeros(5);
    var a := Zeros(5);
    JointPayload(now,
      map["11" := -l[0], "12" := l[1], "13" := l[2], "14" := l[3], "15" := l[4],
          "21" := a[0], "22" := a[1], "23" := a[2], "24" := a[3], "25" := a[4]],
      seq(|rightFingers|, i requires 0 <= i < |rightFingers| => FingerCommand(rightFingers[i])))
  }

  /** Neither the arm inputs nor the left fingers affect the payload. */
  lemma OnlyRightFingersMatter(now: real, right: seq<real>, left: seq<real>, rightFingers: seq<real>, leftFingers: seq<real>,
                               right': seq<real>, left': seq<real>, leftFingers': seq<real>)
    ensures SendPayload(now, right, left, rightFingers, leftFingers) == SendPayload(now, right', left', rightFingers, leftFingers')
  {
  }

  class UDPHandler {
    const udpHost: string
    const udpPort: int
    var sent: seq<JointPayload>

    constructor(host: string, port: int)
      ensures udpHost == host && udpPort == port && sent == []
    {
      udpHost := host;
      udpPort := port;
      sent := [];
    }

    /** A failed send is swallowed; `delivered` is the network's verdict. */
    method SendUdp(now: real, right: seq<real>, left: seq<real>, rightFingers: seq<real>, leftFingers: seq<real>, delivered: bool)
      modifies this
      ensures sent == old(sent) + (if delivered then [SendPayload(now, right, left, rightFingers, leftFingers)] else [])
    {
      var payload := SendPayload(now, right, left, rightFingers, leftFingers);
      if delivered {
        sent := sent + [payload];
      }
    }
  }
}
