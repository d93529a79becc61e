/** The operator-side finger sender: six finger closures per hand, clipped
    into [0, 1] and sent as one JSON datagram to port 10001 of the robot. */
module FingerUdpServer {
  import opened Common

  const DefaultPort: int := 10001

  /** The printed line when the datagram cannot be sent. */
  const SendFailed: string := "Failed to send udp packet"

  /** The fields of the finger datagram. */
  datatype FingerPayload = FingerPayload(timestamp: real, rightFingers: seq<real>, leftFingers: seq<real>)

  /** The payload send_finger_commands builds: both hands clipped into
      [0, 1] element by element, no length imposed. */
  function PayloadOf(now: real, right: seq<real>, left: seq<real>): (r: FingerPayload)
    ensures r.timestamp == now && |r.rightFingers| == |right| && |r.leftFingers| == |left|
    ensures forall i | 0 <= i < |right| :: 0.0 <= r.rightFingers[i] <= 1.0
    ensures forall i | 0 <= i < |left| :: 0.0 <= r.leftFingers[i] <= 1.0
  {
    FingerPayload(now, ClipAll(right, 0.0, 1.0), ClipAll(left, 0.0, 1.0))
  }

  /** Values already in [0, 1] pass unchanged, those outside go to the
      nearer bound, and clipping a sent payload again changes nothing. */
  lemma ClippingFacts(now: real, right: seq<real>, left: seq<real>)
    ensures var p := PayloadOf(now, right, left);
      && (forall i | 0 <= i < |right| :: (0.0 <= right[i] <= 1.0 ==> p.rightFingers[i] == right[i]))
      && (forall i | 0 <= i < |right| :: (right[i] < 0.0 ==> p.rightFingers[i] == 0.0) && (right[i] > 1.0 ==> p.rightFingers[i] == 1.0))
      && (forall i | 0 <= i < |left| :: (0.0 <= left[i] <= 1.0 ==> p.leftFingers[i] == left[i]))
      && (forall i | 0 <= i < |left| :: (left[i] < 0.0 ==> p.leftFingers[i] == 0.0) && (left[i] > 1.0 ==> p.leftFingers[i] == 1.0))
      && PayloadOf(now, p.rightFingers, p.leftFingers) == p
  {
    var p := PayloadOf(now, right, left);
    assert ClipAll(p.rightFingers, 0.0, 1.0) == p.rightFingers;
    assert ClipAll(p.leftFingers, 0.0, 1.0) == p.leftFingers;
  }

  /** A JSON array of numbers. */
  function NumArray(xs: seq<real>): (r: Json)
    ensures r.JArr? && |r.items| == |xs|
    ensures forall i | 0 <= i < |xs| :: r.items[i] == JNum(xs[i])
  {
    JArr(seq(|xs|, i requires 0 <= i < |xs| => JNum(xs[i])))
  }

  /** The JSON object the datagram carries. */
  function ToJson(p: FingerPayload): (r: Json)
    ensures r.JObj? && r.fields.Keys == {"timestamp", "right_fingers", "left_fingers"}
    ensures r.fields["timestamp"] == JNum(p.timestamp)
    ensures r.fields["right_fingers"] == NumArray(p.rightFingers)
    ensures r.fields["left_fingers"] == NumArray(p.leftFingers)
  {
    JObj(map["timestamp" := JNum(p.timestamp),
             "right_fingers" := NumArray(p.rightFingers),
             "left_fingers" := NumArray(p.leftFingers)])
  }

  class FingerUDPHandler {
    const udpHost: string
    const udpPort: int
    /** The payloads handed to the network, oldest first. */
    var sent: seq<FingerPayload>
    /** The lines printed, oldest first. */
    var printed: seq<string>

    constructor(host: string, port: int)
      ensures udpHost == host && udpPort == port && sent == [] && printed == []
    {
      udpHost := host;
      udpPort := port;
      sent := [];
      printed := [];
    }

    /** send_finger_commands: a failed send is printed, never raised.
        `delivered` is the network's verdict on the datagram. */
    method SendFingerCommands(now: real, right: seq<real>, left: seq<real>, delivered: bool)
      modifies this
      ensures delivered ==> sent == old(sent) + [PayloadOf(now, right, left)] && printed == old(printed)
      ensures !delivered ==> sent == old(sent) && printed == old(printed) + [SendFailed]
    {
      var payload := FingerPayload(now, ClipAll(right, 0.0, 1.0), ClipAll(left, 0.0, 1.0));
      if delivered {
        sent := sent + [payload];
      } else {
        printed := printed + [SendFailed];
      }
    }
  }
}
