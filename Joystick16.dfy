/** The earlier 16-field command record (no wrist roll or yaw on the right
    arm) and its commander's command-scale limit, raised and lowered in steps
    of 0.1 between 0.1 and 1.5. */
module Joystick16 {
  import opened Common

  /** A ControlVector16 of the 16-field layout. */
  datatype ControlVector16 = ControlVector16(
    XVel: real, YVel: real, YawRate: real,
    BaseHeight: real, BaseRoll: real, BasePitch: real,
    RShoulderPitch: real, RShoulderRoll: real, RElbowPitch: real, RElbowRoll: real, RWristPitch: real,
    LShoulderPitch: real, LShoulderRoll: real, LElbowPitch: real, LElbowRoll: real, LWristPitch: real)

  /** The JSON keys, in payload order. */
  const Keys: seq<string> := [
    "XVel", "YVel", "YawRate", "BaseHeight", "BaseRoll", "BasePitch",
    "RShoulderPitch", "RShoulderRoll", "RElbowPitch", "RElbowRoll", "RWristPitch",
    "LShoulderPitch", "LShoulderRoll", "LElbowPitch", "LElbowRoll", "LWristPitch"]

  /** ControlVector16(): the arms start slightly raised. */
  function Default(): (v: ControlVector16)
    ensures v.RShoulderPitch == 0.2 && v.LShoulderPitch == -0.1
  {
    ControlVector16(0.0, 0.0, 0.0, 0.0, 0.0, 0.0, 0.2, 0.0, 0.0, 0.0, 0.0, -0.1, 0.0, 0.0, 0.0, 0.0)
  }

  /** The values of the payload, in key order. */
  function Values(v: ControlVector16): (r: seq<real>)
    ensures |r| == |Keys|
  {
    [v.XVel, v.YVel, v.YawRate, v.BaseHeight, v.BaseRoll, v.BasePitch,
     v.RShoulderPitch, v.RShoulderRoll, v.RElbowPitch, v.RElbowRoll, v.RWristPitch,
     v.LShoulderPitch, v.LShoulderRoll, v.LElbowPitch, v.LElbowRoll, v.LWristPitch]
  }

  /** The key/value pairs of the JSON object. */
  function Payload(v: ControlVector16): (r: seq<(string, real)>)
    ensures |r| == |Keys| == 16
    ensures r[0] == ("XVel", v.XVel) && r[1] == ("YVel", v.YVel) && r[2] == ("YawRate", v.YawRate)
    ensures r[3] == ("BaseHeight", v.BaseHeight) && r[4] == ("BaseRoll", v.BaseRoll) && r[5] == ("BasePitch", v.BasePitch)
    ensures r[6] == ("RShoulderPitch", v.RShoulderPitch) && r[7] == ("RShoulderRoll", v.RShoulderRoll)
    ensures r[8] == ("RElbowPitch", v.RElbowPitch) && r[9] == ("RElbowRoll", v.RElbowRoll) && r[10] == ("RWristPitch", v.RWristPitch)
    ensures r[11] == ("LShoulderPitch", v.LShoulderPitch) && r[12] == ("LShoulderRoll", v.LShoulderRoll)
    ensures r[13] == ("LElbowPitch", v.LElbowPitch) && r[14] == ("LElbowRoll", v.LElbowRoll) && r[15] == ("LWristPitch", v.LWristPitch)
  {
    [("XVel", v.XVel), ("YVel", v.YVel), ("YawRate", v.YawRate),
     ("BaseHeight", v.BaseHeight), ("BaseRoll", v.BaseRoll), ("BasePitch", v.BasePitch),
     ("RShoulderPitch", v.RShoulderPitch), ("RShoulderRoll", v.RShoulderRoll), ("RElbowPitch", v.RElbowPitch),
     ("RElbowRoll", v.RElbowRoll), ("RWristPitch", v.RWristPitch),
     ("LShoulderPitch", v.LShoulderPitch), ("LShoulderRoll", v.LShoulderRoll), ("LElbowPitch", v.LElbowPitch),
     ("LElbowRoll", v.LElbowRoll), ("LWristPitch", v.LWristPitch)]
  }

  /** The payload's keys are the firmware keys, in order, whatever the record. */
  lemma PayloadKeys(v: ControlVector16)
    ensures forall k | 0 <= k < |Keys| :: Payload(v)[k].0 == Keys[k]
  {
    var r := Payload(v);
    assert [r[0].0, r[1].0, r[2].0, r[3].0, r[4].0, r[5].0, r[6].0, r[7].0,
            r[8].0, r[9].0, r[10].0, r[11].0, r[12].0, r[13].0, r[14].0, r[15].0] == Keys;
  }

  /** to_msg is JsonLine(Payload(v), fmt): the JSON object with the 16 keys,
      then a newline; with a faithful float renderer the line determines
      the record. */
  lemma ToMsgInjective(v: ControlVector16, w: ControlVector16, fmt: real -> string)
    requires FaithfulFormat(fmt)
    requires JsonLine(Payload(v), fmt) == JsonLine(Payload(w), fmt)
    ensures v == w
  {
    PayloadKeys(v);
    PayloadKeys(w);
    JsonLineInjective(Payload(v), Payload(w), fmt);
    PayloadInjective(v, w);
  }

  /** The default record sends 0.2 for the right shoulder pitch, -0.1 for
      the left shoulder pitch and 0 for the other fourteen keys. */
  lemma DefaultPayload()
    ensures forall k | 0 <= k < 16 :: Payload(Default())[k].1 == (if k == 6 then 0.2 else if k == 11 then -0.1 else 0.0)
    ensures Payload(Default())[6].0 == "RShoulderPitch" && Payload(Default())[11].0 == "LShoulderPitch"
  {
    assert Keys[6] == "RShoulderPitch" && Keys[11] == "LShoulderPitch";
    assert Values(Default()) == [0.0, 0.0, 0.0, 0.0, 0.0, 0.0, 0.2, 0.0, 0.0, 0.0, 0.0, -0.1, 0.0, 0.0, 0.0, 0.0];
    assert forall k | 0 <= k < 16 :: Payload(Default())[k].1 == Values(Default())[k];
  }

  /** The payload loses no field: equal payloads come from equal records. */
  lemma PayloadInjective(v: ControlVector16, w: ControlVector16)
    requires Payload(v) == Payload(w)
    ensures v == w
  {
    assert forall k | 0 <= k < 16 :: Payload(v)[k].1 == Values(v)[k];
    assert Values(v) == Values(w);
  }

  const InitialMaxCmd: real := 0.5
  const UltimateMax: real := 1.5
  const UltimateMin: real := 0.1

  /** increase_max_cmd on the limit alone. */
  function Increased(m: real): (r: real)
    ensures r <= UltimateMax
    ensures m <= UltimateMax ==> m <= r
    ensures m + 0.1 <= UltimateMax ==> r == m + 0.1
  {
    Min(m + 0.1, UltimateMax)
  }

  /** decrease_max_cmd on the limit alone. */
  function Decreased(m: real): (r: real)
    ensures r >= UltimateMin
    ensures m >= UltimateMin ==> r <= m
    ensures m - 0.1 >= UltimateMin ==> r == m - 0.1
  {
    Max(m - 0.1, UltimateMin)
  }

  predicate InRange(m: real)
  {
    UltimateMin <= m <= UltimateMax
  }

  /** Both steps keep the limit within [0.1, 1.5], and each is a no-op at
      its own bound. */
  lemma StepsKeepRange(m: real)
    requires InRange(m)
    ensures InRange(Increased(m)) && InRange(Decreased(m))
    ensures Increased(UltimateMax) == UltimateMax && Decreased(UltimateMin) == UltimateMin
  {
  }

  /** The limit after n increases. */
  function IncreasedTimes(m: real, n: nat): real
  {
    if n == 0 then m else Increased(IncreasedTimes(m, n - 1))
  }

  /** n increases from an in-range limit add 0.1 each until 1.5 is reached. */
  lemma {:induction false} IncreasedTimesSaturates(m: real, n: nat)
    requires m <= UltimateMax
    ensures IncreasedTimes(m, n) == Min(m + 0.1 * n as real, UltimateMax)
  {
    if n > 0 {
      IncreasedTimesSaturates(m, n - 1);
    }
  }

  /** From the initial 0.5, ten increases reach the ceiling 1.5. */
  lemma TenIncreasesReachCeiling()
    ensures IncreasedTimes(InitialMaxCmd, 10) == UltimateMax
    ensures IncreasedTimes(InitialMaxCmd, 9) < UltimateMax
  {
    IncreasedTimesSaturates(InitialMaxCmd, 10);
    IncreasedTimesSaturates(InitialMaxCmd, 9);
  }

  class Commander16 {
    var maxCmd: real
    var cmds: ControlVector16
    /** The records whose to_msg was sent, oldest first. */
    var sent: seq<ControlVector16>

    predicate Valid()
      reads this
    {
      InRange(maxCmd)
    }

    constructor()
      ensures Valid()
      ensures maxCmd == InitialMaxCmd && cmds == Default() && sent == []
    {
      maxCmd := 0.5;
      cmds := Default();
      sent := [];
    }

    /** increase_max_cmd: the record is left as it is. */
    method IncreaseMaxCmd()
      requires Valid()
      modifies this
      ensures Valid()
      ensures maxCmd == Increased(old(maxCmd)) && cmds == old(cmds) && sent == old(sent)
    {
      maxCmd := Min(maxCmd + 0.1, UltimateMax);
      StepsKeepRange(old(maxCmd));
    }

    /** decrease_max_cmd: also drops every command back to its default. */
    method DecreaseMaxCmd()
      requires Valid()
      modifies this
      ensures Valid()
      ensures maxCmd == Decreased(old(maxCmd)) && cmds == Default() && sent == old(sent)
    {
      maxCmd := Max(maxCmd - 0.1, UltimateMin);
      StepsKeepRange(old(maxCmd));
      cmds := Default();
    }

    /** send: one datagram holding to_msg of the current record. */
    method Send()
      modifies this
      ensures sent == old(sent) + [cmds] && cmds == old(cmds) && maxCmd == old(maxCmd)
    {
      sent := sent + [cmds];
    }
  }
}
