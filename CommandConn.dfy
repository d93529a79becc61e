/** The 18-field command record sent to the robot firmware as one JSON line
    per datagram, and the commander that fills its arm fields from the two
    arm command lists. */
module CommandConn {
  import opened Common

  /** The fields of a ControlVector16, in declaration order. */
  datatype Field =
    | XVel | YVel | YawRate
    | BaseHeight | BaseRoll | BasePitch
    | RShoulderPitch | RShoulderRoll | RElbowPitch | RElbowRoll | RWristRoll | RWristYaw | RWristPitch
    | LShoulderPitch | LShoulderRoll | LElbowPitch | LElbowRoll | LWristPitch

  /** The JSON key of a field. */
  function Name(f: Field): string
  {
    match f
    case XVel => "XVel" case YVel => "YVel" case YawRate => "YawRate"
    case BaseHeight => "BaseHeight" case BaseRoll => "BaseRoll" case BasePitch => "BasePitch"
    case RShoulderPitch => "RShoulderPitch" case RShoulderRoll => "RShoulderRoll"
    case RElbowPitch => "RElbowPitch" case RElbowRoll => "RElbowRoll"
    case RWristRoll => "RWristRoll" case RWristYaw => "RWristYaw" case RWristPitch => "RWristPitch"
    case LShoulderPitch => "LShoulderPitch" case LShoulderRoll => "LShoulderRoll"
    case LElbowPitch => "LElbowPitch" case LElbowRoll => "LElbowRoll" case LWristPitch => "LWristPitch"
  }

  /** The serialisation order: the declaration order. */
  const FieldOrder: seq<Field> := [
    XVel, YVel, YawRate, BaseHeight, BaseRoll, BasePitch,
    RShoulderPitch, RShoulderRoll, RElbowPitch, RElbowRoll, RWristRoll, RWristYaw, RWristPitch,
    LShoulderPitch, LShoulderRoll, LElbowPitch, LElbowRoll, LWristPitch]


  /** The position of a field in the serialisation order. */
  function FieldIndex(f: Field): (k: nat)
    ensures k < |FieldOrder| && FieldOrder[k] == f
  {
    match f
    case XVel => 0 case YVel => 1 case YawRate => 2
    case BaseHeight => 3 case BaseRoll => 4 case BasePitch => 5
    case RShoulderPitch => 6 case RShoulderRoll => 7 case RElbowPitch => 8 case RElbowRoll => 9
    case RWristRoll => 10 case RWristYaw => 11 case RWristPitch => 12
    case LShoulderPitch => 13 case LShoulderRoll => 14 case LElbowPitch => 15 case LElbowRoll => 16
    case LWristPitch => 17
  }

  /** The base velocity and base pose fields, which the commander never sets. */
  predicate IsBase(f: Field)
  {
    f.XVel? || f.YVel? || f.YawRate? || f.BaseHeight? || f.BaseRoll? || f.BasePitch?
  }

  /** The fields left[0..4] and right[0..4] are written to, in order. */
  const LeftFields: seq<Field> := [LShoulderPitch, LShoulderRoll, LElbowPitch, LElbowRoll, LWristPitch]
  const RightFields: seq<Field> := [RShoulderPitch, RShoulderRoll, RElbowPitch, RElbowRoll, RWristRoll]

  /** A ControlVector16: one float per field. */
  datatype ControlVector16 = ControlVector16(
    XVel: real, YVel: real, YawRate: real,
    BaseHeight: real, BaseRoll: real, BasePitch: real,
    RShoulderPitch: real, RShoulderRoll: real, RElbowPitch: real,
    RElbowRoll: real, RWristRoll: real, RWristYaw: real,
    RWristPitch: real, LShoulderPitch: real, LShoulderRoll: real,
    LElbowPitch: real, LElbowRoll: real, LWristPitch: real)

  /** The value of a field. */
  function Get(v: ControlVector16, f: Field): real
  {
    match f
    case XVel => v.XVel
    case YVel => v.YVel
    case YawRate => v.YawRate
    case BaseHeight => v.BaseHeight
    case BaseRoll => v.BaseRoll
    case BasePitch => v.BasePitch
    case RShoulderPitch => v.RShoulderPitch
    case RShoulderRoll => v.RShoulderRoll
    case RElbowPitch => v.RElbowPitch
    case RElbowRoll => v.RElbowRoll
    case RWristRoll => v.RWristRoll
    case RWristYaw => v.RWristYaw
    case RWristPitch => v.RWristPitch
    case LShoulderPitch => v.LShoulderPitch
    case LShoulderRoll => v.LShoulderRoll
    case LElbowPitch => v.LElbowPitch
    case LElbowRoll => v.LElbowRoll
    case LWristPitch => v.LWristPitch
  }

  /** The record with one field assigned. */
  function With(v: ControlVector16, f: Field, x: real): (r: ControlVector16)
    ensures Get(r, f) == x
    ensures forall g: Field | g != f :: Get(r, g) == Get(v, g)
  {
    match f
    case XVel => v.(XVel := x)
    case YVel => v.(YVel := x)
    case YawRate => v.(YawRate := x)
    case BaseHeight => v.(BaseHeight := x)
    case BaseRoll => v.(BaseRoll := x)
    case BasePitch => v.(BasePitch := x)
    case RShoulderPitch => v.(RShoulderPitch := x)
    case RShoulderRoll => v.(RShoulderRoll := x)
    case RElbowPitch => v.(RElbowPitch := x)
    case RElbowRoll => v.(RElbowRoll := x)
    case RWristRoll => v.(RWristRoll := x)
    case RWristYaw => v.(RWristYaw := x)
    case RWristPitch => v.(RWristPitch := x)
    case LShoulderPitch => v.(LShoulderPitch := x)
    case LShoulderRoll => v.(LShoulderRoll := x)
    case LElbowPitch => v.(LElbowPitch := x)
    case LElbowRoll => v.(LElbowRoll := x)
    case LWristPitch => v.(LWristPitch := x)
  }

  /** ControlVector16() with every default 0.0. */
  function Default(): (v: ControlVector16)
    ensures forall f: Field :: Get(v, f) == 0.0
  {
    ControlVector16(0.0, 0.0, 0.0, 0.0, 0.0, 0.0, 0.0, 0.0, 0.0, 0.0, 0.0, 0.0, 0.0, 0.0, 0.0, 0.0, 0.0, 0.0)
  }

  /** The key/value pairs of the JSON object, in field order. */
  function Payload(v: ControlVector16): (r: seq<(string, real)>)
    ensures |r| == |FieldOrder|
    ensures forall k | 0 <= k < |FieldOrder| :: r[k] == (Name(FieldOrder[k]), Get(v, FieldOrder[k]))
  {
    seq(|FieldOrder|, k requires 0 <= k < |FieldOrder| => (Name(FieldOrder[k]), Get(v, FieldOrder[k])))
  }

  /** to_msg is JsonLine(Payload(v), fmt), the JSON object followed by a
      newline (UTF-8 of ASCII text); with a faithful float renderer the line
      determines the record, so decoding it gives back every field. */
  lemma ToMsgInjective(v: ControlVector16, w: ControlVector16, fmt: real -> string)
    requires FaithfulFormat(fmt)
    requires JsonLine(Payload(v), fmt) == JsonLine(Payload(w), fmt)
    ensures v == w
  {
    JsonLineInjective(Payload(v), Payload(w), fmt);
    PayloadInjective(v, w);
  }

  /** Two records with equal payloads are equal: to_msg loses no field. */
  lemma PayloadInjective(v: ControlVector16, w: ControlVector16)
    requires Payload(v) == Payload(w)
    ensures v == w
  {
    forall f: Field ensures Get(v, f) == Get(w, f) {
      var k := FieldIndex(f);
      assert Payload(v)[k] == Payload(w)[k];
    }
    FieldsDetermine(v, w);
  }

  /** A record is determined by the values Get reads from it. */
  lemma FieldsDetermine(v: ControlVector16, w: ControlVector16)
    requires forall f: Field :: Get(v, f) == Get(w, f)
    ensures v == w
  {
    assert Get(v, XVel) == Get(w, XVel);
    assert Get(v, YVel) == Get(w, YVel);
    assert Get(v, YawRate) == Get(w, YawRate);
    assert Get(v, BaseHeight) == Get(w, BaseHeight);
    assert Get(v, BaseRoll) == Get(w, BaseRoll);
    assert Get(v, BasePitch) == Get(w, BasePitch);
    assert Get(v, RShoulderPitch) == Get(w, RShoulderPitch);
    assert Get(v, RShoulderRoll) == Get(w, RShoulderRoll);
    assert Get(v, RElbowPitch) == Get(w, RElbowPitch);
    assert Get(v, RElbowRoll) == Get(w, RElbowRoll);
    assert Get(v, RWristRoll) == Get(w, RWristRoll);
    assert Get(v, RWristYaw) == Get(w, RWristYaw);
    assert Get(v, RWristPitch) == Get(w, RWristPitch);
    assert Get(v, LShoulderPitch) == Get(w, LShoulderPitch);
    assert Get(v, LShoulderRoll) == Get(w, LShoulderRoll);
    assert Get(v, LElbowPitch) == Get(w, LElbowPitch);
    assert Get(v, LElbowRoll) == Get(w, LElbowRoll);
    assert Get(v, LWristPitch) == Get(w, LWristPitch);
  }

  /** The record after a sequence of field assignments. */
  function Apply(v: ControlVector16, ws: seq<(Field, real)>): ControlVector16
  {
    if ws == [] then v else With(Apply(v, ws[..|ws| - 1]), ws[|ws| - 1].0, ws[|ws| - 1].1)
  }

  /** A field no assignment names keeps its value. */
  lemma {:induction false} ApplyKeeps(v: ControlVector16, ws: seq<(Field, real)>, f: Field)
    requires forall k | 0 <= k < |ws| :: ws[k].0 != f
    ensures Get(Apply(v, ws), f) == Get(v, f)
    decreases |ws|
  {
    if ws != [] {
      ApplyKeeps(v, ws[..|ws| - 1], f);
    }
  }

  /** The last assignment to a field decides its value. */
  lemma {:induction false} ApplyLastWins(v: ControlVector16, ws: seq<(Field, real)>, i: nat)
    requires i < |ws| && forall k | i < k < |ws| :: ws[k].0 != ws[i].0
    ensures Get(Apply(v, ws), ws[i].0) == ws[i].1
    decreases |ws|
  {
    if i < |ws| - 1 {
      ApplyLastWins(v, ws[..|ws| - 1], i);
    }
  }

  /** Running two lists of assignments is running their concatenation. */
  lemma {:induction false} ApplyAppend(v: ControlVector16, a: seq<(Field, real)>, b: seq<(Field, real)>)
    ensures Apply(v, a + b) == Apply(Apply(v, a), b)
    decreases |b|
  {
    if b == [] {
      assert a + b == a;
    } else {
      var b' := b[..|b| - 1];
      assert (a + b)[..|a + b| - 1] == a + b';
      ApplyAppend(v, a, b');
    }
  }

  function MinNat(a: nat, b: nat): nat { if a <= b then a else b }

  /** The assignments xs[k] to fields[k], in order, until either list ends. */
  function ArmWrites(fields: seq<Field>, xs: seq<real>): (r: seq<(Field, real)>)
    ensures |r| == MinNat(|xs|, |fields|)
    ensures forall k | 0 <= k < |r| :: r[k] == (fields[k], xs[k])
  {
    seq(MinNat(|xs|, |fields|), k requires 0 <= k < MinNat(|xs|, |fields|) => (fields[k], xs[k]))
  }

  /** The right-arm assignments, as written: the wrist yaw and pitch pair is
      entered whenever there are more than five entries, and the missing
      index 6 of a six-entry list stops it after the yaw. */
  function RightWrites(right: seq<real>): seq<(Field, real)>
  {
    ArmWrites(RightFields, right)
    + (if |right| > 5 then [(RWristYaw, right[5])] + (if |right| > 6 then [(RWristPitch, right[6])] else []) else [])
  }

  /** What send_commands does to the record: the assignments it completes,
      and whether it then raises IndexError (in which case nothing is sent). */
  datatype Writes = Writes(done: seq<(Field, real)>, raises: bool)

  function SendWrites(right: seq<real>, left: seq<real>): (r: Writes)
    ensures forall k | 0 <= k < |r.done| :: !IsBase(r.done[k].0)
    ensures !r.raises <==> |left| >= 5 && (|right| == 5 || |right| > 6)
  {
    if |left| < 5 then Writes(ArmWrites(LeftFields, left), true)
    else Writes(ArmWrites(LeftFields, left) + RightWrites(right), |right| < 5 || |right| == 6)
  }

  /** send_commands never touches the base velocity and base pose fields,
      whatever the inputs and whether or not it raises. */
  lemma BaseFieldsUntouched(v: ControlVector16, right: seq<real>, left: seq<real>)
    ensures forall f: Field | IsBase(f) :: Get(Apply(v, SendWrites(right, left).done), f) == Get(v, f)
  {
    forall f: Field | IsBase(f) ensures Get(Apply(v, SendWrites(right, left).done), f) == Get(v, f) {
      ApplyKeeps(v, SendWrites(right, left).done, f);
    }
  }

  /** With five entries per arm the call succeeds, left[k] lands in the k-th
      left field and right[k] in the k-th right field, and the wrist yaw and
      pitch keep their previous values. Entries of `left` past the fifth are
      ignored. */
  lemma ArmFieldMapping(v: ControlVector16, right: seq<real>, left: seq<real>)
    requires |left| >= 5 && |right| == 5
    ensures var w := SendWrites(right, left);
      && !w.raises
      && (forall k | 0 <= k < 5 :: Get(Apply(v, w.done), LeftFields[k]) == left[k])
      && (forall k | 0 <= k < 5 :: Get(Apply(v, w.done), RightFields[k]) == right[k])
      && Get(Apply(v, w.done), RWristYaw) == Get(v, RWristYaw) && Get(Apply(v, w.done), RWristPitch) == Get(v, RWristPitch)
      && w == SendWrites(right, left[..5])
  {
    var ws := SendWrites(right, left).done;
    LeftArmMapped(v, right, left);
    RightArmMapped(v, right, left);
    ApplyKeeps(v, ws, RWristYaw);
    ApplyKeeps(v, ws, RWristPitch);
    assert left[..5][..5] == left[..5];
  }

  /** With five right entries, left[k] lands in the k-th left field. */
  lemma LeftArmMapped(v: ControlVector16, right: seq<real>, left: seq<real>)
    requires |left| >= 5 && |right| == 5
    ensures forall k | 0 <= k < 5 :: Get(Apply(v, SendWrites(right, left).done), LeftFields[k]) == left[k]
  {
    var ws := SendWrites(right, left).done;
    assert |ws| == 10;
    forall k | 0 <= k < 5 ensures Get(Apply(v, ws), LeftFields[k]) == left[k] {
      assert ws[k] == (LeftFields[k], left[k]);
      ApplyLastWins(v, ws, k);
    }
  }

  /** With five right entries, right[k] lands in the k-th right field. */
  lemma RightArmMapped(v: ControlVector16, right: seq<real>, left: seq<real>)
    requires |left| >= 5 && |right| == 5
    ensures forall k | 0 <= k < 5 :: Get(Apply(v, SendWrites(right, left).done), RightFields[k]) == right[k]
  {
    var ws := SendWrites(right, left).done;
    assert |ws| == 10;
    forall k | 0 <= k < 5 ensures Get(Apply(v, ws), RightFields[k]) == right[k] {
      assert ws[5 + k] == (RightFields[k], right[k]);
      ApplyLastWins(v, ws, 5 + k);
    }
  }

  /** A six-entry right list, the shape the teleoperation cores produce,
      stores right[5] in RWristYaw and then raises IndexError on right[6]:
      no datagram is sent. */
  lemma SixEntryRightListRaises(v: ControlVector16, right: seq<real>, left: seq<real>)
    requires |left| >= 5 && |right| == 6
    ensures SendWrites(right, left).raises
    ensures Get(Apply(v, SendWrites(right, left).done), RWristYaw) == right[5]
  {
    var ws := SendWrites(right, left).done;
    assert |ws| == 11 && ws[10] == (RWristYaw, right[5]);
    ApplyLastWins(v, ws, 10);
  }

  /** The right-arm assignments with the guard matching the index read:
      the wrist yaw and pitch pair is entered only when index 6 exists. */
  function GuardedRightWrites(right: seq<real>): seq<(Field, real)>
  {
    ArmWrites(RightFields, right)
    + (if |right| > 6 then [(RWristYaw, right[5]), (RWristPitch, right[6])] else [])
  }

  function GuardedSendWrites(right: seq<real>, left: seq<real>): (r: Writes)
    ensures forall k | 0 <= k < |r.done| :: !IsBase(r.done[k].0)
  {
    if |left| < 5 then Writes(ArmWrites(LeftFields, left), true)
    else Writes(ArmWrites(LeftFields, left) + GuardedRightWrites(right), |right| < 5)
  }

  /** With the guard on index 6, any pair of arm lists with at least five
      entries each is sent, a six-entry right list leaves the wrist yaw and
      pitch unchanged, and a longer one sets both. */
  lemma GuardedNeverRaises(v: ControlVector16, right: seq<real>, left: seq<real>)
    requires |left| >= 5 && |right| >= 5
    ensures !GuardedSendWrites(right, left).raises
    ensures |right| == 6 ==> Get(Apply(v, GuardedSendWrites(right, left).done), RWristYaw) == Get(v, RWristYaw)
    ensures |right| == 6 ==> Get(Apply(v, GuardedSendWrites(right, left).done), RWristPitch) == Get(v, RWristPitch)
    ensures |right| > 6 ==> Get(Apply(v, GuardedSendWrites(right, left).done), RWristYaw) == right[5]
    ensures |right| > 6 ==> Get(Apply(v, GuardedSendWrites(right, left).done), RWristPitch) == right[6]
  {
    var ws := GuardedSendWrites(right, left).done;
    if |right| == 6 {
      ApplyKeeps(v, ws, RWristYaw);
      ApplyKeeps(v, ws, RWristPitch);
    } else if |right| > 6 {
      assert |ws| == 12 && ws[10] == (RWristYaw, right[5]) && ws[11] == (RWristPitch, right[6]);
      ApplyLastWins(v, ws, 10);
      ApplyLastWins(v, ws, 11);
    }
  }

  /** The commander: the record persists across calls. */
  class Commander16 {
    var cmds: ControlVector16
    var maxCmd: real
    /** The records whose to_msg was sent, oldest first. */
    var sent: seq<ControlVector16>

    constructor()
      ensures cmds == Default() && maxCmd == 0.5 && sent == []
    {
      cmds := Default();
      maxCmd := 0.5;
      sent := [];
    }

    /** Assigns xs[k] to fields[k] for k in order; false when xs runs out
        first (the IndexError of the next subscript). */
    method WriteArm(fields: seq<Field>, xs: seq<real>) returns (complete: bool)
      modifies this
      ensures cmds == Apply(old(cmds), ArmWrites(fields, xs))
      ensures complete <==> |xs| >= |fields|
      ensures maxCmd == old(maxCmd) && sent == old(sent)
    {
      ghost var start := cmds;
      var k := 0;
      while k < |fields|
        invariant 0 <= k <= |fields| && k <= |xs|
        invariant cmds == Apply(start, ArmWrites(fields, xs)[..k])
        invariant maxCmd == old(maxCmd) && sent == old(sent)
      {
        if |xs| <= k {
          assert ArmWrites(fields, xs)[..k] == ArmWrites(fields, xs);
          return false;
        }
        assert ArmWrites(fields, xs)[..k + 1][..k] == ArmWrites(fields, xs)[..k];
        cmds := With(cmds, fields[k], xs[k]);
        k := k + 1;
      }
      assert ArmWrites(fields, xs)[..k] == ArmWrites(fields, xs);
      complete := true;
    }

    /** The right-arm half of send_commands: five joints, then the wrist
        yaw and pitch pair when the list is longer than five. */
    method WriteRight(right: seq<real>) returns (complete: bool)
      modifies this
      ensures cmds == Apply(old(cmds), RightWrites(right))
      ensures complete <==> |right| == 5 || |right| > 6
      ensures maxCmd == old(maxCmd) && sent == old(sent)
    {
      complete := WriteArm(RightFields, right);
      ghost var arm := ArmWrites(RightFields, right);
      if !complete {
        assert RightWrites(right) == arm;
        return;
      }
      if |right| > 5 {
        ghost var yaw := arm + [(RWristYaw, right[5])];
        assert yaw[..|yaw| - 1] == arm;
        cmds := With(cmds, RWristYaw, right[5]);
        if |right| <= 6 {
          assert RightWrites(right) == yaw;
          return false;
        }
        ghost var pitch := yaw + [(RWristPitch, right[6])];
        assert pitch[..|pitch| - 1] == yaw;
        cmds := With(cmds, RWristPitch, right[6]);
        assert RightWrites(right) == pitch;
      } else {
        assert RightWrites(right) == arm;
      }
    }

    /** send_commands(right_arm_angles, left_arm_angles). */
    method SendCommands(right: seq<real>, left: seq<real>) returns (r: Result<()>)
      modifies this
      ensures cmds == Apply(old(cmds), SendWrites(right, left).done)
      ensures r.Err? <==> SendWrites(right, left).raises
      ensures r.Err? ==> r.error == "IndexError" && sent == old(sent)
      ensures r.Ok? ==> sent == old(sent) + [cmds]
      ensures maxCmd == old(maxCmd)
    {
      ghost var start := cmds;
      var complete := WriteArm(LeftFields, left);
      if !complete {
        return Err("IndexError");
      }
      complete := WriteRight(right);
      ApplyAppend(start, ArmWrites(LeftFields, left), RightWrites(right));
      if !complete {
        return Err("IndexError");
      }
      sent := sent + [cmds];
      r := Ok(());
    }
  }
}
