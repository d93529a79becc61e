/** The VR client's per-frame tracking step: it packs tracked hands as 25
    joint transforms each, falls back to controller poses and gamepad
    readings when a hand is missing, sends the result over the WebSocket at
    most every 25 ms unless commands are paused, and turns controller button
    presses into the pause toggle and the joystick scale. */
module Tracking {
  import opened Common
  import opened Matrix
  import Convert
  import ThreeScene

  /** One gamepad button: whether it is pressed and its analogue value. */
  datatype Button = Button(pressed: bool, value: real)

  /** A gamepad's buttons and axes. */
  datatype Gamepad = Gamepad(buttons: seq<Button>, axes: seq<real>)

  /** A tracked hand: the joint spaces it has, by XRHandJoint name, each with
      the pose getJointPose gives it this frame (None for null). */
  type Hand = map<string, Option<Convert.JointPose>>

  /** An XR input source. `gripPose` is None without a grip space, and
      otherwise the pose getPose gives that space (None for null). */
  datatype InputSource = InputSource(
    handedness: string,
    targetRayMode: string,
    hand: Option<Hand>,
    gripPose: Option<Option<Convert.JointPose>>,
    gamepad: Option<Gamepad>)

  /** An XR frame: the session's input sources, and whether the browser
      offers getJointPose at all. */
  datatype Frame = Frame(sources: seq<InputSource>, hasJointPose: bool)

  // ---------------------------------------------------------------------
  // Controller target shift
  // ---------------------------------------------------------------------

  /** v rotated by q, as q v q* written out with the quaternion product. */
  function Rotate(v: Vec3, q: Convert.Quat): Vec3
  {
    var ix := q.w * v.x + q.y * v.z - q.z * v.y;
    var iy := q.w * v.y + q.z * v.x - q.x * v.z;
    var iz := q.w * v.z + q.x * v.y - q.y * v.x;
    var iw := -q.x * v.x - q.y * v.y - q.z * v.z;
    Vec3(ix * q.w + iw * -q.x + iy * -q.z - iz * -q.y,
         iy * q.w + iw * -q.y + iz * -q.x - ix * -q.z,
         iz * q.w + iw * -q.z + ix * -q.y - iy * -q.x)
  }

  /** The direction a controller points: -z in its own frame. */
  const Forward: Vec3 := Vec3(0.0, 0.0, -1.0)

  /** How far the reported target sits behind the grip, in metres. */
  const GripOffset: real := 0.09

  /** shiftTargetWithOrientation: pos moved `offset` against the rotated
      forward direction. */
  function ShiftTarget(pos: Vec3, q: Convert.Quat, offset: real): (r: Vec3)
    ensures offset == 0.0 ==> r == pos
    ensures q == Convert.Quat(0.0, 0.0, 0.0, 1.0) ==> r == Vec3(pos.x, pos.y, pos.z + offset)
  {
    var f := Rotate(Forward, q);
    Vec3(pos.x - f.x * offset, pos.y - f.y * offset, pos.z - f.z * offset)
  }

  function Dist2(a: Vec3, b: Vec3): real
  {
    (a.x - b.x) * (a.x - b.x) + (a.y - b.y) * (a.y - b.y) + (a.z - b.z) * (a.z - b.z)
  }

  /** Without rotation the target moves +offset along z; a zero offset
      keeps the position. */
  lemma ShiftIdentityAndZero(pos: Vec3, q: Convert.Quat, offset: real)
    ensures ShiftTarget(pos, Convert.Quat(0.0, 0.0, 0.0, 1.0), offset) == Vec3(pos.x, pos.y, pos.z + offset)
    ensures ShiftTarget(pos, q, 0.0) == pos
  {
  }

  /** The rotated forward direction, multiplied out. */
  lemma ForwardComponents(q: Convert.Quat)
    ensures Rotate(Forward, q) == Vec3(-2.0 * (q.w * q.y + q.x * q.z), 2.0 * (q.x * q.w - q.y * q.z),
                                       q.x * q.x + q.y * q.y - q.w * q.w - q.z * q.z)
  {
  }

  /** For a unit quaternion the rotated forward direction is minus the
      third column of the rotation matrix the server builds from the same
      quaternion. */
  lemma ForwardIsRotatedAxis(q: Convert.Quat)
    requires Convert.Unit(q)
    ensures Rotate(Forward, q) == Neg(Apply3(Rotation(Convert.QuatMatrix(q)), Vec3(0.0, 0.0, 1.0)))
  {
    ForwardComponents(q);
    ApplyToZ(Rotation(Convert.QuatMatrix(q)));
    ThirdColumn(q);
    assert q.w * q.w + q.z * q.z == 1.0 - q.x * q.x - q.y * q.y;
  }

  /** Applying a matrix to the z axis picks its third column. */
  lemma ApplyToZ(m: Mat3)
    ensures Apply3(m, Vec3(0.0, 0.0, 1.0)) == Vec3(m[0][2], m[1][2], m[2][2])
  {
  }

  /** The third column of the server's rotation matrix, multiplied out. */
  lemma ThirdColumn(q: Convert.Quat)
    ensures var m := Rotation(Convert.QuatMatrix(q));
      && m[0][2] == 2.0 * q.x * q.z + 2.0 * q.y * q.w
      && m[1][2] == 2.0 * q.y * q.z - 2.0 * q.x * q.w
      && m[2][2] == 1.0 - 2.0 * q.x * q.x - 2.0 * q.y * q.y
  {
  }

  /** The cross terms cancel: 4 (wy + xz)^2 + 4 (xw - yz)^2 = 4 (x^2 + y^2)(w^2 + z^2). */
  lemma CrossTerms(w: real, x: real, y: real, z: real)
    ensures (-2.0 * (w * y + x * z)) * (-2.0 * (w * y + x * z)) + (2.0 * (x * w - y * z)) * (2.0 * (x * w - y * z))
         == 4.0 * (x * x + y * y) * (w * w + z * z)
  {
  }

  /** 4ab + (a - b)^2 = (a + b)^2. */
  lemma SquareOfSum(a: real, b: real)
    ensures 4.0 * a * b + (a - b) * (a - b) == (a + b) * (a + b)
  {
  }

  /** For a unit quaternion the rotated forward direction has length 1. */
  lemma ForwardUnit(q: Convert.Quat)
    requires Convert.Unit(q)
    ensures var f := Rotate(Forward, q); f.x * f.x + f.y * f.y + f.z * f.z == 1.0
  {
    var f := Rotate(Forward, q);
    var a := q.x * q.x + q.y * q.y;
    var b := q.w * q.w + q.z * q.z;
    ForwardComponents(q);
    CrossTerms(q.w, q.x, q.y, q.z);
    assert f.z == a - b;
    SquareOfSum(a, b);
    assert a + b == 1.0;
  }

  /** Moving a point by -offset f moves it |f|^2 offset^2 in squared
      distance. */
  lemma ScaledDisplacement(pos: Vec3, f: Vec3, offset: real)
    ensures Dist2(Vec3(pos.x - f.x * offset, pos.y - f.y * offset, pos.z - f.z * offset), pos)
         == (f.x * f.x + f.y * f.y + f.z * f.z) * (offset * offset)
  {
  }

  /** For a unit quaternion the target sits exactly `offset` away from the
      grip. */
  lemma ShiftDistance(pos: Vec3, q: Convert.Quat, offset: real)
    requires Convert.Unit(q)
    ensures Dist2(ShiftTarget(pos, q, offset), pos) == offset * offset
  {
    ForwardUnit(q);
    ScaledDisplacement(pos, Rotate(Forward, q), offset);
  }

  // ---------------------------------------------------------------------
  // Hand packing
  // ---------------------------------------------------------------------

  /** The identity block pushed for a joint without a pose. */
  const IdentityPush: seq<real> := [
    1.0, 0.0, 0.0, 0.0, 0.0, 1.0, 0.0, 0.0, 0.0, 0.0, 1.0, 0.0, 0.0, 0.0, 0.0, 1.0]

  /** The sixteen values one joint contributes: its transform matrix
      (column-major, as XRRigidTransform.matrix) or the identity. */
  function JointBlock(frame: Frame, hand: Hand, name: string): seq<real>
  {
    if name in hand && frame.hasJointPose && hand[name].Some? then Convert.MatrixOf(hand[name].value)
    else IdentityPush
  }

  /** The blocks of the first n joints of the order. */
  function BlocksUpTo(frame: Frame, hand: Hand, n: nat): seq<seq<real>>
    requires n <= |Convert.JointOrder|
  {
    seq(n, k requires 0 <= k < n => JointBlock(frame, hand, Convert.JointOrder[k]))
  }

  /** The joints that have a pose this frame, as the server's frame format
      holds them. */
  function Tracked(frame: Frame, hand: Hand): Convert.HandJson
  {
    Convert.HandJson(map name | name in hand && frame.hasJointPose && hand[name].Some? :: hand[name].value)
  }

  /** The identity block pushed literally is np.eye(4) flattened. */
  lemma IdentityPushIsIdentityBlock()
    ensures IdentityPush == Convert.IdentityBlock()
  {
    var b := Convert.IdentityBlock();
    forall k | 0 <= k < 16
      ensures b[k] == IdentityPush[k]
    {
      assert b[k] == Identity()[k % 4][k / 4];
    }
  }

  /** One hand's array: its 25 blocks concatenated in joint order. It is
      exactly the array the server's converter builds from the tracked
      joints, so it holds 400 values, block k being joint k's transform or
      the identity. */
  function HandArrayOf(frame: Frame, hand: Hand): (r: seq<real>)
    ensures r == Convert.HandArray(Tracked(frame, hand))
    ensures |r| == 400
  {
    IdentityPushIsIdentityBlock();
    var t := Tracked(frame, hand);
    assert BlocksUpTo(frame, hand, 25) == Convert.Blocks(t);
    Convert.HandArrayLayout(t);
    Convert.Concat(BlocksUpTo(frame, hand, 25))
  }

  /** The joint loop of one hand: one push of sixteen values per joint. */
  method PackHand(frame: Frame, hand: Hand) returns (values: seq<real>)
    ensures values == HandArrayOf(frame, hand)
  {
    values := [];
    for i := 0 to |Convert.JointOrder|
      invariant values == Convert.Concat(BlocksUpTo(frame, hand, i))
    {
      ghost var before := values;
      var name := Convert.JointOrder[i];
      if name in hand && frame.hasJointPose {
        var pose := hand[name];
        if pose.Some? {
          values := values + Convert.MatrixOf(pose.value);
        } else {
          values := values + IdentityPush;
        }
      } else {
        values := values + IdentityPush;
      }
      assert values == before + JointBlock(frame, hand, name);
      BlocksStep(frame, hand, i);
    }
  }

  /** The blocks of one more joint append that joint's block. */
  lemma BlocksStep(frame: Frame, hand: Hand, i: nat)
    requires i < |Convert.JointOrder|
    ensures Convert.Concat(BlocksUpTo(frame, hand, i + 1))
         == Convert.Concat(BlocksUpTo(frame, hand, i)) + JointBlock(frame, hand, Convert.JointOrder[i])
  {
    ConcatStep(BlocksUpTo(frame, hand, i + 1));
    assert BlocksUpTo(frame, hand, i + 1)[..i] == BlocksUpTo(frame, hand, i);
  }

  /** Concatenating one more block appends it. */
  lemma ConcatStep(blocks: seq<seq<real>>)
    requires blocks != []
    ensures Convert.Concat(blocks) == Convert.Concat(blocks[..|blocks| - 1]) + blocks[|blocks| - 1]
  {
  }

  /** The wrist pose of a hand, when the frame gives one. */
  function WristPose(frame: Frame, hand: Hand): Option<Convert.JointPose>
  {
    if "wrist" in hand && frame.hasJointPose then hand["wrist"] else None
  }

  /** handData after the first n sources: each hand source stores its array
      under its handedness, a later one replacing an earlier one. */
  function HandDataOf(frame: Frame, n: nat): (r: map<string, seq<real>>)
    requires n <= |frame.sources|
    ensures forall side | side in r :: |r[side]| == 400
    ensures forall i | 0 <= i < n && frame.sources[i].hand.Some? :: frame.sources[i].handedness in r
  {
    if n == 0 then map[]
    else
      var prev := HandDataOf(frame, n - 1);
      var s := frame.sources[n - 1];
      if s.hand.Some? then prev[s.handedness := HandArrayOf(frame, s.hand.value)] else prev
  }

  /** handPositions after the first n sources: left and right start null,
      and a hand source with a wrist pose records it under its handedness. */
  function WristsOf(frame: Frame, n: nat): (r: map<string, Option<Convert.JointPose>>)
    requires n <= |frame.sources|
    ensures "left" in r && "right" in r
  {
    if n == 0 then map["left" := None, "right" := None]
    else
      var prev := WristsOf(frame, n - 1);
      var s := frame.sources[n - 1];
      if s.hand.Some? && WristPose(frame, s.hand.value).Some? then prev[s.handedness := WristPose(frame, s.hand.value)]
      else prev
  }

  /** A hand source, with its handedness. */
  predicate HandSourceAt(frame: Frame, i: nat, side: string)
    requires i < |frame.sources|
  {
    frame.sources[i].hand.Some? && frame.sources[i].handedness == side
  }

  /** handData has a key for exactly the handednesses of the hand sources,
      and each value is the array of one of them: 400 values. */
  lemma HandDataFacts(frame: Frame, n: nat)
    requires n <= |frame.sources|
    ensures forall side :: side in HandDataOf(frame, n) <==> exists i | 0 <= i < n :: HandSourceAt(frame, i, side)
    ensures forall side | side in HandDataOf(frame, n) :: exists i | 0 <= i < n && HandSourceAt(frame, i, side) ::
      HandDataOf(frame, n)[side] == HandArrayOf(frame, frame.sources[i].hand.value)
    ensures forall side | side in HandDataOf(frame, n) :: |HandDataOf(frame, n)[side]| == 400
  {
    HandDataKeys(frame, n);
    HandDataValues(frame, n);
  }

  lemma {:induction false} HandDataKeys(frame: Frame, n: nat)
    requires n <= |frame.sources|
    ensures forall side :: side in HandDataOf(frame, n) <==> exists i | 0 <= i < n :: HandSourceAt(frame, i, side)
  {
    if n > 0 {
      HandDataKeys(frame, n - 1);
      forall side
        ensures side in HandDataOf(frame, n) <==> exists i | 0 <= i < n :: HandSourceAt(frame, i, side)
      {
        if side in HandDataOf(frame, n) && side !in HandDataOf(frame, n - 1) {
          assert HandSourceAt(frame, n - 1, side);
        }
        if exists i | 0 <= i < n :: HandSourceAt(frame, i, side) {
          var i :| 0 <= i < n && HandSourceAt(frame, i, side);
          if i < n - 1 {
            assert side in HandDataOf(frame, n - 1);
          }
        }
      }
    }
  }

  lemma {:induction false} HandDataValues(frame: Frame, n: nat)
    requires n <= |frame.sources|
    ensures forall side | side in HandDataOf(frame, n) :: exists i | 0 <= i < n && HandSourceAt(frame, i, side) ::
      HandDataOf(frame, n)[side] == HandArrayOf(frame, frame.sources[i].hand.value)
    ensures forall side | side in HandDataOf(frame, n) :: |HandDataOf(frame, n)[side]| == 400
  {
    if n > 0 {
      HandDataValues(frame, n - 1);
      forall side | side in HandDataOf(frame, n)
        ensures exists i | 0 <= i < n && HandSourceAt(frame, i, side) ::
          HandDataOf(frame, n)[side] == HandArrayOf(frame, frame.sources[i].hand.value)
        ensures |HandDataOf(frame, n)[side]| == 400
      {
        var s := frame.sources[n - 1];
        if s.hand.Some? && s.handedness == side {
          assert HandSourceAt(frame, n - 1, side);
        } else {
          assert side in HandDataOf(frame, n - 1);
          var i :| 0 <= i < n - 1 && HandSourceAt(frame, i, side) &&
            HandDataOf(frame, n - 1)[side] == HandArrayOf(frame, frame.sources[i].hand.value);
          assert HandDataOf(frame, n)[side] == HandDataOf(frame, n - 1)[side];
        }
      }
    }
  }

  /** A side's wrist is found exactly when some hand source of that side
      has a wrist pose. */
  lemma {:induction false} WristFound(frame: Frame, n: nat, side: string)
    requires n <= |frame.sources|
    requires side == "left" || side == "right"
    ensures WristsOf(frame, n)[side].Some? <==>
      exists i | 0 <= i < n :: HandSourceAt(frame, i, side) && WristPose(frame, frame.sources[i].hand.value).Some?
  {
    if n > 0 {
      WristFound(frame, n - 1, side);
    }
  }

  // ---------------------------------------------------------------------
  // Controller entries
  // ---------------------------------------------------------------------

  /** What one controller reports. */
  datatype ControllerEntry = ControllerEntry(
    position: Vec3, orientation: Convert.Quat,
    trigger: real, grip: real, buttons: seq<bool>,
    joystickX: real, joystickY: real)

  /** A tracked-pointer source with a grip space and no hand. */
  predicate IsController(s: InputSource)
  {
    s.targetRayMode == "tracked-pointer" && s.gripPose.Some? && s.hand.None?
  }

  /** buttons[i]?.value || 0, and 0 without a gamepad. */
  function ButtonValue(g: Option<Gamepad>, i: nat): real
  {
    if g.Some? && i < |g.value.buttons| then g.value.buttons[i].value else 0.0
  }

  /** axes[i] || 0, and 0 without a gamepad. */
  function Axis(g: Option<Gamepad>, i: nat): real
  {
    if g.Some? && i < |g.value.axes| then g.value.axes[i] else 0.0
  }

  /** Which buttons are pressed; none without a gamepad. */
  function Pressed(g: Option<Gamepad>): (r: seq<bool>)
    ensures g.None? ==> r == []
    ensures g.Some? ==> |r| == |g.value.buttons| && forall i | 0 <= i < |r| :: r[i] == g.value.buttons[i].pressed
  {
    if g.None? then [] else seq(|g.value.buttons|, i requires 0 <= i < |g.value.buttons| => g.value.buttons[i].pressed)
  }

  /** The entry of a controller with grip pose `pose`. */
  function EntryOf(s: InputSource, pose: Convert.JointPose, scale: real): (r: ControllerEntry)
    ensures r.position == ShiftTarget(pose.position, pose.orientation, GripOffset)
    ensures s.gamepad.None? ==> r.trigger == 0.0 && r.grip == 0.0 && r.buttons == [] && r.joystickX == 0.0 && r.joystickY == 0.0
    ensures s.gamepad.Some? && |s.gamepad.value.axes| > 3 ==>
      r.joystickX == s.gamepad.value.axes[2] * scale && r.joystickY == -s.gamepad.value.axes[3] * scale
  {
    ControllerEntry(
      ShiftTarget(pose.position, pose.orientation, GripOffset), pose.orientation,
      ButtonValue(s.gamepad, 0), ButtonValue(s.gamepad, 1), Pressed(s.gamepad),
      Axis(s.gamepad, 2) * scale, -Axis(s.gamepad, 3) * scale)
  }

  /** A controller source whose grip pose is known this frame. */
  predicate PosedControllerAt(frame: Frame, i: nat, side: string)
    requires i < |frame.sources|
  {
    IsController(frame.sources[i]) && frame.sources[i].gripPose.value.Some? && frame.sources[i].handedness == side
  }

  /** controllerData after the first n sources: left and right start null,
      and each posed controller stores its entry under its handedness. */
  function ControllersOf(frame: Frame, scale: real, n: nat): (r: map<string, Option<ControllerEntry>>)
    requires n <= |frame.sources|
    ensures "left" in r && "right" in r
  {
    if n == 0 then map["left" := None, "right" := None]
    else
      var prev := ControllersOf(frame, scale, n - 1);
      var s := frame.sources[n - 1];
      if IsController(s) && s.gripPose.value.Some? then prev[s.handedness := Some(EntryOf(s, s.gripPose.value.value, scale))]
      else prev
  }

  /** Every entry comes from a posed controller of that side; a side's
      entry is present exactly when such a controller exists. */
  lemma {:induction false} ControllerFacts(frame: Frame, scale: real, n: nat)
    requires n <= |frame.sources|
    ensures forall side | side in ControllersOf(frame, scale, n) && ControllersOf(frame, scale, n)[side].Some? ::
      exists i | 0 <= i < n && PosedControllerAt(frame, i, side) ::
        ControllersOf(frame, scale, n)[side].value == EntryOf(frame.sources[i], frame.sources[i].gripPose.value.value, scale)
    ensures forall side | side == "left" || side == "right" ::
      ControllersOf(frame, scale, n)[side].Some? <==> exists i | 0 <= i < n :: PosedControllerAt(frame, i, side)
  {
    if n > 0 {
      ControllerFacts(frame, scale, n - 1);
    }
  }

  // ---------------------------------------------------------------------
  // The tracking step
  // ---------------------------------------------------------------------

  /** What a tracking step produces: hand arrays with the wrist poses, or
      controller entries (which are both positions and payload). */
  datatype TrackingResult =
    | HandResult(wrists: map<string, Option<Convert.JointPose>>, hands: map<string, seq<real>>)
    | ControllerResult(controllers: map<string, Option<ControllerEntry>>)

  /** Object.keys(payload).length. */
  function PayloadSize(r: TrackingResult): nat
  {
    if r.HandResult? then |r.hands.Keys| else |r.controllers.Keys|
  }

  /** The result of one step: hands when both wrists were found, otherwise
      controllers. */
  function TrackingOf(frame: Frame, scale: real): (r: TrackingResult)
    ensures r.HandResult? ==> "left" in r.wrists && "right" in r.wrists && r.wrists["left"].Some? && r.wrists["right"].Some?
    ensures r.HandResult? ==> forall side | side in r.hands :: |r.hands[side]| == 400
    ensures r.ControllerResult? ==> "left" in r.controllers && "right" in r.controllers
  {
    var n := |frame.sources|;
    var wrists := WristsOf(frame, n);
    if wrists["left"].None? || wrists["right"].None? then ControllerResult(ControllersOf(frame, scale, n))
    else HandResult(wrists, HandDataOf(frame, n))
  }

  /** Hands are reported exactly when both a left and a right hand source
      have a wrist pose; the controller fallback always has a left and a
      right key, so its payload is never empty. */
  lemma FallbackRule(frame: Frame, scale: real)
    ensures TrackingOf(frame, scale).HandResult? <==>
      && (exists i | 0 <= i < |frame.sources| :: HandSourceAt(frame, i, "left") && WristPose(frame, frame.sources[i].hand.value).Some?)
      && (exists i | 0 <= i < |frame.sources| :: HandSourceAt(frame, i, "right") && WristPose(frame, frame.sources[i].hand.value).Some?)
    ensures TrackingOf(frame, scale).ControllerResult? ==> PayloadSize(TrackingOf(frame, scale)) >= 2
  {
    WristFound(frame, |frame.sources|, "left");
    WristFound(frame, |frame.sources|, "right");
    var r := TrackingOf(frame, scale);
    if r.ControllerResult? {
      assert {"left", "right"} <= r.controllers.Keys;
      assert |{"left", "right"}| == 2;
      SubsetSize({"left", "right"}, r.controllers.Keys);
    }
  }

  lemma SubsetSize<T>(a: set<T>, b: set<T>)
    requires a <= b
    ensures |a| <= |b|
  {
    assert b == a + (b - a);
  }

  /** A mutable holder, as a React ref. */
  class Ref {
    var current: real

    constructor(current: real)
      ensures this.current == current
    {
      this.current := current;
    }
  }

  /** The client's WebSocket: whether it is open, and the payloads sent. */
  class Socket<T> {
    var open: bool
    var sent: seq<T>

    constructor(open: bool)
      ensures this.open == open && sent == []
    {
      this.open := open;
      sent := [];
    }
  }

  /** 1000 / 40 ms between sends. */
  const SendInterval: real := 25.0

  /** handleHandTracking: the loop over the sources. */
  method HandleHandTracking(frame: Frame) returns (r: TrackingResult)
    ensures r == HandResult(WristsOf(frame, |frame.sources|), HandDataOf(frame, |frame.sources|))
  {
    var hands: map<string, seq<real>> := map[];
    var wrists: map<string, Option<Convert.JointPose>> := map["left" := None, "right" := None];
    for i := 0 to |frame.sources|
      invariant hands == HandDataOf(frame, i) && wrists == WristsOf(frame, i)
    {
      var source := frame.sources[i];
      if source.hand.Some? {
        var hand := source.hand.value;
        if "wrist" in hand && frame.hasJointPose {
          var wrist := hand["wrist"];
          if wrist.Some? {
            wrists := wrists[source.handedness := wrist];
          }
        }
        var values := PackHand(frame, hand);
        hands := hands[source.handedness := values];
      }
    }
    r := HandResult(wrists, hands);
  }

  /** The entry the controller loop builds for one posed controller: the
      shifted grip position, its orientation, and the gamepad readings, zero
      without a gamepad. */
  method ReadController(source: InputSource, pose: Convert.JointPose, scale: real) returns (entry: ControllerEntry)
    ensures entry == EntryOf(source, pose, scale)
  {
    var g := source.gamepad;
    var trigger, grip, joystickX, joystickY := 0.0, 0.0, 0.0, 0.0;
    var buttons: seq<bool> := [];
    if g.Some? {
      trigger := if |g.value.buttons| > 0 then g.value.buttons[0].value else 0.0;
      grip := if |g.value.buttons| > 1 then g.value.buttons[1].value else 0.0;
      buttons := Pressed(g);
      joystickX := if |g.value.axes| > 2 then g.value.axes[2] else 0.0;
      joystickY := -(if |g.value.axes| > 3 then g.value.axes[3] else 0.0);
    }
    entry := ControllerEntry(
      ShiftTarget(pose.position, pose.orientation, GripOffset), pose.orientation,
      trigger, grip, buttons, joystickX * scale, joystickY * scale);
  }

  /** handleControllerTracking: the loop over the sources. */
  method HandleControllerTracking(frame: Frame, scale: real) returns (r: TrackingResult)
    ensures r == ControllerResult(ControllersOf(frame, scale, |frame.sources|))
  {
    var controllers: map<string, Option<ControllerEntry>> := map["left" := None, "right" := None];
    for i := 0 to |frame.sources|
      invariant controllers == ControllersOf(frame, scale, i)
    {
      var source := frame.sources[i];
      if source.targetRayMode == "tracked-pointer" && source.gripPose.Some? && source.hand.None? {
        var pose := source.gripPose.value;
        if pose.Some? {
          var entry := ReadController(source, pose.value, scale);
          controllers := controllers[source.handedness := Some(entry)];
        }
      }
    }
    r := ControllerResult(controllers);
  }

  /** handleTracking: the 25 ms gate, the controller fallback, and the send,
      which happens only when commands are not paused, the socket is open
      and the payload has a key. */
  method HandleTracking(frame: Frame, now: real, ws: Socket?<TrackingResult>, lastHandSend: Ref,
                        pauseCommands: bool, joystickScale: real) returns (r: Option<TrackingResult>)
    modifies lastHandSend, ws
    ensures now - old(lastHandSend.current) < SendInterval ==> r.None? && lastHandSend.current == old(lastHandSend.current)
    ensures now - old(lastHandSend.current) >= SendInterval ==>
      r == Some(TrackingOf(frame, joystickScale)) && lastHandSend.current == now
    ensures ws != null ==> ws.open == old(ws.open)
    ensures ws != null ==>
      ws.sent == old(ws.sent) + (if r.Some? && !pauseCommands && ws.open && PayloadSize(r.value) > 0 then [r.value] else [])
  {
    if now - lastHandSend.current >= SendInterval {
      lastHandSend.current := now;
    } else {
      return None;
    }
    var response := HandleHandTracking(frame);
    if response.wrists["left"].None? || response.wrists["right"].None? {
      response := HandleControllerTracking(frame, joystickScale);
    }
    r := Some(response);
    if pauseCommands {
      return;
    }
    if ws != null && ws.open && PayloadSize(response) > 0 {
      ws.sent := ws.sent + [response];
    }
  }

  // ---------------------------------------------------------------------
  // Controller buttons: pause toggle and joystick scale
  // ---------------------------------------------------------------------

  /** The part of the scene state the button handler reads and writes. */
  datatype InputState = InputState(pause: bool, scale: real, previous: map<string, bool>)

  function Snapshot(state: ThreeScene.SceneState): InputState
    reads state
  {
    InputState(state.pauseCommands, state.joystickScale, state.previousButtonStates)
  }

  const PauseKey: string := "left-controller-4"
  const ScaleDownKey: string := "right-controller-a"
  const ScaleUpKey: string := "right-controller-b"

  /** The left button that toggles pausing (X on Quest controllers). */
  const PauseButton: nat := 4

  /** How much one A or B press changes the joystick scale. */
  const ScaleStep: real := 0.05

  /** previousButtonStates.get(key) || false. */
  function Previous(states: map<string, bool>, key: string): bool
  {
    key in states && states[key]
  }

  /** A press that was not held on the previous frame. */
  predicate Rising(st: InputState, key: string, pressed: bool)
  {
    pressed && !Previous(st.previous, key)
  }

  /** The left controller's pause button, guarded by the existence of the
      button that is read. */
  function LeftStep(st: InputState, buttons: seq<Button>): (r: InputState)
    ensures r.scale == st.scale
    ensures r.pause != st.pause <==> |buttons| > PauseButton && Rising(st, PauseKey, buttons[PauseButton].pressed)
    ensures |buttons| > PauseButton ==> r.previous == st.previous[PauseKey := buttons[PauseButton].pressed]
  {
    if |buttons| > PauseButton then
      var pressed := buttons[PauseButton].pressed;
      InputState(if Rising(st, PauseKey, pressed) then !st.pause else st.pause, st.scale, st.previous[PauseKey := pressed])
    else st
  }

  /** The left controller's pause button as the handler writes it: the
      guard tests buttons[2] but buttons[4] is read, so a gamepad with three
      or four buttons reads .pressed of undefined. */
  function LeftStepAsWritten(st: InputState, buttons: seq<Button>): (r: Result<InputState>)
    ensures r.Err? <==> 2 < |buttons| <= PauseButton
    ensures r.Ok? ==> r.value == LeftStep(st, buttons)
  {
    if |buttons| > 2 then
      if |buttons| > PauseButton then
        var pressed := buttons[PauseButton].pressed;
        Ok(InputState(if Rising(st, PauseKey, pressed) then !st.pause else st.pause, st.scale, st.previous[PauseKey := pressed]))
      else Err("TypeError")
    else Ok(st)
  }

  /** The right controller: A (button 4) lowers the scale by 0.05 but not
      below 0, then B (button 5) raises it by 0.05. */
  function RightStep(st: InputState, buttons: seq<Button>): (r: InputState)
    ensures r.pause == st.pause
    ensures st.scale >= 0.0 ==> r.scale >= 0.0
    ensures |buttons| <= 4 ==> r == st
  {
    var afterA :=
      if |buttons| > 4 then
        var pressed := buttons[4].pressed;
        InputState(st.pause, if Rising(st, ScaleDownKey, pressed) then Max(0.0, st.scale - ScaleStep) else st.scale,
                   st.previous[ScaleDownKey := pressed])
      else st;
    if |buttons| > 5 then
      var pressed := buttons[5].pressed;
      InputState(afterA.pause, if Rising(afterA, ScaleUpKey, pressed) then afterA.scale + ScaleStep else afterA.scale,
                 afterA.previous[ScaleUpKey := pressed])
    else afterA
  }

  /** One source's effect: only sources with a gamepad, and only the left
      and right hands, do anything. */
  function SourceStep(st: InputState, s: InputSource): (r: InputState)
    ensures s.gamepad.None? || (s.handedness != "left" && s.handedness != "right") ==> r == st
    ensures s.handedness != "right" ==> r.scale == st.scale
    ensures s.handedness != "left" ==> r.pause == st.pause
  {
    if s.gamepad.None? then st
    else if s.handedness == "left" then LeftStep(st, s.gamepad.value.buttons)
    else if s.handedness == "right" then RightStep(st, s.gamepad.value.buttons)
    else st
  }

  /** The state after the first n sources. */
  function InputOf(st: InputState, sources: seq<InputSource>, n: nat): (r: InputState)
    requires n <= |sources|
    ensures st.scale >= 0.0 ==> r.scale >= 0.0
    ensures (forall i | 0 <= i < n :: sources[i].gamepad.None?) ==> r == st
  {
    if n == 0 then st else SourceStep(InputOf(st, sources, n - 1), sources[n - 1])
  }

  /** Pausing flips exactly on a rising edge of the left pause button. */
  lemma PauseToggle(st: InputState, s: InputSource)
    ensures SourceStep(st, s).pause != st.pause <==>
      && s.gamepad.Some? && s.handedness == "left"
      && |s.gamepad.value.buttons| > PauseButton
      && Rising(st, PauseKey, s.gamepad.value.buttons[PauseButton].pressed)
  {
  }

  /** A press changes the scale as the A and B buttons promise: down by 0.05
      but not below zero, or up by 0.05 with no cap. */
  lemma ScaleButtons(st: InputState, s: InputSource)
    requires s.gamepad.Some? && s.handedness == "right"
    ensures var b := s.gamepad.value.buttons;
      var down := |b| > 4 && Rising(st, ScaleDownKey, b[4].pressed);
      var up := |b| > 5 && Rising(st, ScaleUpKey, b[5].pressed);
      && (down && !up ==> SourceStep(st, s).scale == Max(0.0, st.scale - ScaleStep))
      && (up && !down ==> SourceStep(st, s).scale == st.scale + ScaleStep)
      && (!up && !down ==> SourceStep(st, s).scale == st.scale)
      && SourceStep(st, s).pause == st.pause
  {
  }

  /** Holding buttons does nothing more: seeing the same source twice is
      the same as seeing it once. */
  lemma HeldButtonsIdempotent(st: InputState, s: InputSource)
    ensures SourceStep(SourceStep(st, s), s) == SourceStep(st, s)
  {
    if s.gamepad.Some? && s.handedness == "right" {
      var b := s.gamepad.value.buttons;
      var once := SourceStep(st, s);
      if |b| > 4 {
        assert once.previous[ScaleDownKey] == b[4].pressed;
      }
      if |b| > 5 {
        assert once.previous[ScaleUpKey] == b[5].pressed;
      }
    }
  }

  /** The scale never becomes negative from a non-negative start, and the
      left controller never changes it. */
  lemma {:induction false} ScaleNeverNegative(st: InputState, sources: seq<InputSource>, n: nat)
    requires n <= |sources| && st.scale >= 0.0
    ensures InputOf(st, sources, n).scale >= 0.0
  {
    if n > 0 {
      ScaleNeverNegative(st, sources, n - 1);
    }
  }

  /** The guard as written fails on a left gamepad with three or four
      buttons, where the corrected guard does nothing; on every other
      gamepad the two agree. */
  lemma ShortLeftGamepadThrows(st: InputState, buttons: seq<Button>)
    ensures 2 < |buttons| <= 4 ==> LeftStepAsWritten(st, buttons) == Err("TypeError") && LeftStep(st, buttons) == st
    ensures |buttons| <= 2 || |buttons| > 4 ==> LeftStepAsWritten(st, buttons) == Ok(LeftStep(st, buttons))
  {
  }

  /** handleControllerInput: without a frame and reference space nothing
      happens; otherwise each source's buttons update the state in turn. */
  method HandleControllerInput(frame: Frame, ready: bool, state: ThreeScene.SceneState)
    modifies state
    ensures Snapshot(state) == (if ready then InputOf(old(Snapshot(state)), frame.sources, |frame.sources|) else old(Snapshot(state)))
    ensures state.robot == old(state.robot)
    ensures state.lastLeftColorRef == old(state.lastLeftColorRef) && state.lastRightColorRef == old(state.lastRightColorRef)
  {
    if !ready {
      return;
    }
    ghost var start := Snapshot(state);
    for i := 0 to |frame.sources|
      invariant Snapshot(state) == InputOf(start, frame.sources, i)
      invariant state.robot == old(state.robot)
      invariant state.lastLeftColorRef == old(state.lastLeftColorRef) && state.lastRightColorRef == old(state.lastRightColorRef)
    {
      var source := frame.sources[i];
      if source.gamepad.None? {
        continue;
      }
      var buttons := source.gamepad.value.buttons;
      if source.handedness == "left" {
        if |buttons| > PauseButton {
          var pressed := buttons[PauseButton].pressed;
          var previous := Previous(state.previousButtonStates, PauseKey);
          if pressed && !previous {
            state.pauseCommands := !state.pauseCommands;
          }
          state.previousButtonStates := state.previousButtonStates[PauseKey := pressed];
        }
      }
      if source.handedness == "right" {
        if |buttons| > 4 {
          var pressed := buttons[4].pressed;
          var previous := Previous(state.previousButtonStates, ScaleDownKey);
          if pressed && !previous {
            state.joystickScale := Max(0.0, state.joystickScale - ScaleStep);
          }
          state.previousButtonStates := state.previousButtonStates[ScaleDownKey := pressed];
        }
        if |buttons| > 5 {
          var pressed := buttons[5].pressed;
          var previous := Previous(state.previousButtonStates, ScaleUpKey);
          if pressed && !previous {
            state.joystickScale := state.joystickScale + ScaleStep;
          }
          state.previousButtonStates := state.previousButtonStates[ScaleUpKey := pressed];
        }
      }
    }
  }
}
