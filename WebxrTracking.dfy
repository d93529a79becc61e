/** The WebXR test client's tracking handlers: each one builds the hand or
    controller data of a frame, sends it at most every 1000/30 ms while the
    socket is open, and always returns the poses for local rendering. */
module WebxrTracking {
  import opened Common
  import opened Matrix
  import Convert
  import Tracking

  /** 1000 / 30 ms between sends. */
  const SendInterval: real := 1000.0 / 30.0

  /** What one controller reports here: the grip pose as it is, with the
      trigger, grip and button readings. */
  datatype PlainEntry = PlainEntry(position: Vec3, orientation: Convert.Quat, trigger: real, grip: real, buttons: seq<bool>)

  function PlainEntryOf(s: Tracking.InputSource, pose: Convert.JointPose): (r: PlainEntry)
    ensures r.position == pose.position && r.orientation == pose.orientation
    ensures s.gamepad.None? ==> r.trigger == 0.0 && r.grip == 0.0 && r.buttons == []
    ensures s.gamepad.Some? && |s.gamepad.value.buttons| > 1 ==>
      r.trigger == s.gamepad.value.buttons[0].value && r.grip == s.gamepad.value.buttons[1].value
  {
    PlainEntry(pose.position, pose.orientation,
               Tracking.ButtonValue(s.gamepad, 0), Tracking.ButtonValue(s.gamepad, 1), Tracking.Pressed(s.gamepad))
  }

  /** A posed controller source: its entry is recorded. */
  predicate Posed(s: Tracking.InputSource)
  {
    Tracking.IsController(s) && s.gripPose.value.Some?
  }

  /** controllerData after the first n sources: it starts empty. */
  function ControllerDataOf(frame: Tracking.Frame, n: nat): (r: map<string, PlainEntry>)
    requires n <= |frame.sources|
    ensures forall i | 0 <= i < n && Posed(frame.sources[i]) :: frame.sources[i].handedness in r
  {
    if n == 0 then map[]
    else
      var prev := ControllerDataOf(frame, n - 1);
      var s := frame.sources[n - 1];
      if Posed(s) then prev[s.handedness := PlainEntryOf(s, s.gripPose.value.value)] else prev
  }

  /** controllerPositions after the first n sources: left and right start
      null. */
  function ControllerPosesOf(frame: Tracking.Frame, n: nat): (r: map<string, Option<Convert.JointPose>>)
    requires n <= |frame.sources|
    ensures "left" in r && "right" in r
  {
    if n == 0 then map["left" := None, "right" := None]
    else
      var prev := ControllerPosesOf(frame, n - 1);
      var s := frame.sources[n - 1];
      if Posed(s) then prev[s.handedness := s.gripPose.value] else prev
  }

  /** controllerData holds an entry for exactly the handednesses of posed
      controllers, each built from one of them; a side's position is found
      exactly when such a controller exists. */
  lemma {:induction false} ControllerDataFacts(frame: Tracking.Frame, n: nat)
    requires n <= |frame.sources|
    ensures forall side :: side in ControllerDataOf(frame, n) <==> exists i | 0 <= i < n :: Tracking.PosedControllerAt(frame, i, side)
    ensures forall side | side in ControllerDataOf(frame, n) :: exists i | 0 <= i < n && Tracking.PosedControllerAt(frame, i, side) ::
      ControllerDataOf(frame, n)[side] == PlainEntryOf(frame.sources[i], frame.sources[i].gripPose.value.value)
    ensures forall side | side == "left" || side == "right" ::
      ControllerPosesOf(frame, n)[side].Some? <==> exists i | 0 <= i < n :: Tracking.PosedControllerAt(frame, i, side)
  {
    if n > 0 {
      ControllerDataFacts(frame, n - 1);
      forall side
        ensures side in ControllerDataOf(frame, n) <==> exists i | 0 <= i < n :: Tracking.PosedControllerAt(frame, i, side)
      {
        if side in ControllerDataOf(frame, n) && side !in ControllerDataOf(frame, n - 1) {
          assert Tracking.PosedControllerAt(frame, n - 1, side);
        }
        if exists i | 0 <= i < n :: Tracking.PosedControllerAt(frame, i, side) {
          var i :| 0 <= i < n && Tracking.PosedControllerAt(frame, i, side);
          if i < n - 1 {
            assert side in ControllerDataOf(frame, n - 1);
          }
        }
      }
      forall side | side == "left" || side == "right"
        ensures ControllerPosesOf(frame, n)[side].Some? <==> exists i | 0 <= i < n :: Tracking.PosedControllerAt(frame, i, side)
      {
        var s := frame.sources[n - 1];
        if Posed(s) && s.handedness == side {
          assert Tracking.PosedControllerAt(frame, n - 1, side);
        }
        if exists i | 0 <= i < n :: Tracking.PosedControllerAt(frame, i, side) {
          var i :| 0 <= i < n && Tracking.PosedControllerAt(frame, i, side);
          if i < n - 1 {
            assert ControllerPosesOf(frame, n - 1)[side].Some?;
          }
        }
      }
    }
  }

  /** A map has a key exactly when it is not empty. */
  lemma NonEmptyKeys<K, V>(m: map<K, V>)
    ensures |m.Keys| > 0 <==> exists k :: k in m
  {
    if exists k :: k in m {
      var k :| k in m;
      assert k in m.Keys;
    }
  }

  /** A send needs a hand source (hand data) or a posed controller
      (controller data) among the frame's sources. */
  lemma PayloadNonEmpty(frame: Tracking.Frame)
    ensures |Tracking.HandDataOf(frame, |frame.sources|).Keys| > 0 <==>
      exists i, side | 0 <= i < |frame.sources| :: Tracking.HandSourceAt(frame, i, side)
    ensures |ControllerDataOf(frame, |frame.sources|).Keys| > 0 <==>
      exists i, side | 0 <= i < |frame.sources| :: Tracking.PosedControllerAt(frame, i, side)
  {
    HandPayloadNonEmpty(frame);
    ControllerPayloadNonEmpty(frame);
  }

  /** The hand half of PayloadNonEmpty. */
  lemma HandPayloadNonEmpty(frame: Tracking.Frame)
    ensures |Tracking.HandDataOf(frame, |frame.sources|).Keys| > 0 <==>
      exists i, side | 0 <= i < |frame.sources| :: Tracking.HandSourceAt(frame, i, side)
  {
    var n := |frame.sources|;
    Tracking.HandDataFacts(frame, n);
    NonEmptyKeys(Tracking.HandDataOf(frame, n));
    if exists i, side | 0 <= i < n :: Tracking.HandSourceAt(frame, i, side) {
      var i, side :| 0 <= i < n && Tracking.HandSourceAt(frame, i, side);
      assert side in Tracking.HandDataOf(frame, n);
    }
  }

  /** The controller half of PayloadNonEmpty. */
  lemma ControllerPayloadNonEmpty(frame: Tracking.Frame)
    ensures |ControllerDataOf(frame, |frame.sources|).Keys| > 0 <==>
      exists i, side | 0 <= i < |frame.sources| :: Tracking.PosedControllerAt(frame, i, side)
  {
    var n := |frame.sources|;
    ControllerDataFacts(frame, n);
    NonEmptyKeys(ControllerDataOf(frame, n));
    if exists i, side | 0 <= i < n :: Tracking.PosedControllerAt(frame, i, side) {
      var i, side :| 0 <= i < n && Tracking.PosedControllerAt(frame, i, side);
      assert side in ControllerDataOf(frame, n);
    }
  }

  /** handleHandTracking: the 30 Hz gate, the hand loop (the same loop as
      the main client's handleHandTracking), the send, and the
      wrist poses returned whether or not anything was sent. */
  method HandleHandTracking(frame: Tracking.Frame, now: real, ws: Tracking.Socket?<map<string, seq<real>>>, lastHandSend: Tracking.Ref)
    returns (positions: map<string, Option<Convert.JointPose>>)
    modifies lastHandSend, ws
    ensures lastHandSend.current == (if now - old(lastHandSend.current) >= SendInterval then now else old(lastHandSend.current))
    ensures positions == Tracking.WristsOf(frame, |frame.sources|)
    ensures ws != null ==> ws.open == old(ws.open)
    ensures ws != null ==>
      var handData := Tracking.HandDataOf(frame, |frame.sources|);
      ws.sent == old(ws.sent) +
        (if now - old(lastHandSend.current) >= SendInterval && ws.open && |handData.Keys| > 0 then [handData] else [])
  {
    var shouldSend := now - lastHandSend.current >= SendInterval;
    if shouldSend {
      lastHandSend.current := now;
    }
    // The hand loop is the same as the main client's.
    var result := Tracking.HandleHandTracking(frame);
    positions := result.wrists;
    var handData := result.hands;
    if shouldSend && ws != null && ws.open && |handData.Keys| > 0 {
      ws.sent := ws.sent + [handData];
    }
  }

  /** handleControllerTracking: the 30 Hz gate, the controller loop, the
      send, and the grip poses returned whether or not anything was sent. */
  method HandleControllerTracking(frame: Tracking.Frame, now: real, ws: Tracking.Socket?<map<string, PlainEntry>>, lastHandSend: Tracking.Ref)
    returns (positions: map<string, Option<Convert.JointPose>>)
    modifies lastHandSend, ws
    ensures lastHandSend.current == (if now - old(lastHandSend.current) >= SendInterval then now else old(lastHandSend.current))
    ensures positions == ControllerPosesOf(frame, |frame.sources|)
    ensures ws != null ==> ws.open == old(ws.open)
    ensures ws != null ==>
      var controllerData := ControllerDataOf(frame, |frame.sources|);
      ws.sent == old(ws.sent) +
        (if now - old(lastHandSend.current) >= SendInterval && ws.open && |controllerData.Keys| > 0 then [controllerData] else [])
  {
    var shouldSend := now - lastHandSend.current >= SendInterval;
    if shouldSend {
      lastHandSend.current := now;
    }
    var controllerData: map<string, PlainEntry> := map[];
    positions := map["left" := None, "right" := None];
    for i := 0 to |frame.sources|
      invariant controllerData == ControllerDataOf(frame, i) && positions == ControllerPosesOf(frame, i)
    {
      var source := frame.sources[i];
      if source.targetRayMode == "tracked-pointer" && source.gripPose.Some? && source.hand.None? {
        var pose := source.gripPose.value;
        if pose.Some? {
          positions := positions[source.handedness := pose];
          var g := source.gamepad;
          var trigger, grip := 0.0, 0.0;
          var buttons: seq<bool> := [];
          if g.Some? {
            trigger := if |g.value.buttons| > 0 then g.value.buttons[0].value else 0.0;
            grip := if |g.value.buttons| > 1 then g.value.buttons[1].value else 0.0;
            buttons := Tracking.Pressed(g);
          }
          controllerData := controllerData[source.handedness := PlainEntry(pose.value.position, pose.value.orientation, trigger, grip, buttons)];
        }
      }
    }
    if shouldSend && ws != null && ws.open && |controllerData.Keys| > 0 {
      ws.sent := ws.sent + [controllerData];
    }
  }
}
