/** The single-pair signalling relay of simple_signaling.py: one global slot
    for the robot socket and one for the app socket. Each locked block of a
    handler is one atomic step on the shared SimpleConnection; what the
    server sends or closes is appended to an effect log. A `delivered` flag
    stands for whether an awaited send raised. */
module SimpleSignaling {
  import opened Common
  import opened Sockets

  /** The three fields of the global connection. `robotId` is whatever
      data.get("robot_id") returned; JNull stands for Python's None. */
  datatype Slots = Slots(app: Option<SocketId>, robot: Option<SocketId>, robotId: Json)

  /** The outcome of one atomic step: the new slots and the effects, in order. */
  datatype Step = Step(slots: Slots, out: seq<Event>)

  const Empty: Slots := Slots(None, None, JNull)

  /** relay_robot_message: forward robot text to the app; a failed send
      drops the app slot and nothing else. */
  function RelayToApp(s: Slots, message: string, delivered: bool): (r: Step)
    ensures s.app.None? ==> r == Step(s, [])
    ensures s.app.Some? ==> r.out == [Sent(s.app.value, message)]
    ensures r.slots.robot == s.robot && r.slots.robotId == s.robotId
    ensures r.slots.app == (if delivered then s.app else None)
  {
    match s.app
    case None => Step(s, [])
    case Some(a) => Step(if delivered then s else s.(app := None), [Sent(a, message)])
  }

  /** relay_app_message: forward app text to the robot; a failed send
      drops the robot slot and nothing else. */
  function RelayToRobot(s: Slots, message: string, delivered: bool): (r: Step)
    ensures s.robot.None? ==> r == Step(s, [])
    ensures s.robot.Some? ==> r.out == [Sent(s.robot.value, message)]
    ensures r.slots.app == s.app && r.slots.robotId == s.robotId
    ensures r.slots.robot == (if delivered then s.robot else None)
  {
    match s.robot
    case None => Step(s, [])
    case Some(b) => Step(if delivered then s else s.(robot := None), [Sent(b, message)])
  }

  /** The locked prologue of handle_robot: last writer wins. */
  function RobotAttach(s: Slots, ws: SocketId, robotId: Json): (r: Step)
    ensures r.slots == Slots(s.app, Some(ws), robotId)
    ensures s.robot.Some? ==> (Closed(s.robot.value) in r.out <==> s.robot.value != ws)
    ensures s.app.Some? ==> Sent(s.app.value, RobotAvailable) in r.out
    ensures forall e | e in r.out ::
      (e.Sent? && Some(e.to) == s.app && e.text == RobotAvailable) || (e.Closed? && Some(e.ws) == s.robot)
  {
    var closing := if s.robot.Some? && s.robot.value != ws then [Closed(s.robot.value)] else [];
    var notify := if s.app.Some? then [Sent(s.app.value, RobotAvailable)] else [];
    Step(Slots(s.app, Some(ws), robotId), closing + notify)
  }

  /** The locked prologue of handle_app: last writer wins, and the new app
      learns at once whether a robot is present. */
  function AppAttach(s: Slots, ws: SocketId): (r: Step)
    ensures r.slots == s.(app := Some(ws))
    ensures s.app.Some? ==> (Closed(s.app.value) in r.out <==> s.app.value != ws)
    ensures Sent(ws, RobotAvailable) in r.out <==> s.robot.Some?
    ensures forall e | e in r.out :: e == Sent(ws, RobotAvailable) || (e.Closed? && Some(e.ws) == s.app)
  {
    var closing := if s.app.Some? && s.app.value != ws then [Closed(s.app.value)] else [];
    var notify := if s.robot.Some? then [Sent(ws, RobotAvailable)] else [];
    Step(s.(app := Some(ws)), closing + notify)
  }

  /** The `finally` block of handle_robot. */
  function RobotTeardown(s: Slots, ws: SocketId): (r: Step)
    ensures s.robot != Some(ws) ==> r == Step(s, [])
    ensures s.robot == Some(ws) ==> r.slots == Slots(s.app, None, JNull)
    ensures s.robot == Some(ws) && s.app.Some? ==> r.out == [Sent(s.app.value, RobotDisconnected)]
    ensures s.app.None? ==> r.out == []
  {
    if s.robot == Some(ws) then
      Step(Slots(s.app, None, JNull),
           if s.app.Some? then [Sent(s.app.value, RobotDisconnected)] else [])
    else Step(s, [])
  }

  /** The `finally` block of handle_app. */
  function AppTeardown(s: Slots, ws: SocketId): (r: Step)
    ensures s.app != Some(ws) ==> r == Step(s, [])
    ensures s.app == Some(ws) ==> r.slots == s.(app := None)
    ensures s.app == Some(ws) && s.robot.Some? ==> r.out == [Sent(s.robot.value, ConnectionClosed)]
    ensures s.robot.None? ==> r.out == []
  {
    if s.app == Some(ws) then
      Step(s.(app := None), if s.robot.Some? then [Sent(s.robot.value, ConnectionClosed)] else [])
    else Step(s, [])
  }

  /** handle_robot's message loop, run without interleaving: each message that
      parses as JSON is relayed to whoever holds the app slot at that moment. */
  function RobotLoop(s: Slots, msgs: seq<string>, isJson: string -> bool, delivered: seq<bool>): (r: Step)
    requires |delivered| == |msgs|
    ensures |r.out| <= |msgs|
    ensures s.app.None? ==> r == Step(s, [])
    decreases |msgs|
  {
    if msgs == [] then Step(s, [])
    else
      var n := |msgs| - 1;
      var prev := RobotLoop(s, msgs[..n], isJson, delivered[..n]);
      var step := if isJson(msgs[n]) then RelayToApp(prev.slots, msgs[n], delivered[n]) else Step(prev.slots, []);
      Step(step.slots, prev.out + step.out)
  }

  /** handle_app's message loop: every message is relayed verbatim. */
  function AppLoop(s: Slots, msgs: seq<string>, delivered: seq<bool>): (r: Step)
    requires |delivered| == |msgs|
    ensures s.robot.None? ==> r == Step(s, [])
    decreases |msgs|
  {
    if msgs == [] then Step(s, [])
    else
      var n := |msgs| - 1;
      var prev := AppLoop(s, msgs[..n], delivered[..n]);
      var step := RelayToRobot(prev.slots, msgs[n], delivered[n]);
      Step(step.slots, prev.out + step.out)
  }

  /** Robot text reaches only the app, only verbatim, only when it is JSON,
      and the robot's own slot is never touched by the loop. */
  lemma {:induction false} RobotLoopRelaysValidJsonOnly(s: Slots, msgs: seq<string>, isJson: string -> bool, delivered: seq<bool>)
    requires |delivered| == |msgs|
    ensures var r := RobotLoop(s, msgs, isJson, delivered);
      && r.slots.robot == s.robot && r.slots.robotId == s.robotId
      && (r.slots.app == s.app || r.slots.app == None)
      && forall e | e in r.out :: e.Sent? && Some(e.to) == s.app && e.text in msgs && isJson(e.text)
  {
    if msgs != [] {
      var n := |msgs| - 1;
      RobotLoopRelaysValidJsonOnly(s, msgs[..n], isJson, delivered[..n]);
      var prev := RobotLoop(s, msgs[..n], isJson, delivered[..n]);
      assert forall e | e in prev.out :: e.text in msgs by {
        forall e | e in prev.out ensures e.text in msgs {
          var k :| 0 <= k < n && msgs[..n][k] == e.text;
          assert msgs[k] == e.text;
        }
      }
    }
  }

  /** App text reaches only the robot, verbatim, and never changes the app slot. */
  lemma {:induction false} AppLoopRelaysVerbatim(s: Slots, msgs: seq<string>, delivered: seq<bool>)
    requires |delivered| == |msgs|
    ensures var r := AppLoop(s, msgs, delivered);
      && r.slots.app == s.app && r.slots.robotId == s.robotId
      && (r.slots.robot == s.robot || r.slots.robot == None)
      && |r.out| <= |msgs|
      && forall e | e in r.out :: e.Sent? && Some(e.to) == s.robot && e.text in msgs
  {
    if msgs != [] {
      var n := |msgs| - 1;
      AppLoopRelaysVerbatim(s, msgs[..n], delivered[..n]);
      var prev := AppLoop(s, msgs[..n], delivered[..n]);
      assert forall e | e in prev.out :: e.text in msgs by {
        forall e | e in prev.out ensures e.text in msgs {
          var k :| 0 <= k < n && msgs[..n][k] == e.text;
          assert msgs[k] == e.text;
        }
      }
    }
  }

  /** With every send succeeding and a robot present, the app loop relays
      each message once, in order. */
  lemma {:induction false} AppLoopDeliversAll(s: Slots, msgs: seq<string>, delivered: seq<bool>)
    requires |delivered| == |msgs| && s.robot.Some?
    requires forall i | 0 <= i < |delivered| :: delivered[i]
    ensures AppLoop(s, msgs, delivered) == Step(s, seq(|msgs|, i requires 0 <= i < |msgs| => Sent(s.robot.value, msgs[i])))
  {
    if msgs != [] {
      var n := |msgs| - 1;
      AppLoopDeliversAll(s, msgs[..n], delivered[..n]);
    }
  }

  /** A replaced robot's teardown never evicts its successor: after robot a
      and then robot b attach, a's teardown changes nothing and sends nothing. */
  lemma StaleRobotTeardownKeepsSuccessor(s: Slots, a: SocketId, b: SocketId, idA: Json, idB: Json)
    requires a != b
    ensures var s2 := RobotAttach(RobotAttach(s, a, idA).slots, b, idB).slots;
      RobotTeardown(s2, a) == Step(s2, []) && s2.robot == Some(b) && s2.robotId == idB
  {
  }

  /** Likewise for apps: a's teardown after b replaced it leaves b in place
      and tells the robot nothing. */
  lemma StaleAppTeardownKeepsSuccessor(s: Slots, a: SocketId, b: SocketId)
    requires a != b
    ensures var s2 := AppAttach(AppAttach(s, a).slots, b).slots;
      AppTeardown(s2, a) == Step(s2, []) && s2.app == Some(b)
  {
  }

  /** A robot that attaches and detaches with no other step in between
      leaves the app slot as it was and the robot slot empty. */
  lemma RobotSessionRoundTrip(s: Slots, ws: SocketId, id: Json)
    ensures var s1 := RobotAttach(s, ws, id).slots;
      RobotTeardown(s1, ws).slots == Slots(s.app, None, JNull)
  {
  }

  /** The handshake outcome for one initial message (None: not valid JSON). */
  datatype Route =
    | BadJson                       // JSONDecodeError caught, nothing sent
    | Crash(error: string)          // data.get on a non-object raises
    | ToRobot(robotId: Json)
    | ToApp(robotId: Json)
    | ToTeleop(udpHost: Json)
    | Rejected                      // any other role, including a missing one

  /** data.get(key), None when absent. */
  function Get(fields: map<string, Json>, key: string): Json
  {
    if key in fields then fields[key] else JNull
  }

  /** The role dispatch of handler. */
  function RouteOf(initial: Option<Json>): (r: Route)
    ensures initial.None? <==> r == BadJson
    ensures r.Crash? <==> initial.Some? && !initial.value.JObj?
    ensures r == Rejected <==>
      initial.Some? && initial.value.JObj?
      && Get(initial.value.fields, "role") !in {JStr("robot"), JStr("app"), JStr("teleop")}
    ensures r.ToRobot? <==>
      initial.Some? && initial.value.JObj? && Get(initial.value.fields, "role") == JStr("robot")
    ensures r.ToApp? <==>
      initial.Some? && initial.value.JObj? && Get(initial.value.fields, "role") == JStr("app")
    ensures r.ToTeleop? <==>
      initial.Some? && initial.value.JObj? && Get(initial.value.fields, "role") == JStr("teleop")
    ensures r.ToRobot? ==> r.robotId == Get(initial.value.fields, "robot_id")
    ensures r.ToApp? ==> r.robotId == Get(initial.value.fields, "robot_id")
    ensures r.ToTeleop? ==> r.udpHost == Get(initial.value.fields, "udp_host")
  {
    match initial
    case None => BadJson
    case Some(JObj(f)) =>
      var role := Get(f, "role");
      if role == JStr("robot") then ToRobot(Get(f, "robot_id"))
      else if role == JStr("app") then ToApp(Get(f, "robot_id"))
      else if role == JStr("teleop") then ToTeleop(Get(f, "udp_host"))
      else Rejected
    case Some(_) => Crash("AttributeError")
  }

  /** The global connection object. */
  class SimpleConnection {
    var appWs: Option<SocketId>
    var robotWs: Option<SocketId>
    var robotId: Json
    /** Every send, close and datagram the server has attempted, in order. */
    var log: seq<Event>

    function State(): Slots
      reads this
    {
      Slots(appWs, robotWs, robotId)
    }

    constructor()
      ensures State() == Empty && log == []
    {
      appWs := None;
      robotWs := None;
      robotId := JNull;
      log := [];
    }

    method RelayRobotMessage(message: string, delivered: bool)
      modifies this
      ensures State() == RelayToApp(old(State()), message, delivered).slots
      ensures log == old(log) + RelayToApp(old(State()), message, delivered).out
    {
      if appWs.Some? {
        log := log + [Sent(appWs.value, message)];
        if !delivered {
          appWs := None;
        }
      }
    }

    method RelayAppMessage(message: string, delivered: bool)
      modifies this
      ensures State() == RelayToRobot(old(State()), message, delivered).slots
      ensures log == old(log) + RelayToRobot(old(State()), message, delivered).out
    {
      if robotWs.Some? {
        log := log + [Sent(robotWs.value, message)];
        if !delivered {
          robotWs := None;
        }
      }
    }

    /** handle_robot, from acquiring the lock to releasing it. */
    method AttachRobot(ws: SocketId, id: Json)
      modifies this
      ensures State() == RobotAttach(old(State()), ws, id).slots
      ensures log == old(log) + RobotAttach(old(State()), ws, id).out
    {
      if robotWs.Some? && robotWs.value != ws {
        log := log + [Closed(robotWs.value)];
      }
      robotWs := Some(ws);
      robotId := id;
      if appWs.Some? {
        log := log + [Sent(appWs.value, RobotAvailable)];
      }
    }

    /** handle_app, from acquiring the lock to releasing it. */
    method AttachApp(ws: SocketId)
      modifies this
      ensures State() == AppAttach(old(State()), ws).slots
      ensures log == old(log) + AppAttach(old(State()), ws).out
    {
      if appWs.Some? && appWs.value != ws {
        log := log + [Closed(appWs.value)];
      }
      appWs := Some(ws);
      if robotWs.Some? {
        log := log + [Sent(ws, RobotAvailable)];
      }
    }

    method DetachRobot(ws: SocketId)
      modifies this
      ensures State() == RobotTeardown(old(State()), ws).slots
      ensures log == old(log) + RobotTeardown(old(State()), ws).out
    {
      if robotWs == Some(ws) {
        if appWs.Some? {
          log := log + [Sent(appWs.value, RobotDisconnected)];
        }
        robotWs := None;
        robotId := JNull;
      }
    }

    method DetachApp(ws: SocketId)
      modifies this
      ensures State() == AppTeardown(old(State()), ws).slots
      ensures log == old(log) + AppTeardown(old(State()), ws).out
    {
      if appWs == Some(ws) {
        if robotWs.Some? {
          log := log + [Sent(robotWs.value, ConnectionClosed)];
        }
        appWs := None;
      }
    }

    /** The `async for` loop of handle_robot, with no other handler
        interleaved; `isJson` says whether json.loads accepts a text. */
    method RobotMessages(msgs: seq<string>, isJson: string -> bool, delivered: seq<bool>)
      requires |delivered| == |msgs|
      modifies this
      ensures State() == RobotLoop(old(State()), msgs, isJson, delivered).slots
      ensures log == old(log) + RobotLoop(old(State()), msgs, isJson, delivered).out
    {
      ghost var s0 := State();
      ghost var log0 := log;
      var i := 0;
      while i < |msgs|
        invariant 0 <= i <= |msgs|
        invariant State() == RobotLoop(s0, msgs[..i], isJson, delivered[..i]).slots
        invariant log == log0 + RobotLoop(s0, msgs[..i], isJson, delivered[..i]).out
      {
        assert msgs[..i + 1][..i] == msgs[..i];
        assert delivered[..i + 1][..i] == delivered[..i];
        if isJson(msgs[i]) {
          RelayRobotMessage(msgs[i], delivered[i]);
        }
        i := i + 1;
      }
      assert msgs[..i] == msgs && delivered[..i] == delivered;
    }

    /** The `async for` loop of handle_app; its JSONDecodeError handler is
        unreachable, so every message is relayed. */
    method AppMessages(msgs: seq<string>, delivered: seq<bool>)
      requires |delivered| == |msgs|
      modifies this
      ensures State() == AppLoop(old(State()), msgs, delivered).slots
      ensures log == old(log) + AppLoop(old(State()), msgs, delivered).out
    {
      ghost var s0 := State();
      ghost var log0 := log;
      var i := 0;
      while i < |msgs|
        invariant 0 <= i <= |msgs|
        invariant State() == AppLoop(s0, msgs[..i], delivered[..i]).slots
        invariant log == log0 + AppLoop(s0, msgs[..i], delivered[..i]).out
      {
        assert msgs[..i + 1][..i] == msgs[..i];
        assert delivered[..i + 1][..i] == delivered[..i];
        RelayAppMessage(msgs[i], delivered[i]);
        i := i + 1;
      }
      assert msgs[..i] == msgs && delivered[..i] == delivered;
    }

    /** handler up to the point where a role handler takes over: the UDP
        announcement when udp_host is a string, then the role dispatch; a
        robot or app enters its locked attach block, any other role is told
        it is invalid. The message loops and teardowns are the separate
        steps above, since other handlers run between them. */
    method Handshake(ws: SocketId, initial: Option<Json>) returns (route: Route)
      modifies this
      ensures route == RouteOf(initial)
      ensures route.Crash? || route.BadJson? ==> State() == old(State()) && log == old(log)
      ensures route.ToRobot? ==> State() == RobotAttach(old(State()), ws, route.robotId).slots
      ensures route.ToApp? ==> State() == AppAttach(old(State()), ws).slots
      ensures route.ToTeleop? || route == Rejected ==> State() == old(State())
      ensures route.ToRobot? ==>
        log == old(log) + Announce(initial) + RobotAttach(old(State()), ws, route.robotId).out
      ensures route.ToApp? ==> log == old(log) + Announce(initial) + AppAttach(old(State()), ws).out
      ensures route.ToTeleop? ==> log == old(log) + Announce(initial)
      ensures route == Rejected ==> log == old(log) + Announce(initial) + [Sent(ws, InvalidRole)]
    {
      route := RouteOf(initial);
      if route.BadJson? || route.Crash? {
        return;
      }
      log := log + Announce(initial);
      match route {
        case ToRobot(id) => AttachRobot(ws, id);
        case ToApp(_) => AttachApp(ws);
        case ToTeleop(_) =>
        case Rejected => log := log + [Sent(ws, InvalidRole)];
      }
    }
  }

  /** The datagram to port 10002 that handler sends when udp_host is a string. */
  function Announce(initial: Option<Json>): (r: seq<Event>)
    ensures |r| <= 1
    ensures r != [] <==> initial.Some? && initial.value.JObj? && Get(initial.value.fields, "udp_host").JStr?
  {
    if initial.Some? && initial.value.JObj? && Get(initial.value.fields, "udp_host").JStr? then
      [Announced(Get(initial.value.fields, "udp_host").s, 10002)]
    else []
  }
}
