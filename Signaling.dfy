/** The dial-out variant of the relay in signaling.py: the server connects to
    the robot itself when an app arrives. There is no robot_id slot, and app
    teardown drops both peers. Dialling is modelled by its outcome: the new
    socket, or the text of the exception. */
module Signaling {
  import opened Common
  import opened Sockets

  datatype Slots = Slots(app: Option<SocketId>, robot: Option<SocketId>)

  datatype Step = Step(slots: Slots, out: seq<Event>)

  /** The notification the robot handler sends a waiting app in this variant. */
  const InfoRobotAvailable: string := "{\"type\": \"info\", \"payload\": \"robot_available\"}"

  /** The robot port the server dials. */
  const RobotPort: string := "8765"

  function RobotUrl(robotIp: string): (r: string)
    ensures |r| == |robotIp| + 10
    ensures StartsWith(r, "ws://") && r[5..5 + |robotIp|] == robotIp
    ensures r[|r| - 5..] == ":8765"
  {
    "ws://" + robotIp + ":" + RobotPort
  }

  /** The error text sent to the app when dialling raised `reason`. The
      reason is spliced in as it is: json.dumps would escape quotes and
      backslashes in it, which this model does not do. */
  function DialError(reason: string): (r: string)
    ensures StartsWith(r, "{\"type\": \"error\", \"error\": \"Failed to connect to robot: ")
  {
    "{\"type\": \"error\", \"error\": \"Failed to connect to robot: " + reason + "\"}"
  }

  function RelayToApp(s: Slots, message: string, delivered: bool): (r: Step)
    ensures s.app.None? ==> r == Step(s, [])
    ensures s.app.Some? ==> r.out == [Sent(s.app.value, message)]
    ensures r.slots.robot == s.robot
    ensures r.slots.app == (if delivered then s.app else None)
  {
    match s.app
    case None => Step(s, [])
    case Some(a) => Step(if delivered then s else s.(app := None), [Sent(a, message)])
  }

  function RelayToRobot(s: Slots, message: string, delivered: bool): (r: Step)
    ensures s.robot.None? ==> r == Step(s, [])
    ensures s.robot.Some? ==> r.out == [Sent(s.robot.value, message)]
    ensures r.slots.app == s.app
    ensures r.slots.robot == (if delivered then s.robot else None)
  {
    match s.robot
    case None => Step(s, [])
    case Some(b) => Step(if delivered then s else s.(robot := None), [Sent(b, message)])
  }

  /** The locked prologue of handle_robot (run as a task on a dialled socket). */
  function RobotAttach(s: Slots, ws: SocketId): (r: Step)
    ensures r.slots == Slots(s.app, Some(ws))
    ensures s.robot.Some? ==> (Closed(s.robot.value) in r.out <==> s.robot.value != ws)
    ensures s.app.Some? ==> Sent(s.app.value, InfoRobotAvailable) in r.out
    ensures forall e | e in r.out ::
      (e.Sent? && Some(e.to) == s.app && e.text == InfoRobotAvailable) || (e.Closed? && Some(e.ws) == s.robot)
  {
    var closing := if s.robot.Some? && s.robot.value != ws then [Closed(s.robot.value)] else [];
    var notify := if s.app.Some? then [Sent(s.app.value, InfoRobotAvailable)] else [];
    Step(Slots(s.app, Some(ws)), closing + notify)
  }

  /** The locked prologue of handle_app: replace the app, then dial the robot.
      On success the dialled socket overwrites the robot slot without the
      previous one being closed; on failure the app is told why, and the slot
      it now holds stays set because handle_app returns before its `finally`. */
  function AppAttach(s: Slots, ws: SocketId, robotIp: string, dial: Result<SocketId>): (r: Step)
    ensures r.slots.app == Some(ws)
    ensures r.slots.robot == (if dial.Ok? then Some(dial.value) else s.robot)
    ensures s.app.Some? ==> (Closed(s.app.value) in r.out <==> s.app.value != ws)
    ensures Dialed(RobotUrl(robotIp)) in r.out
    ensures dial.Err? ==> Sent(ws, DialError(dial.error)) in r.out
    ensures dial.Ok? ==> forall e | e in r.out :: !e.Sent?
    ensures forall e | e in r.out :: e.Closed? ==> Some(e.ws) == s.app && e.ws != ws
  {
    var closing := if s.app.Some? && s.app.value != ws then [Closed(s.app.value)] else [];
    var dialing := [Dialed(RobotUrl(robotIp))];
    match dial
    case Ok(b) => Step(Slots(Some(ws), Some(b)), closing + dialing)
    case Err(e) => Step(Slots(Some(ws), s.robot), closing + dialing + [Sent(ws, DialError(e))])
  }

  /** The `finally` block of handle_robot: unlike the single-pair server, no
      robot id is cleared. */
  function RobotTeardown(s: Slots, ws: SocketId): (r: Step)
    ensures s.robot != Some(ws) ==> r == Step(s, [])
    ensures s.robot == Some(ws) ==> r.slots == Slots(s.app, None)
    ensures s.robot == Some(ws) && s.app.Some? ==> r.out == [Sent(s.app.value, RobotDisconnected)]
    ensures s.app.None? ==> r.out == []
  {
    if s.robot == Some(ws) then
      Step(Slots(s.app, None), if s.app.Some? then [Sent(s.app.value, RobotDisconnected)] else [])
    else Step(s, [])
  }

  /** The `finally` block of handle_app: if still current, tell the robot the
      session is over and close it (the close is skipped when that send
      raises), then drop both peers. */
  function AppTeardown(s: Slots, ws: SocketId, sendOk: bool): (r: Step)
    ensures s.app != Some(ws) ==> r == Step(s, [])
    ensures s.app == Some(ws) ==> r.slots == Slots(None, None)
    ensures s.app == Some(ws) && s.robot.Some? ==>
      r.out == [Sent(s.robot.value, ConnectionClosed)] + (if sendOk then [Closed(s.robot.value)] else [])
    ensures s.robot.None? ==> r.out == []
  {
    if s.app == Some(ws) then
      Step(Slots(None, None),
           if s.robot.Some? then
             [Sent(s.robot.value, ConnectionClosed)] + (if sendOk then [Closed(s.robot.value)] else [])
           else [])
    else Step(s, [])
  }

  /** A successful app attach followed by the spawned robot handler's attach
      notifies the new app with the info message and closes nothing more. */
  lemma DialedRobotAnnouncesItself(s: Slots, ws: SocketId, robotIp: string, b: SocketId)
    ensures var s1 := AppAttach(s, ws, robotIp, Ok(b)).slots;
      var r := RobotAttach(s1, b);
      r.slots == Slots(Some(ws), Some(b)) && r.out == [Sent(ws, InfoRobotAvailable)]
  {
  }

  /** After a failed dial the app slot keeps the app: a robot handler that
      attaches later still notifies it. */
  lemma FailedDialLeavesAppRegistered(s: Slots, ws: SocketId, robotIp: string, reason: string, b: SocketId)
    ensures var s1 := AppAttach(s, ws, robotIp, Err(reason)).slots;
      s1.app == Some(ws) && Sent(ws, InfoRobotAvailable) in RobotAttach(s1, b).out
  {
  }

  /** A dial that succeeds while another robot is registered leaves that robot
      open and unreferenced: its handle is overwritten, not closed. */
  lemma DialOverwritesRobotWithoutClosing(s: Slots, ws: SocketId, robotIp: string, b: SocketId)
    requires s.robot.Some? && s.robot.value != b && s.app != s.robot
    ensures var r := AppAttach(s, ws, robotIp, Ok(b));
      Closed(s.robot.value) !in r.out && r.slots.robot == Some(b)
  {
  }

  /** A replaced app's teardown leaves its successor, and the successor's robot, alone. */
  lemma StaleAppTeardownKeepsSuccessor(s: Slots, a: SocketId, b: SocketId, ip: string, da: Result<SocketId>, db: Result<SocketId>, sendOk: bool)
    requires a != b
    ensures var s2 := AppAttach(AppAttach(s, a, ip, da).slots, b, ip, db).slots;
      AppTeardown(s2, a, sendOk) == Step(s2, []) && s2.app == Some(b)
  {
  }

  /** The role dispatch of handler in this variant. */
  datatype Route =
    | BadJson
    | Crash(error: string)
    | ToApp(robotIp: Json)
    | ToTeleop(robotIp: Json)
    | Rejected

  function Get(fields: map<string, Json>, key: string): Json
  {
    if key in fields then fields[key] else JNull
  }

  /** Only "app" and "teleop" are accepted; a robot never connects inbound. */
  function RouteOf(initial: Option<Json>): (r: Route)
    ensures initial.None? <==> r == BadJson
    ensures r.Crash? <==> initial.Some? && !initial.value.JObj?
    ensures r == Rejected <==>
      initial.Some? && initial.value.JObj? && Get(initial.value.fields, "role") !in {JStr("app"), JStr("teleop")}
    ensures initial == Some(JObj(map["role" := JStr("robot")])) ==> r == Rejected
    ensures r.ToApp? <==>
      initial.Some? && initial.value.JObj? && Get(initial.value.fields, "role") == JStr("app")
    ensures r.ToTeleop? <==>
      initial.Some? && initial.value.JObj? && Get(initial.value.fields, "role") == JStr("teleop")
    ensures r.ToApp? || r.ToTeleop? ==> r.robotIp == Get(initial.value.fields, "robot_ip")
  {
    match initial
    case None => BadJson
    case Some(JObj(f)) =>
      var role := Get(f, "role");
      if role == JStr("app") then ToApp(Get(f, "robot_ip"))
      else if role == JStr("teleop") then ToTeleop(Get(f, "robot_ip"))
      else Rejected
    case Some(_) => Crash("AttributeError")
  }

  /** The text `{robot_ip}` contributes to the f-string that builds the robot
      URL: a string as it is, any other value as Python's str() renders it
      (`render`, e.g. "None" for a missing robot_ip). */
  function IpText(robotIp: Json, render: Json -> string): (r: string)
    ensures robotIp.JStr? ==> r == robotIp.s
    ensures !robotIp.JStr? ==> r == render(robotIp)
  {
    match robotIp
    case JStr(text) => text
    case _ => render(robotIp)
  }

  class SimpleConnection {
    var appWs: Option<SocketId>
    var robotWs: Option<SocketId>
    var log: seq<Event>

    function State(): Slots
      reads this
    {
      Slots(appWs, robotWs)
    }

    constructor()
      ensures State() == Slots(None, None) && log == []
    {
      appWs := None;
      robotWs := None;
      log := [];
    }

    method RelayRobotMessage(message: string, delivered: bool)
      modifies this
      ensures State() == RelayToApp(old(State()), message, delivered).slots
      ensures log == old(log) + RelayToApp(old(State()), message, delivered).out
    {
      if appWs.Some? {
        log := log + [Sent(appWs.value, message)];
        if !delivered {
          appWs := None;
        }
      }
    }

    method RelayAppMessage(message: string, delivered: bool)
      modifies this
      ensures State() == RelayToRobot(old(State()), message, delivered).slots
      ensures log == old(log) + RelayToRobot(old(State()), message, delivered).out
    {
      if robotWs.Some? {
        log := log + [Sent(robotWs.value, message)];
        if !delivered {
          robotWs := None;
        }
      }
    }

    method AttachRobot(ws: SocketId)
      modifies this
      ensures State() == RobotAttach(old(State()), ws).slots
      ensures log == old(log) + RobotAttach(old(State()), ws).out
    {
      if robotWs.Some? && robotWs.value != ws {
        log := log + [Closed(robotWs.value)];
      }
      robotWs := Some(ws);
      if appWs.Some? {
        log := log + [Sent(appWs.value, InfoRobotAvailable)];
      }
    }

    /** handle_app's locked block; the caller spawns AttachRobot on the
        dialled socket when `dial` succeeded. */
    method AttachApp(ws: SocketId, robotIp: string, dial: Result<SocketId>)
      modifies this
      ensures State() == AppAttach(old(State()), ws, robotIp, dial).slots
      ensures log == old(log) + AppAttach(old(State()), ws, robotIp, dial).out
    {
      if appWs.Some? && appWs.value != ws {
        log := log + [Closed(appWs.value)];
      }
      appWs := Some(ws);
      log := log + [Dialed(RobotUrl(robotIp))];
      match dial {
        case Ok(b) => robotWs := Some(b);
        case Err(e) => log := log + [Sent(ws, DialError(e))];
      }
    }

    method DetachRobot(ws: SocketId)
      modifies this
      ensures State() == RobotTeardown(old(State()), ws).slots
      ensures log == old(log) + RobotTeardown(old(State()), ws).out
    {
      if robotWs == Some(ws) {
        if appWs.Some? {
          log := log + [Sent(appWs.value, RobotDisconnected)];
        }
        robotWs := None;
      }
    }

    method DetachApp(ws: SocketId, sendOk: bool)
      modifies this
      ensures State() == AppTeardown(old(State()), ws, sendOk).slots
      ensures log == old(log) + AppTeardown(old(State()), ws, sendOk).out
    {
      if appWs == Some(ws) {
        if robotWs.Some? {
          log := log + [Sent(robotWs.value, ConnectionClosed)];
          if sendOk {
            log := log + [Closed(robotWs.value)];
          }
        }
        appWs := None;
        robotWs := None;
      }
    }

    /** handler: dispatch on the role; an app enters its locked block (with
        the outcome of dialling the robot), any role but app and teleop is
        told it is invalid. */
    method Handshake(ws: SocketId, initial: Option<Json>, render: Json -> string, dial: Result<SocketId>)
      returns (route: Route)
      modifies this
      ensures route == RouteOf(initial)
      ensures route.ToApp? ==>
        State() == AppAttach(old(State()), ws, IpText(route.robotIp, render), dial).slots
      ensures route.ToApp? ==>
        log == old(log) + AppAttach(old(State()), ws, IpText(route.robotIp, render), dial).out
      ensures !route.ToApp? ==> State() == old(State())
      ensures route == Rejected ==> log == old(log) + [Sent(ws, InvalidRole)]
      ensures route.BadJson? || route.Crash? || route.ToTeleop? ==> log == old(log)
    {
      route := RouteOf(initial);
      match route {
        case ToApp(ip) => AttachApp(ws, IpText(ip, render), dial);
        case Rejected => log := log + [Sent(ws, InvalidRole)];
        case _ =>
      }
    }
  }
}
