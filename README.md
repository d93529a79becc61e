# kbot VR teleoperation: a verified model of the control and wire layers

The kbot VR teleoperation system drives a dual-arm K-Scale robot from a VR
headset. The headset's browser client reads hand joints or controller poses
each frame and streams them over a WebSocket. A Python server turns them
into IK targets, solves for ten arm joint angles, shapes gripper and finger
commands, and sends the result to the robot as JSON datagrams or CAN frames.
Signalling servers pair one robot connection with one operator app and relay
messages between them.

This project models that logic in Dafny, one module per source file:

- **Connection pairing and relay.** `SimpleSignaling` and `Signaling` hold
  the single robot/app slot pair as a class. Each locked handler body is one
  method that updates the slots and appends what it sends to an output log.
- **Teleop state and command shaping.** `TeleopCore`, `ControllerTeleopCore`
  and `Kinematics` model the pose updates, the head offset and z clamp, the
  left/right split of the IK answer, the gripper formulas and the finger
  clipping.
- **Kinematic bookkeeping.**
  - `JaxIk` and `IkHelpers` model the chain map, active-joint indices,
    bounds, forward-kinematics fold, sparsity mask, residual shape, warm
    start and clipping.
  - `Util` models the rigid-transform inverse.
  - `HandIk` models the finger-angle normalisation.
- **Wire encoders and decoders.**
  - `CommandConn` and `Joystick16` model the JSON command records.
  - `UdpConn`, `LegacyUdpConn`, `FingerUdpServer` and `FingerUdpListener`
    model the joint and finger datagrams.
  - `RohHands` and `RohHand` model the ROH hand frame: header, XOR
    checksum, and 8-byte chunks for the classic CAN data field of
    ISO 11898-1.
  - `Convert` models the 25 × 16 column-major hand-matrix packing. The joint
    order follows "Skeleton Joints" in the W3C WebXR Hand Input Module –
    Level 1. The layout is that of `XRRigidTransform.matrix` in the WebXR
    Device API.
  - `RerunSimulatedUdp` and `RerunVisualizer` model the command parsers.
  - `RerunLoaderUrdf` models ROS/file path resolution and entity paths.
- **Client-side state machines.**
  - `Tracking` and `WebxrTracking` model the send-rate gates, the
    hand-to-controller fallback, identity padding and the button edge
    detector.
  - `ThreeScene` models the distance colour and the mesh colour update.
  - `UrdfView` models the index-to-joint mapping.
- **Working envelope.** `WorkingEnvelope` models the joint-limit unit
  heuristic and the sample-chunk plan.

`Common` and `Matrix` hold shared definitions:
- `Option` and `Result`;
- clipping, truncation and Python's floor division and modulo;
- a JSON object renderer;
- 4 × 4 matrices as sequences of rows.

The model follows the code as written. Four facts about that code shape
the model:
- The code has no convergence or staleness gate before dispatch.
- The code has no per-robot-id session table; there is a single global slot
  pair.
- The signalling server that dials the robot accepts only the "app" and
  "teleop" roles.
- The viewer ports are the ones the code binds.

Python exceptions become `Err("<ExceptionName>")` results. Numeric solvers,
trigonometry and rotation conversions enter as function-valued parameters.
Sockets, CAN buses and the clock become parameters or output logs.

## Model

| member | source | states |
|---|---|---|
| SimpleSignaling.RelayToApp | src/kscale_vr_teleop/simple_signaling.py:26-33 | with no app nothing happens; otherwise the text goes verbatim to the app, and a failed send clears only the app slot |
| SimpleSignaling.RelayToRobot | src/kscale_vr_teleop/simple_signaling.py:35-42 | with no robot nothing happens; otherwise the text goes verbatim to the robot, and a failed send clears only the robot slot |
| SimpleSignaling.RobotAttach | src/kscale_vr_teleop/simple_signaling.py:52-70 | the new robot and its id replace the old pair; the old robot is closed exactly when it is a different socket; a present app is told robot_available; nothing else is sent or closed |
| SimpleSignaling.AppAttach | src/kscale_vr_teleop/simple_signaling.py:100-119 | the new app replaces the old one, which is closed exactly when it is a different socket; the new app is told robot_available exactly when a robot is present |
| SimpleSignaling.RobotTeardown | src/kscale_vr_teleop/simple_signaling.py:85-94 | a stale socket changes nothing; the current robot's teardown clears robot and id, keeps the app and tells it "Robot disconnected" |
| SimpleSignaling.AppTeardown | src/kscale_vr_teleop/simple_signaling.py:133-141 | a stale socket changes nothing; the current app's teardown clears only the app slot and sends the robot connection_closed |
| SimpleSignaling.RobotLoopRelaysValidJsonOnly | src/kscale_vr_teleop/simple_signaling.py:72-79 | over any message sequence, only texts that parse as JSON are sent, only to the app present at the start, and the robot slot and id never change |
| SimpleSignaling.AppLoopRelaysVerbatim | src/kscale_vr_teleop/simple_signaling.py:121-127 | over any message sequence, only the robot present at the start receives anything, each sent text is one of the messages, and the app slot never changes |
| SimpleSignaling.AppLoopDeliversAll | src/kscale_vr_teleop/simple_signaling.py:121-127 | when every send succeeds and a robot is present, each message is relayed exactly once, in order |
| SimpleSignaling.RobotLoop | src/kscale_vr_teleop/simple_signaling.py:72-79 | the robot loop sends at most one message per received text, and nothing at all when no app is registered |
| SimpleSignaling.AppLoop | src/kscale_vr_teleop/simple_signaling.py:121-127 | the app loop sends nothing and changes nothing when no robot is registered |
| SimpleSignaling.StaleRobotTeardownKeepsSuccessor | src/kscale_vr_teleop/simple_signaling.py:54-62 | after robot b replaces robot a, a's teardown sends nothing and leaves b and b's id in place |
| SimpleSignaling.StaleAppTeardownKeepsSuccessor | src/kscale_vr_teleop/simple_signaling.py:102-109 | after app b replaces app a, a's teardown sends nothing and leaves b in place |
| SimpleSignaling.RobotSessionRoundTrip | src/kscale_vr_teleop/simple_signaling.py:61-94 | a robot attach followed by its own teardown leaves the app slot as it was and the robot slot and id empty |
| SimpleSignaling.RouteOf | src/kscale_vr_teleop/simple_signaling.py:195-220 | invalid JSON is caught; a non-object crashes; role "robot", "app" and "teleop" give exactly the robot, app and teleop routes, carrying robot_id, robot_id and udp_host from the message; any other role, a missing one included, is rejected |
| SimpleSignaling.Announce | src/kscale_vr_teleop/simple_signaling.py:200-205 | at most one datagram, sent exactly when udp_host is a string |
| SimpleSignaling.SimpleConnection.constructor | src/kscale_vr_teleop/simple_signaling.py:21-24 | both slots and the robot id start empty, with nothing sent |
| SimpleSignaling.SimpleConnection.RelayRobotMessage | src/kscale_vr_teleop/simple_signaling.py:26-33 | updates the slots and the effect log exactly as RelayToApp |
| SimpleSignaling.SimpleConnection.RelayAppMessage | src/kscale_vr_teleop/simple_signaling.py:35-42 | updates the slots and the effect log exactly as RelayToRobot |
| SimpleSignaling.SimpleConnection.AttachRobot | src/kscale_vr_teleop/simple_signaling.py:52-70 | updates the slots and the effect log exactly as RobotAttach |
| SimpleSignaling.SimpleConnection.AttachApp | src/kscale_vr_teleop/simple_signaling.py:100-119 | updates the slots and the effect log exactly as AppAttach |
| SimpleSignaling.SimpleConnection.DetachRobot | src/kscale_vr_teleop/simple_signaling.py:83-94 | updates the slots and the effect log exactly as RobotTeardown |
| SimpleSignaling.SimpleConnection.DetachApp | src/kscale_vr_teleop/simple_signaling.py:131-141 | updates the slots and the effect log exactly as AppTeardown |
| SimpleSignaling.SimpleConnection.RobotMessages | src/kscale_vr_teleop/simple_signaling.py:72-79 | the message loop, proved to give the slots and log of RobotLoop |
| SimpleSignaling.SimpleConnection.AppMessages | src/kscale_vr_teleop/simple_signaling.py:121-127 | the message loop, proved to give the slots and log of AppLoop |
| SimpleSignaling.SimpleConnection.Handshake | src/kscale_vr_teleop/simple_signaling.py:174-220 | returns RouteOf; bad JSON or a crash changes nothing and sends nothing; the robot and app routes perform RobotAttach and AppAttach after the udp_host announcement, with exactly their slots and sends; the teleop route only announces; a rejected role gets the Invalid role error after any announcement, with the slots unchanged |
| Signaling.RobotUrl | src/kscale_vr_teleop/signaling.py:105-106 | the dialled URL is "ws://" + robot_ip + ":8765", with the address in place |
| Signaling.DialError | src/kscale_vr_teleop/signaling.py:113-115 | the error text starts with the "Failed to connect to robot: " error object; the reason is spliced in as it is |
| Signaling.RelayToApp | src/kscale_vr_teleop/signaling.py:22-29 | with no app nothing happens; otherwise the text goes verbatim to the app, and a failed send clears only the app slot |
| Signaling.RelayToRobot | src/kscale_vr_teleop/signaling.py:31-38 | with no robot nothing happens; otherwise the text goes verbatim to the robot, and a failed send clears only the robot slot |
| Signaling.RobotAttach | src/kscale_vr_teleop/signaling.py:46-63 | the new robot replaces the old one, which is closed exactly when different; a present app gets the info robot_available message; nothing else happens |
| Signaling.AppAttach | src/kscale_vr_teleop/signaling.py:92-116 | the app slot holds the new app; a different old app is closed; the robot URL is dialled; success overwrites the robot slot without closing it, and failure sends the app the dial error and leaves the app registered |
| Signaling.RobotTeardown | src/kscale_vr_teleop/signaling.py:78-86 | a stale socket changes nothing; the current robot's teardown clears only the robot slot and tells the app "Robot disconnected" |
| Signaling.AppTeardown | src/kscale_vr_teleop/signaling.py:130-140 | a stale socket changes nothing; the current app's teardown sends the robot connection_closed, closes it unless that send raised, and clears both slots |
| Signaling.DialedRobotAnnouncesItself | src/kscale_vr_teleop/signaling.py:58-63 | a successful dial followed by the spawned robot attach tells the new app robot_available and closes nothing |
| Signaling.FailedDialLeavesAppRegistered | src/kscale_vr_teleop/signaling.py:113-116 | after a failed dial the app stays registered, so a later robot attach still notifies it |
| Signaling.DialOverwritesRobotWithoutClosing | src/kscale_vr_teleop/signaling.py:104-107 | a successful dial over a registered robot replaces it without closing it |
| Signaling.StaleAppTeardownKeepsSuccessor | src/kscale_vr_teleop/signaling.py:94-101 | after app b replaces app a, a's teardown changes nothing |
| Signaling.RouteOf | src/kscale_vr_teleop/signaling.py:167-184 | invalid JSON is caught; a non-object crashes; role "app" and "teleop" give exactly the app and teleop routes, both carrying robot_ip from the message; every other role is rejected, "robot" included |
| Signaling.IpText | src/kscale_vr_teleop/signaling.py:105-114 | the text the f-string gives robot_ip: a JSON string as itself, any other value as its Python rendering |
| Signaling.SimpleConnection.constructor | src/kscale_vr_teleop/signaling.py:18-20 | both slots start empty, with nothing sent |
| Signaling.SimpleConnection.RelayRobotMessage | src/kscale_vr_teleop/signaling.py:22-29 | updates the slots and the effect log exactly as RelayToApp |
| Signaling.SimpleConnection.RelayAppMessage | src/kscale_vr_teleop/signaling.py:31-38 | updates the slots and the effect log exactly as RelayToRobot |
| Signaling.SimpleConnection.AttachRobot | src/kscale_vr_teleop/signaling.py:46-63 | updates the slots and the effect log exactly as RobotAttach |
| Signaling.SimpleConnection.AttachApp | src/kscale_vr_teleop/signaling.py:92-116 | updates the slots and the effect log exactly as AppAttach |
| Signaling.SimpleConnection.DetachRobot | src/kscale_vr_teleop/signaling.py:76-86 | updates the slots and the effect log exactly as RobotTeardown |
| Signaling.SimpleConnection.DetachApp | src/kscale_vr_teleop/signaling.py:128-140 | updates the slots and the effect log exactly as AppTeardown |
| Signaling.SimpleConnection.Handshake | src/kscale_vr_teleop/signaling.py:161-184 | returns RouteOf; the app route performs AppAttach for robot_ip's text and the given dial outcome, with exactly its slots and sends; every other route leaves the slots alone; a rejected role is sent the Invalid role error; bad JSON, a crash and the teleop route send nothing |
| TeleopCore.ClampZ | src/kscale_vr_teleop/teleop_core.py:111-112 | the target height is at least -0.2, a target already at or above it is unchanged, and no other entry changes |
| TeleopCore.HandTarget | src/kscale_vr_teleop/teleop_core.py:108-112 | the target is base_to_head @ pose with its height raised to at least -0.2, every other entry unchanged |
| TeleopCore.BaseToHeadRaises | src/kscale_vr_teleop/teleop_core.py:108-109 | for a pose with bottom row [0, 0, 0, 1], base_to_head @ pose is the pose with its translation raised by 0.25 |
| TeleopCore.GripperFromTrigger | src/kscale_vr_teleop/teleop_core.py:95-99 | trigger 0 gives 0.068, trigger 1 gives 0, and the joint lies in [0, 0.068] exactly when the trigger lies in [0, 1] |
| TeleopCore.GripperFromSpacing | src/kscale_vr_teleop/teleop_core.py:88-93 | always within [0, 0.068]; 0.068 from a spacing of 0.15 up, 0 at or below 0, linear in between |
| TeleopCore.FingerSpacing | src/kscale_vr_teleop/teleop_core.py:89-91 | defined exactly when there are at least nine finger poses, otherwise an IndexError |
| TeleopCore.DefaultPose | src/kscale_vr_teleop/teleop_core.py:16-27 | a rigid pose with the fixed axis-permutation rotation at the given position |
| TeleopCore.Initial | src/kscale_vr_teleop/teleop_core.py:12-44 | before any update: left wrist at (0.2, 0.2, -0.4), right wrist at (0.2, -0.2, -0.4), head the identity, 24 zero finger poses per side, gripper values 0, use_fingers false |
| TeleopCore.Grippers | src/kscale_vr_teleop/teleop_core.py:122-125 | controller mode uses the trigger formula on both sides; hand mode succeeds exactly when both sides have nine finger poses and then lies in [0, 0.068] |
| TeleopCore.ControllerFingers | src/kscale_vr_teleop/teleop_core.py:131-136 | six entries: the trigger value on the first five, 1 on the last |
| TeleopCore.Fingers | src/kscale_vr_teleop/teleop_core.py:128-136 | controller mode gives the trigger-based commands; hand mode succeeds exactly when the right hand has 24 poses; both results have six entries |
| TeleopCore.IkInput | src/kscale_vr_teleop/teleop_core.py:108-116 | two targets, right first, both at height -0.2 or above |
| TeleopCore.JointAngles | src/kscale_vr_teleop/teleop_core.py:102-153 | fails, with IndexError, exactly in hand mode with too few finger poses; otherwise both finger commands have six entries, all in [0, 1] |
| TeleopCore.ArmSplit | src/kscale_vr_teleop/teleop_core.py:119-151 | with a 10-joint solution each arm command has six entries: right is joints[0..5) then the right gripper, left is joints[5..10) then the left gripper |
| TeleopCore.ControllerModeFingers | src/kscale_vr_teleop/teleop_core.py:130-139 | in controller mode the result exists, the last finger entry is 1 and the other five are the clipped trigger value |
| TeleopCore.HandModeFingers | src/kscale_vr_teleop/teleop_core.py:128-139 | in hand mode the left fingers are all zero and the right fingers are the hand estimate, which clipping leaves unchanged |
| TeleopCore.TeleopCore.constructor | src/kscale_vr_teleop/teleop_core.py:12-44 | the fields start as Initial |
| TeleopCore.TeleopCore.UpdateHead | src/kscale_vr_teleop/teleop_core.py:46-47 | only the head matrix changes |
| TeleopCore.TeleopCore.UpdateLeftHand | src/kscale_vr_teleop/teleop_core.py:49-53 | sets the left wrist and finger poses and switches to hand mode; nothing else changes |
| TeleopCore.TeleopCore.UpdateRightHand | src/kscale_vr_teleop/teleop_core.py:55-59 | sets the right wrist and finger poses and switches to hand mode; nothing else changes |
| TeleopCore.TeleopCore.UpdateLeftController | src/kscale_vr_teleop/teleop_core.py:61-70 | sets the left pose and trigger value and switches to controller mode; nothing else changes |
| TeleopCore.TeleopCore.UpdateRightController | src/kscale_vr_teleop/teleop_core.py:72-81 | sets the right pose and trigger value and switches to controller mode; nothing else changes |
| TeleopCore.TeleopCore.ComputeJointAngles | src/kscale_vr_teleop/teleop_core.py:102-153 | returns JointAngles of the current state; the logged targets are the clamped solver input |
| ControllerTeleopCore.Initial | src/kscale_vr_teleop/controller_teleop_core.py:11-31 | before any update: left controller at (0.2, 0.2, -0.4), right at (0.2, -0.2, -0.4), both with the fixed axis-permutation rotation, trigger values 0 |
| ControllerTeleopCore.LoggedTargets | src/kscale_vr_teleop/controller_teleop_core.py:77-89 | two logged targets, right first, taken before the clamp |
| ControllerTeleopCore.IkInput | src/kscale_vr_teleop/controller_teleop_core.py:91-95 | two solver targets, right first, both at height -0.2 or above |
| ControllerTeleopCore.LoggedDiffersOnlyInZ | src/kscale_vr_teleop/controller_teleop_core.py:77-95 | the solver input equals the logged target except at [2][3], where it is max(logged z, -0.2); a logged target already at or above -0.2 is passed unchanged |
| ControllerTeleopCore.JointAngles | src/kscale_vr_teleop/controller_teleop_core.py:95-111 | each arm ends with its gripper joint, which lies in [0, 0.068] exactly when the trigger lies in [0, 1] (no clamping); the right arm has six entries for a solution of five or more joints, the left one for a 10-joint solution |
| ControllerTeleopCore.ArmSplit | src/kscale_vr_teleop/controller_teleop_core.py:99-111 | with a 10-joint solution, right = joints[0..5) + [0.068(1 - right trigger)] and left = joints[5..10) + [0.068(1 - left trigger)] |
| ControllerTeleopCore.ControllerTeleopCore.constructor | src/kscale_vr_teleop/controller_teleop_core.py:11-31 | the fields start as Initial |
| ControllerTeleopCore.ControllerTeleopCore.UpdateHead | src/kscale_vr_teleop/controller_teleop_core.py:44-45 | only the head matrix changes |
| ControllerTeleopCore.ControllerTeleopCore.UpdateLeftController | src/kscale_vr_teleop/controller_teleop_core.py:47-55 | only the left pose and left trigger value change |
| ControllerTeleopCore.ControllerTeleopCore.UpdateRightController | src/kscale_vr_teleop/controller_teleop_core.py:57-65 | only the right pose and right trigger value change |
| ControllerTeleopCore.ControllerTeleopCore.ComputeJointAngles | src/kscale_vr_teleop/controller_teleop_core.py:73-111 | returns JointAngles of the current state and logs the unclamped targets |
| Kinematics.Block | src/kscale_vr_teleop/kinematics.py:67 | entry (i, j) of block k is raw[16k + 4j + i]: the 16 values of a block are read column-major |
| Kinematics.Unpack | src/kscale_vr_teleop/kinematics.py:67-75 | succeeds exactly for 400 values (otherwise ValueError), giving 25 blocks, each the transposed 4x4 reshape |
| Kinematics.WristPose | src/kscale_vr_teleop/kinematics.py:68-69 | the stored wrist has the rotation and bottom row of kbot_vuer_to_urdf @ wrist matrix; only the translation is adjusted |
| Kinematics.Initial | src/kscale_vr_teleop/kinematics.py:32-35 | at import both wrists are zero matrices and each side has 24 zero finger poses |
| Kinematics.FingerPoses | src/kscale_vr_teleop/kinematics.py:70-78 | 24 poses; pose n is hand_vuer_to_urdf @ fast_mat_inv(wrist) @ matrix n + 1 |
| Kinematics.HeadSubtractsNothing | src/kscale_vr_teleop/kinematics.py:31-77 | the head matrix is the identity and never reassigned, so the stored wrist is kbot_vuer_to_urdf @ wrist matrix, with nothing subtracted |
| Kinematics.Absorb | src/kscale_vr_teleop/kinematics.py:65-78 | an absent side keeps its pose; a present side succeeds exactly with 400 values; 24 finger poses stay 24 |
| Kinematics.IkInput | src/kscale_vr_teleop/kinematics.py:80-99 | two targets, right first, each the clamped base_to_head @ wrist, so both at height -0.2 or above |
| Kinematics.JointMap | src/kscale_vr_teleop/kinematics.py:119-141 | keys are exactly "11"-"15" and "21"-"25"; "1k" is joints[5 + k - 1] and "2k" is joints[k - 1], in degrees |
| Kinematics.Step | src/kscale_vr_teleop/kinematics.py:62-142 | an absent side keeps its previous pose; a malformed left array raises ValueError with nothing stored; a result has exactly the ten joint ids |
| Kinematics.StepLeftError | src/kscale_vr_teleop/kinematics.py:65-67 | a malformed left array raises before anything is stored |
| Kinematics.StepRightError | src/kscale_vr_teleop/kinematics.py:73-75 | a malformed right array raises after the left side has been stored |
| Kinematics.StepDone | src/kscale_vr_teleop/kinematics.py:80-141 | with both sides absorbed, the solver runs on the stored poses; fewer than ten joints is an IndexError |
| Kinematics.RightErrorKeepsLeftUpdate | src/kscale_vr_teleop/kinematics.py:65-75 | a good left array with a malformed right one leaves the new left pose stored and raises ValueError |
| Kinematics.ReportsBothArms | src/kscale_vr_teleop/kinematics.py:119-141 | a well-formed event reports the second half of the solution as 11-15 and the first half as 21-25, in degrees |
| Kinematics.KinematicsModule.constructor | src/kscale_vr_teleop/kinematics.py:31-35 | the module arrays start as Initial |
| Kinematics.KinematicsModule.Kinematics | src/kscale_vr_teleop/kinematics.py:62-142 | the new arrays and the result are exactly those of Step |
| Kinematics.KinematicsModule.StoreLeft | src/kscale_vr_teleop/kinematics.py:66-70 | overwrites only the left wrist and finger arrays |
| Kinematics.KinematicsModule.StoreRight | src/kscale_vr_teleop/kinematics.py:74-78 | overwrites only the right wrist and finger arrays |
| Kinematics.KinematicsModule.Target | src/kscale_vr_teleop/kinematics.py:80-84 | the clamped base_to_head @ wrist target |
| JaxIk.Chains | src/kscale_vr_teleop/jax_ik.py:22-25 | the chain map built edge by edge; a parent without a chain yet is a KeyError |
| JaxIk.ChainsErrorPersists | src/kscale_vr_teleop/jax_ik.py:23-25 | once the loop raises KeyError, later child-map entries do not change the outcome |
| JaxIk.ChainsKeys | src/kscale_vr_teleop/jax_ik.py:22-25 | the links with a chain are exactly the base and every child link seen |
| JaxIk.ParentsSeenFirst | src/kscale_vr_teleop/jax_ik.py:25 | without a KeyError, each edge's parent is the base or the child of an earlier edge |
| JaxIk.ChainStep | src/kscale_vr_teleop/jax_ik.py:25 | adding an edge to a fresh child keeps every chain equal to its parent's chain plus the joint |
| JaxIk.ChainsFollowParents | src/kscale_vr_teleop/jax_ik.py:22-25 | for a tree, the base's chain is [] and every child's chain is its parent's chain followed by the joint between them |
| JaxIk.BuildChains | src/kscale_vr_teleop/jax_ik.py:22-25 | the nested loop over the child map returns exactly Chains over the flattened child map, KeyError included |
| JaxIk.ChainsSnoc | src/kscale_vr_teleop/jax_ik.py:24-25 | one more entry of a link's list: KeyError when the link has no chain, otherwise the child gets the link's chain plus the joint |
| JaxIk.RestIsError | src/kscale_vr_teleop/jax_ik.py:23-25 | a KeyError part-way through the child map is the result of the whole loop |
| JaxIk.EdgesAppend | src/kscale_vr_teleop/jax_ik.py:23-24 | the flattened child map is its first i links' edges followed by the rest |
| JaxIk.EdgesSplit | src/kscale_vr_teleop/jax_ik.py:23-24 | the flattened child map splits at any entry of any link's list |
| JaxIk.LinkEdgesSplit | src/kscale_vr_teleop/jax_ik.py:24 | a link's edges split where its child list splits |
| JaxIk.ActiveJoints | src/kscale_vr_teleop/jax_ik.py:27-29 | the active joints are non-fixed joints of the URDF and no more than the URDF has |
| JaxIk.ActiveJointsComplete | src/kscale_vr_teleop/jax_ik.py:27-29 | a URDF joint is active exactly when it is not fixed |
| JaxIk.ActiveJointsAppend | src/kscale_vr_teleop/jax_ik.py:27-29 | the filter keeps URDF order: the active joints of a concatenation are those of each part, in turn |
| JaxIk.ActiveJointsSnoc | src/kscale_vr_teleop/jax_ik.py:27-29 | one more joint at the end is kept exactly when it is not fixed |
| JaxIk.BuildIndices | src/kscale_vr_teleop/jax_ik.py:32-34 | the enumerate loop builds exactly IndexMap, later names overwriting earlier ones |
| JaxIk.IndexMapKeys | src/kscale_vr_teleop/jax_ik.py:32-34 | the index map's keys are exactly the active joint names |
| JaxIk.IndexMapBijection | src/kscale_vr_teleop/jax_ik.py:32-34 | with distinct names, joint k maps to k and every key maps back to the joint with that name |
| JaxIk.Bounds | src/kscale_vr_teleop/jax_ik.py:54-64 | the upper and lower bound lists have the same length |
| JaxIk.BoundsPerRevoluteJoint | src/kscale_vr_teleop/jax_ik.py:54-64 | one bound pair per revolute joint, in URDF order, from that joint's limits; no more than the active joints, and as many when every joint is fixed or revolute |
| JaxIk.BuildBounds | src/kscale_vr_teleop/jax_ik.py:54-64 | the loop over the joints returns exactly Bounds |
| JaxIk.RotationOnly | src/kscale_vr_teleop/jax_ik.py:85-99 | a homogeneous transform with the given rotation block and zero translation |
| JaxIk.MulRotationKeepsTranslation | src/kscale_vr_teleop/jax_ik.py:92-102 | right-multiplying by a pure rotation keeps the translation column and the bottom row |
| JaxIk.MakeTransformMat | src/kscale_vr_teleop/jax_ik.py:71-105 | succeeds exactly for fixed and revolute joints (NotImplementedError otherwise); the result is homogeneous with the joint origin as translation |
| JaxIk.FixedIgnoresAngle | src/kscale_vr_teleop/jax_ik.py:91-92 | a fixed joint's transform does not depend on the angle |
| JaxIk.JointAngle | src/kscale_vr_teleop/jax_ik.py:42-45 | a fixed joint is given the angle 0 |
| JaxIk.JointMapOf | src/kscale_vr_teleop/jax_ik.py:41 | every URDF joint name is a key, and each key maps to a URDF joint of that name |
| JaxIk.FixedChainIgnoresAngles | src/kscale_vr_teleop/jax_ik.py:39-47 | a chain of fixed joints gives the same transform for any joint angles |
| JaxIk.ForwardKinematicsPerLink | src/kscale_vr_teleop/jax_ik.py:36-49 | a successful forward kinematics has one matrix per end-effector link, each the product along that link's chain |
| JaxIk.FkErrorPersists | src/kscale_vr_teleop/jax_ik.py:38-48 | an error for one end-effector link is the result of the whole call |
| JaxIk.ChainErrorPersists | src/kscale_vr_teleop/jax_ik.py:40-47 | an error at one joint of a chain is the result for the whole chain |
| JaxIk.ChainErrorToFk | src/kscale_vr_teleop/jax_ik.py:38-48 | an error inside one link's chain is the error forward kinematics raises |
| JaxIk.Residuals | src/kscale_vr_teleop/jax_ik.py:111-141 | ten residuals: the right and left end-effector positions minus the targets', then 0.1 times the arccos of the clipped dot products of right -z with target -z, right -y with target +y, left +z with target -z and left +y with target +y |
| JaxIk.AngleArgumentInDomain | src/kscale_vr_teleop/jax_ik.py:127-135 | the clipped dot product passed to arccos lies in [-1, 1] |
| JaxIk.ResidualsAtTarget | src/kscale_vr_teleop/jax_ik.py:137-139 | when the end effectors are at the targets the six position residuals are zero |
| JaxIk.ResidualAnglesAtTarget | src/kscale_vr_teleop/jax_ik.py:117-140 | with the end effectors at the targets and unit columns, the right forward and left up residuals are 0.1·arccos(1) and the right up and left forward residuals 0.1·arccos(-1): the sign choices do not vanish at the target |
| JaxIk.SparsityMask | src/kscale_vr_teleop/jax_ik.py:146-151 | a 10 x n mask with entry (row, col) given by the four slice assignments |
| JaxIk.MaskSeparatesArms | src/kscale_vr_teleop/jax_ik.py:147-151 | right rows mark only even columns and left rows only odd ones; position rows never mark columns 8 and up |
| JaxIk.MaskDisagreesWithHalvesSplit | src/kscale_vr_teleop/jax_ik.py:147-151 | with ten joints the right position rows ignore joint 1 and depend on joint 6, unlike the halves split the callers use |
| JaxIk.RobotInverseKinematics.constructor | src/kscale_vr_teleop/jax_ik.py:15-68 | for a built chain map: the model holds the chains, the URDF joint map and the active-joint index map; the active joints, bounds, no installed solver and an all-zero last solution, one entry per active joint |
| JaxIk.RobotInverseKinematics.Create | src/kscale_vr_teleop/jax_ik.py:15-65 | fails exactly when the chain loop raises, with its KeyError; otherwise a fresh wrapper whose fields are exactly those __init__ sets |
| JaxIk.RobotInverseKinematics.ForwardKinematicsLoop | src/kscale_vr_teleop/jax_ik.py:36-49 | the nested loop returns exactly ForwardKinematics |
| JaxIk.RobotInverseKinematics.ChainTransformLoop | src/kscale_vr_teleop/jax_ik.py:39-47 | the inner loop returns exactly the chain product, errors included |
| JaxIk.RobotInverseKinematics.SetupIkSolver | src/kscale_vr_teleop/jax_ik.py:107-160 | installs the solver and leaves the warm start alone |
| JaxIk.RobotInverseKinematics.InverseKinematics | src/kscale_vr_teleop/jax_ik.py:162-178 | without a solver AttributeError and nothing changes; with one, solves from the last solution and stores the answer |
| JaxIk.IkCall | src/kscale_vr_teleop/jax_ik.py:162-178 | without a solver AttributeError and the warm start kept; with one, the answer becomes the warm start |
| JaxIk.FreshWrapperCannotSolve | src/kscale_vr_teleop/jax_ik.py:171-178 | as written, with the set-up call at line 68 commented out, a solve on a freshly built wrapper raises AttributeError |
| JaxIk.InstalledSolverWarmStarts | src/kscale_vr_teleop/jax_ik.py:171-177 | with the solver installed, the second call starts from the first call's answer |
| IkHelpers.Residual | src/ik_helpers.py:16-21 | the residual is zero exactly when the end effector is at the target |
| IkHelpers.ClipToBounds | src/ik_helpers.py:27 | defined exactly for equal lengths (ValueError otherwise); keeps the length and puts every entry within its limits |
| IkHelpers.ClipToBoundsIdentityInside | src/ik_helpers.py:27 | a vector within the limits is unchanged by the clip, and clipping twice is clipping once |
| IkHelpers.IKSolver.constructor | src/ik_helpers.py:6-13 | the guess starts at zero, one per actuated joint; bound k is joint k's limits |
| IkHelpers.IKSolver.FromScratchIk | src/ik_helpers.py:15-28 | the unbounded solve from the last guess, clipped into the limits, is returned and kept as the next guess |
| Util.FastMatInv | src/util.py:2-6 | the rotation block of the result is the transpose of the input's, and the result is homogeneous |
| Util.InvEntries | src/util.py:3-5 | entry by entry: the transposed rotation, translation -R^T t, bottom row [0, 0, 0, 1] |
| Util.LeftEntry | src/util.py:2-6 | for a rigid input, entry (i, j) of fast_mat_inv(M) @ M is the identity's |
| Util.RightEntry | src/util.py:2-6 | for a rigid input, entry (i, j) of M @ fast_mat_inv(M) is the identity's |
| Util.FastMatInvLeftInverse | src/util.py:2-6 | for a rigid transform, fast_mat_inv(M) @ M is the identity |
| Util.FastMatInvRightInverse | src/util.py:2-6 | for a rigid transform, M @ fast_mat_inv(M) is the identity |
| Util.InvolutionTranslation | src/util.py:5 | inverting twice gives back the translation column |
| Util.FastMatInvInvolution | src/util.py:2-6 | inverting a rigid transform twice gives it back |
| HandIk.TipsRelativeToMetacarpals | src/kscale_vr_teleop/hand_inverse_kinematics.py:16-21 | five relative poses exactly when there are at least 24 right-hand poses; IndexError otherwise |
| HandIk.TipPairs | src/kscale_vr_teleop/hand_inverse_kinematics.py:16-21 | the pairs are (0, 3), (4, 8), (9, 13), (14, 18), (20, 23), each tip in its metacarpal's frame |
| HandIk.Wrap | src/kscale_vr_teleop/hand_inverse_kinematics.py:24 | the wrapped angle lies in [0, 2 pi) |
| HandIk.NormaliseCalibration | src/kscale_vr_teleop/hand_inverse_kinematics.py:25-26 | the thumb's 3.0 and 5.3 and the other fingers' 0.4 and 4.8 map to 0 and 1 |
| HandIk.CalculateHandJointsNoIk | src/kscale_vr_teleop/hand_inverse_kinematics.py:13-36 | IndexError exactly when fewer than 24 right poses; otherwise the left joints are six zeros and the six right values lie in [0, 1] |
| HandIk.LeftPosesIgnored | src/kscale_vr_teleop/hand_inverse_kinematics.py:13-33 | the left-hand poses never influence the result |
| HandIk.ValueErrorGivesZeros | src/kscale_vr_teleop/hand_inverse_kinematics.py:34-36 | when a rotation conversion of the right hand's matrices raises ValueError, both hands get six zeros |
| HandIk.FingerEntries | src/kscale_vr_teleop/hand_inverse_kinematics.py:23-31 | entries 0-4 are one minus the clipped normalised finger angle; entry 5 is the clipped thumb-metacarpal Y angle, not inverted |
| CommandConn.FieldIndex | src/kscale_vr_teleop/command_conn.py:9-33 | every field has a position in the declaration order |
| Common.JsonLine | src/kscale_vr_teleop/command_conn.py:57 | json.dumps of the entries followed by a newline: a "{", a "}" and the newline at the end |
| Common.SplitAtComma | src/kscale_vr_teleop/command_conn.py:57 | two renderings x, y and x', y' separated by ", " with comma-free heads are equal only with equal heads and tails |
| Common.DumpsObjectInjective | src/kscale_vr_teleop/command_conn.py:57 | with the same keys in the same order and a faithful float renderer, equal JSON objects come from equal values |
| Common.JsonLineInjective | src/kscale_vr_teleop/command_conn.py:57 | with the same keys and a faithful float renderer, equal JSON lines come from equal entries |
| CommandConn.With | src/kscale_vr_teleop/command_conn.py:71-83 | assigning a field sets that field and leaves every other field unchanged |
| CommandConn.Default | src/kscale_vr_teleop/command_conn.py:8-33 | every field of a fresh ControlVector16 is 0.0 |
| CommandConn.Payload | src/kscale_vr_teleop/command_conn.py:37-56 | eighteen (key, value) pairs in declaration order, each the field's name and value |
| CommandConn.PayloadInjective | src/kscale_vr_teleop/command_conn.py:37-57 | records with equal payloads are equal: the message loses no field |
| CommandConn.ToMsgInjective | src/kscale_vr_teleop/command_conn.py:37-57 | for a float renderer whose texts are comma-free and distinct, two records that give the same JSON line are equal: the sent line determines every field |
| CommandConn.FieldsDetermine | src/kscale_vr_teleop/command_conn.py:8-33 | a record is determined by its eighteen field values |
| CommandConn.ApplyKeeps | src/kscale_vr_teleop/command_conn.py:71-83 | a field no assignment names keeps its value |
| CommandConn.ApplyLastWins | src/kscale_vr_teleop/command_conn.py:71-83 | the last assignment to a field decides its value |
| CommandConn.ApplyAppend | src/kscale_vr_teleop/command_conn.py:71-83 | running two lists of assignments is running their concatenation |
| CommandConn.ArmWrites | src/kscale_vr_teleop/command_conn.py:71-80 | the k-th entry goes to the k-th field, until either list ends |
| CommandConn.SendWrites | src/kscale_vr_teleop/command_conn.py:70-85 | never assigns a base field; completes exactly when the left list has five entries and the right list five or more than six |
| CommandConn.BaseFieldsUntouched | src/kscale_vr_teleop/command_conn.py:70-85 | send_commands never changes the base velocity and base pose fields, whether or not it raises |
| CommandConn.ArmFieldMapping | src/kscale_vr_teleop/command_conn.py:71-80 | with five entries per arm the call completes, left[k] and right[k] land in the k-th arm fields, the wrist yaw and pitch keep their values, extra left entries are ignored |
| CommandConn.LeftArmMapped | src/kscale_vr_teleop/command_conn.py:71-75 | left[k] lands in the k-th left field |
| CommandConn.RightArmMapped | src/kscale_vr_teleop/command_conn.py:76-80 | right[k] lands in the k-th right field |
| CommandConn.SixEntryRightListRaises | src/kscale_vr_teleop/command_conn.py:81-83 | a six-entry right list stores right[5] in RWristYaw and then raises IndexError: nothing is sent |
| CommandConn.GuardedSendWrites | src/kscale_vr_teleop/command_conn.py:70-85 | the corrected assignments never touch a base field |
| CommandConn.GuardedNeverRaises | src/kscale_vr_teleop/command_conn.py:81-83 | with the guard on index 6, five or more entries per arm never raise; six keeps the wrist yaw and pitch, seven or more sets both |
| CommandConn.Commander16.constructor | src/kscale_vr_teleop/command_conn.py:61-68 | the record starts at its defaults, max_cmd is 0.5 and nothing has been sent |
| CommandConn.Commander16.WriteArm | src/kscale_vr_teleop/command_conn.py:71-80 | the record after the assignments; complete exactly when the list covers every field |
| CommandConn.Commander16.WriteRight | src/kscale_vr_teleop/command_conn.py:76-83 | the record after the right-arm assignments; complete exactly with five or more than six entries |
| CommandConn.Commander16.SendCommands | src/kscale_vr_teleop/command_conn.py:70-85 | the record is SendWrites applied; IndexError exactly when SendWrites raises, with nothing sent; otherwise the new record is sent |
| Joystick16.Default | src/kscale_vr_teleop/original_joystick16.py:9-32 | a fresh record has right shoulder pitch 0.2 and left shoulder pitch -0.1 |
| Joystick16.Values | src/kscale_vr_teleop/original_joystick16.py:36-53 | one value per key |
| Joystick16.Payload | src/kscale_vr_teleop/original_joystick16.py:36-53 | sixteen pairs in the firmware key order, each key carrying the record field of the same name |
| Joystick16.PayloadKeys | src/kscale_vr_teleop/original_joystick16.py:36-53 | every record's payload carries the sixteen firmware keys in the same order |
| Joystick16.DefaultPayload | src/kscale_vr_teleop/original_joystick16.py:21-53 | the default message carries 0.2 under RShoulderPitch, -0.1 under LShoulderPitch and 0 under the other fourteen keys |
| Joystick16.PayloadInjective | src/kscale_vr_teleop/original_joystick16.py:36-54 | equal payloads come from equal records |
| Joystick16.ToMsgInjective | src/kscale_vr_teleop/original_joystick16.py:34-54 | for a float renderer whose texts are comma-free and distinct, two records that give the same JSON line are equal |
| Joystick16.Increased | src/kscale_vr_teleop/original_joystick16.py:67-68 | never above 1.5, never below an in-range input, and exactly 0.1 more while that stays within 1.5 |
| Joystick16.Decreased | src/kscale_vr_teleop/original_joystick16.py:70-71 | never below 0.1, never above an in-range input, and exactly 0.1 less while that stays within 0.1 |
| Joystick16.StepsKeepRange | src/kscale_vr_teleop/original_joystick16.py:62-71 | both steps keep the limit in [0.1, 1.5] and each is a no-op at its own bound |
| Joystick16.IncreasedTimesSaturates | src/kscale_vr_teleop/original_joystick16.py:67-68 | n increases add 0.1 each until 1.5 is reached |
| Joystick16.TenIncreasesReachCeiling | src/kscale_vr_teleop/original_joystick16.py:62-68 | from 0.5, nine increases stay below 1.5 and ten reach it |
| Joystick16.Commander16.constructor | src/kscale_vr_teleop/original_joystick16.py:58-65 | the limit starts at 0.5, within range, with the default record and nothing sent |
| Joystick16.Commander16.IncreaseMaxCmd | src/kscale_vr_teleop/original_joystick16.py:67-68 | the limit becomes Increased of the old one, still in range; the record is unchanged |
| Joystick16.Commander16.DecreaseMaxCmd | src/kscale_vr_teleop/original_joystick16.py:70-73 | the limit becomes Decreased of the old one, still in range, and the record is reset to its defaults |
| Joystick16.Commander16.Send | src/kscale_vr_teleop/original_joystick16.py:75-76 | one datagram of the current record is sent; nothing else changes |
| UdpConn.FingerCommand | src/kscale_vr_teleop/udp_conn.py:42 | a reading in [0, 65535]: 65535 for an open finger (0 or less), 0 for a closed one (1 or more) |
| UdpConn.FingerCommandAntitone | src/kscale_vr_teleop/udp_conn.py:42 | a finger that closes further never gets a larger reading |
| UdpConn.SendPayload | src/kscale_vr_teleop/udp_conn.py:28-43 | IndexError exactly when an arm list has fewer than five entries; otherwise the ten joint ids, "11" the negated left shoulder, "12"-"15" the other left values as given, "21"-"25" the right values in degrees, and finger i the reading of right finger i |
| UdpConn.FingerReadings | src/kscale_vr_teleop/udp_conn.py:27-42 | every reading in [0, 65535], 65535 for 0 and 0 for 1, a more closed finger never reading higher; the left finger values make no difference |
| UdpConn.UDPHandler.constructor | src/kscale_vr_teleop/udp_conn.py:10-13 | remembers host and port; nothing sent |
| UdpConn.UDPHandler.SendUdp | src/kscale_vr_teleop/udp_conn.py:27-58 | raises exactly when SendPayload does; otherwise the payload is added to the sent datagrams when the network takes it, and a failed send is swallowed |
| UdpConn.EndEffector | src/kscale_vr_teleop/udp_conn.py:81-82 | the position column followed by the orientation quaternion |
| UdpConn.EePayloadOf | src/kscale_vr_teleop/udp_conn.py:79-83 | the velocity is [0, 0, 0] and each end effector starts with its wrist position |
| UdpConn.RLUDPHandler.constructor | src/kscale_vr_teleop/udp_conn.py:61-64 | the port is fixed at 1234; nothing sent |
| UdpConn.RLUDPHandler.SendUdp | src/kscale_vr_teleop/udp_conn.py:78-98 | the end-effector payload is added to the sent datagrams when the network takes it; a failed send is swallowed |
| LegacyUdpConn.FingerCommand | src/udp_conn.py:67 | a reading in [0, 65535]: 0 for a non-positive angle, 65535 from a full turn on |
| LegacyUdpConn.FingerCommandMonotone | src/udp_conn.py:67 | a larger angle never gives a smaller reading |
| LegacyUdpConn.SendPayload | src/udp_conn.py:49-68 | the ten joint ids all carry 0, because both arm inputs are replaced by zeros; one reading per right finger |
| LegacyUdpConn.OnlyRightFingersMatter | src/udp_conn.py:49-68 | neither arm list nor the left fingers affect the payload |
| LegacyUdpConn.UDPHandler.constructor | src/udp_conn.py:9-12 | remembers host and port; nothing sent |
| LegacyUdpConn.UDPHandler.SendUdp | src/udp_conn.py:26-74 | the payload is added to the sent datagrams when the network takes it; a failed send is swallowed |
| RohHands.Scaled | src/kscale_vr_teleop/roh_hands.py:11 | a percentage in [0, 100] becomes a target in [0, 65535] |
| RohHands.ScaledEnds | src/kscale_vr_teleop/roh_hands.py:11 | 0 % is 0 and 100 % is 65535 |
| RohHands.ByteOfValue | src/kscale_vr_teleop/roh_hands.py:12 | the byte built for a value in 0..255 reads back as that value |
| RohHands.BytesRecombine | src/kscale_vr_teleop/roh_hands.py:12 | the low and high bytes hold the target modulo 2^16, low byte first |
| RohHands.LowByteValue | src/kscale_vr_teleop/roh_hands.py:12 | n & 0xFF is n mod 256, and (n >> 8) & 0xFF is the low byte of the floored n / 256 |
| RohHands.XorAppendItself | src/kscale_vr_teleop/roh_hands.py:21-29 | appending the XOR of a string makes the XOR of the whole string zero |
| RohHands.Body | src/kscale_vr_teleop/roh_hands.py:12-19 | the frame before its checksum is ten bytes |
| RohHands.Frame | src/kscale_vr_teleop/roh_hands.py:10-30 | eleven bytes exactly when the finger number fits a byte; ValueError otherwise |
| RohHands.FrameLayout | src/kscale_vr_teleop/roh_hands.py:12-29 | header 55 AA 02 01 4C 04, the finger byte, the target low byte first, the 0xFF pad, and a checksum that makes bytes 2-10 XOR to zero |
| RohHands.ChunksPrefix | src/kscale_vr_teleop/roh_hands.py:32-33 | the first k chunks cover the first 8k bytes |
| RohHands.ChunksCover | src/kscale_vr_teleop/roh_hands.py:32-33 | the chunks are non-empty, at most eight bytes, reassemble the frame, and an 11-byte frame splits 8 + 3 |
| RohHands.Chunks | src/kscale_vr_teleop/roh_hands.py:32-33 | ceil(n/8) chunks, each non-empty, at most eight bytes, and a prefix of the data from byte 8k on |
| RohHands.CanBus.constructor | src/kscale_vr_teleop/roh_hands.py:6-7 | a bus on the given channel with nothing sent |
| RohHands.CanBus.Send | src/kscale_vr_teleop/roh_hands.py:35 | the message is appended to what the bus carried |
| RohHands.Checksum | src/kscale_vr_teleop/roh_hands.py:21-27 | the loop computes the XOR of every byte after the two sync bytes |
| RohHands.EncodeFrame | src/kscale_vr_teleop/roh_hands.py:11-30 | the encoder builds exactly Frame, ValueError included |
| RohHands.SendFrame | src/kscale_vr_teleop/roh_hands.py:32-35 | the bus carries the frame's chunks in order, each with id 0x02 and a standard id |
| RohHands.FramesFor | src/kscale_vr_teleop/roh_hands.py:10 | frame i is the frame of finger i with position i |
| RohHands.FrameChunks | src/kscale_vr_teleop/roh_hands.py:32-33 | a frame goes out as its first eight bytes and its last three |
| RohHands.SendsSnoc | src/kscale_vr_teleop/roh_hands.py:10-35 | one more frame adds its messages at the end |
| RohHands.SendsStep | src/kscale_vr_teleop/roh_hands.py:10-35 | the messages for n + 1 positions extend those for n by frame n's |
| RohHands.FramesForTake | src/kscale_vr_teleop/roh_hands.py:10-12 | once every position or the first 256 are done, the messages are those for the positions a byte can number |
| RohHands.SendsAt | src/kscale_vr_teleop/roh_hands.py:32-35 | eleven-byte frames go out two messages each, frame k as messages 2k and 2k + 1 |
| RohHands.Sends | src/kscale_vr_teleop/roh_hands.py:32-35 | every message has the standard id 0x02 and carries one to eight bytes |
| RohHands.HandMessagesLength | src/kscale_vr_teleop/roh_hands.py:10-35 | two messages per position |
| RohHands.HandMessagesAt | src/kscale_vr_teleop/roh_hands.py:10-35 | position k's frame is messages 2k and 2k + 1 |
| RohHands.HandMessagesLayout | src/kscale_vr_teleop/roh_hands.py:10-35 | one frame per position in index order, two messages with id 0x02 each, the finger byte of frame k being k |
| RohHands.ROHHands.constructor | src/kscale_vr_teleop/roh_hands.py:5-7 | two distinct fresh buses on the given channels, nothing sent |
| RohHands.ROHHands.SetHandJoints | src/kscale_vr_teleop/roh_hands.py:9-35 | one frame per position in order; a 257th position raises ValueError after the first 256 frames have gone out |
| RohHands.ROHHands.SendPosition | src/kscale_vr_teleop/roh_hands.py:11-35 | the frame for one finger goes out, or finger 256 raises ValueError with nothing sent |
| RohHands.ROHHands.SetLeftHandJoints | src/kscale_vr_teleop/roh_hands.py:37-38 | left positions go to the left bus only |
| RohHands.ROHHands.SetRightHandJoints | src/kscale_vr_teleop/roh_hands.py:40-41 | right positions go to the right bus only |
| RohHand.ScriptMessages | src/kscale_vr_teleop/roh_hand.py:10-37 | two messages, the frame's first eight and last three bytes, exactly when the finger fits a byte; ValueError otherwise |
| RohHand.Run | src/kscale_vr_teleop/roh_hand.py:12-37 | the bus can<canbus> is opened first; a bad finger raises with nothing sent, otherwise the bus carries exactly the script's messages |
| RohHand.DefaultFrame | src/kscale_vr_teleop/roh_hand.py:4-32 | with the defaults the frame is 55 AA 02 01 4C 04 01 00 00 FF B5 |
| RohHand.AgreesWithDriver | src/kscale_vr_teleop/roh_hand.py:10-37 | for finger k the tool sends exactly the two messages the two-hand driver sends for position k |
| FingerUdpServer.PayloadOf | src/kscale_vr_teleop/finger_udp_server.py:38-46 | both hands keep their lengths and every value lies in [0, 1] |
| FingerUdpServer.ClippingFacts | src/kscale_vr_teleop/finger_udp_server.py:38-39 | values in [0, 1] pass unchanged, others go to the nearer bound, and clipping a sent payload again changes nothing |
| FingerUdpServer.NumArray | src/kscale_vr_teleop/finger_udp_server.py:44-45 | one JSON number per value, in order |
| FingerUdpServer.ToJson | src/kscale_vr_teleop/finger_udp_server.py:42-49 | an object with exactly the keys timestamp, right_fingers and left_fingers, holding the payload's values |
| FingerUdpServer.FingerUDPHandler.constructor | src/kscale_vr_teleop/finger_udp_server.py:7-16 | remembers host and port; nothing sent or printed |
| FingerUdpServer.FingerUDPHandler.SendFingerCommands | src/kscale_vr_teleop/finger_udp_server.py:30-51 | a delivered datagram carries the clipped payload; a failed send prints "Failed to send udp packet" and does not raise |
| FingerUdpListener.ToArray | src/kscale_vr_teleop/finger_udp_listener.py:41-42 | numpy's conversion: a flat vector exactly for a list of number-like items (numbers, booleans, parseable strings) holding their values; a null item gives NaN; an object, a ragged list or an unparseable string cannot be converted |
| FingerUdpListener.Dims | src/kscale_vr_teleop/finger_udp_listener.py:41-42 | a list's shape starts with its length; None when numpy's conversion would raise |
| FingerUdpListener.Field | src/kscale_vr_teleop/finger_udp_listener.py:41-42 | a missing key gives six zeros; an object under the key cannot be converted |
| FingerUdpListener.Handle | src/kscale_vr_teleop/finger_udp_listener.py:36-61 | no packet exactly when nothing was waiting; the hands are driven with the two finger arrays exactly when the packet is a JSON object whose two entries (default six zeros) are six-number vectors; bad JSON is logged as such and undecodable bytes or a non-object as a processing error |
| FingerUdpListener.Percent | src/kscale_vr_teleop/finger_udp_listener.py:50-51 | every closure multiplied by 100 |
| FingerUdpListener.MissingKeysOpenHands | src/kscale_vr_teleop/finger_udp_listener.py:41-51 | a datagram without finger keys drives both hands fully open |
| FingerUdpListener.WrongLengthRejected | src/kscale_vr_teleop/finger_udp_listener.py:45-47 | a list of other than six numbers is logged as an invalid shape and nothing is sent |
| FingerUdpListener.SenderToListener | src/kscale_vr_teleop/finger_udp_listener.py:41-51 | what the finger sender puts in a datagram for two six-finger hands, the listener hands on as the clipped closures, and every resulting 16-bit target is in range |
| FingerUdpListener.VectorOfNumArray | src/kscale_vr_teleop/finger_udp_listener.py:41-42 | a JSON list of numbers converts back to exactly those numbers |
| FingerUdpListener.NumericStringsDriveHands | src/kscale_vr_teleop/finger_udp_listener.py:41-51 | six numeric strings are converted as numpy does and drive the right hand with their values |
| FingerUdpListener.RaggedListUnconvertible | src/kscale_vr_teleop/finger_udp_listener.py:41-61 | a ragged list cannot be converted and is logged as a processing error |
| FingerUdpListener.NullFingerIsProcessingError | src/kscale_vr_teleop/finger_udp_listener.py:41-61 | a null finger value becomes NaN and the packet is logged as a processing error |
| FingerUdpListener.FingerUDPListener.constructor | src/kscale_vr_teleop/finger_udp_listener.py:14-28 | binds host and port and opens the hands on can3 (left) and can2 (right), nothing sent or logged |
| FingerUdpListener.FingerUDPListener.ProcessPacket | src/kscale_vr_teleop/finger_udp_listener.py:30-61 | false only when nothing was waiting; a valid packet sends the right hand's frames then the left's, as Handle decides; anything else logs one line and sends nothing |
| Convert.ColumnMajor | src/kscale_vr_teleop/convert.py:35 | sixteen values; value k is row k % 4 of column k / 4 |
| Convert.MatrixOf | src/kscale_vr_teleop/convert.py:22-35 | sixteen values, 12-14 being the position and 15 being one |
| Convert.MakeMatrix | src/kscale_vr_teleop/convert.py:13-35 | fills the rotation block, writes the position into column 3 and reads the matrix out column by column: exactly MatrixOf |
| Convert.MatrixLayout | src/kscale_vr_teleop/convert.py:22-35 | values 12-14 are the position, 3, 7 and 11 are zero, 15 is one, and value 4j + i is row i of column j of the rotation |
| Convert.IdentityQuaternion | src/kscale_vr_teleop/convert.py:22-47 | the quaternion (0, 0, 0, 1) gives the identity rotation, so a joint at the origin with it equals the untracked-joint block |
| Convert.QuaternionSign | src/kscale_vr_teleop/convert.py:22-27 | q and -q give the same matrix |
| Convert.ConjugateTransposes | src/kscale_vr_teleop/convert.py:22-27 | the conjugate quaternion gives the transposed rotation block |
| Convert.TwoSquares | src/kscale_vr_teleop/convert.py:22-27 | the sum-of-two-squares identity behind the row lengths |
| Convert.RowLength | src/kscale_vr_teleop/convert.py:22-27 | a row (1 - 2s, e1, e2) with e1^2 + e2^2 = 4ts and s + t = 1 has length 1 |
| Convert.Row0Length | src/kscale_vr_teleop/convert.py:23 | row 0 of the rotation has length 1 for a unit quaternion |
| Convert.Row1Length | src/kscale_vr_teleop/convert.py:24 | row 1 of the rotation has length 1 for a unit quaternion |
| Convert.Row2Length | src/kscale_vr_teleop/convert.py:25 | row 2 of the rotation has length 1 for a unit quaternion |
| Convert.Rows01Dot | src/kscale_vr_teleop/convert.py:23-24 | the dot product of rows 0 and 1 is 4xy(1 - abs(q)^2) |
| Convert.Rows02Dot | src/kscale_vr_teleop/convert.py:23-25 | the dot product of rows 0 and 2 is 4xz(1 - abs(q)^2) |
| Convert.Rows12Dot | src/kscale_vr_teleop/convert.py:24-25 | the dot product of rows 1 and 2 is 4yz(1 - abs(q)^2) |
| Convert.Rows01Zero | src/kscale_vr_teleop/convert.py:23-24 | rows 0 and 1 are orthogonal for a unit quaternion |
| Convert.Rows02Zero | src/kscale_vr_teleop/convert.py:23-25 | rows 0 and 2 are orthogonal for a unit quaternion |
| Convert.Rows12Zero | src/kscale_vr_teleop/convert.py:24-25 | rows 1 and 2 are orthogonal for a unit quaternion |
| Convert.QuatRowsOrthonormal | src/kscale_vr_teleop/convert.py:22-27 | for a unit quaternion the three rows of the rotation block have length 1 and are pairwise orthogonal |
| Convert.Block | src/kscale_vr_teleop/convert.py:43-47 | sixteen values per joint, tracked or not |
| Convert.ConcatBlocks | src/kscale_vr_teleop/convert.py:49 | blocks of sixteen concatenate to 16n values with block k at 16k |
| Convert.Blocks | src/kscale_vr_teleop/convert.py:41-48 | one block per joint, in joint order |
| Convert.HandArrayLayout | src/kscale_vr_teleop/convert.py:37-49 | 400 values; values 16k to 16k + 15 are joint k's block, the identity for an untracked joint |
| Convert.ConvertHand | src/kscale_vr_teleop/convert.py:37-49 | the loop over the joints returns exactly HandArray |
| Convert.ConvertFacts | src/kscale_vr_teleop/convert.py:52-81 | a hand the frame does not carry stays None, a carried hand becomes 400 values, and both gesture records are always idle |
| Convert.ConvertOf | src/kscale_vr_teleop/convert.py:52-81 | a side has an array exactly when the frame carries that hand, and both gesture records are idle |
| Convert.ConvertFrame | src/kscale_vr_teleop/convert.py:52-81 | the loop over left and right returns exactly ConvertOf |
| RerunSimulatedUdp.FloatOf | src/kscale_vr_teleop/rerun_simulated_udp.py:122 | float() of a number is that number; of null, a list or an object it is TypeError |
| RerunSimulatedUdp.FillPrefix | src/kscale_vr_teleop/rerun_simulated_udp.py:117-122 | succeeds exactly when every one of the first n arm entries converts |
| RerunSimulatedUdp.ParseOf | src/kscale_vr_teleop/rerun_simulated_udp.py:90-124 | a "joint_angles" entry is passed on as it came; an object with neither key, a null command list, and a command list shorter than sixteen give {}; a number, boolean or null message, or a number or boolean command value, raises TypeError |
| RerunSimulatedUdp.RightNameChars | src/kscale_vr_teleop/rerun_simulated_udp.py:73-78 | the characters that tell the right-arm names apart |
| RerunSimulatedUdp.LeftNameChars | src/kscale_vr_teleop/rerun_simulated_udp.py:79-83 | the characters that tell the left-arm names apart |
| RerunSimulatedUdp.JointNamesDistinct | src/kscale_vr_teleop/rerun_simulated_udp.py:73-84 | the ten joint names are distinct |
| RerunSimulatedUdp.FillPrefixValues | src/kscale_vr_teleop/rerun_simulated_udp.py:117-122 | the first n names get the converted entries 6 to 5 + n and no other key is present |
| RerunSimulatedUdp.UpdateStep | src/kscale_vr_teleop/rerun_simulated_udp.py:122 | adding a new name extends the key set by it and changes no earlier entry |
| RerunSimulatedUdp.LastNameNew | src/kscale_vr_teleop/rerun_simulated_udp.py:73-84 | a name is not repeated later in the list |
| RerunSimulatedUdp.ArrayMessageShown | src/kscale_vr_teleop/rerun_simulated_udp.py:104-124 | a list of sixteen or more convertible entries gives exactly the ten arm joints, joint i taking float(commands[6 + i]) |
| RerunSimulatedUdp.FillPrefixError | src/kscale_vr_teleop/rerun_simulated_udp.py:119-122 | the first entry that does not convert decides the error |
| RerunSimulatedUdp.OnlyArmEntriesMatter | src/kscale_vr_teleop/rerun_simulated_udp.py:113-122 | the six base entries and anything after entry 15 do not change the result |
| RerunSimulatedUdp.ParseMessage | src/kscale_vr_teleop/rerun_simulated_udp.py:90-124 | the guards and the loop return exactly ParseOf |
| RerunVisualizer.MapPrefix | rerun/visualizer.py:101-117 | succeeds exactly when every present command among the first n mapping entries converts |
| RerunVisualizer.PlotCheck | rerun/visualizer.py:120-162 | succeeds exactly when every present command of the colour table converts |
| RerunVisualizer.NonObjectCommands | rerun/visualizer.py:98-147 | a "commands" value that is not an object always raises |
| RerunVisualizer.ParseOf | rerun/visualizer.py:79-164 | an object without "commands" gives {}; a number, boolean or null message raises TypeError; a non-object "commands" value raises |
| RerunVisualizer.MappingDistinct | rerun/visualizer.py:101-112 | the ten robot-model joints are distinct |
| RerunVisualizer.MapPrefixValues | rerun/visualizer.py:114-117 | after the first n entries, exactly the joints of the present keys are set, each to float() of its command |
| RerunVisualizer.MappedStep | rerun/visualizer.py:116-117 | a present key adds its new joint and changes no earlier entry |
| RerunVisualizer.MappedSkip | rerun/visualizer.py:116 | an absent key adds nothing |
| RerunVisualizer.MappedJointNew | rerun/visualizer.py:101-112 | a mapped joint is not mapped again later |
| RerunVisualizer.JointPresentIffCommand | rerun/visualizer.py:114-117 | a parsed datagram holds a joint exactly when its mapped command is present, with float() of that command as the angle |
| RerunVisualizer.OnlyArmJoints | rerun/visualizer.py:114-164 | the result only has robot-model joint names as keys, never a gripper or velocity command |
| RerunVisualizer.RobotNamesNotCommands | rerun/visualizer.py:101-143 | no robot-model joint name is a gripper or velocity key |
| RerunVisualizer.ContainsAt | rerun/visualizer.py:150-155 | `sub in s` holds when sub sits at some offset of s |
| RerunVisualizer.Category | rerun/visualizer.py:150-155 | one of the four groups; arm_joints exactly when the key contains shoulder, elbow or wrist; grippers and velocity only for keys with gripper and vel; other for keys with neither |
| RerunVisualizer.NotContains | rerun/visualizer.py:150-155 | `sub in s` fails when one of sub's characters is nowhere in s |
| RerunVisualizer.RightColourCategories | rerun/visualizer.py:122-153 | the right arm keys plot under arm_joints and the right gripper under grippers |
| RerunVisualizer.RightArmKey | rerun/visualizer.py:122-151 | each right arm key plots under arm_joints |
| RerunVisualizer.LeftColourCategories | rerun/visualizer.py:130-153 | the left arm keys plot under arm_joints and the left gripper under grippers |
| RerunVisualizer.LeftArmKey | rerun/visualizer.py:130-151 | each left arm key plots under arm_joints |
| RerunVisualizer.VelocityColourCategories | rerun/visualizer.py:138-155 | the six velocity keys plot under velocity |
| RerunVisualizer.VelocityKey | rerun/visualizer.py:138-155 | each velocity key plots under velocity |
| RerunVisualizer.ArmCategory | rerun/visualizer.py:150-151 | a key holding shoulder, elbow or wrist after its side letter is an arm key |
| RerunVisualizer.GripperCategory | rerun/visualizer.py:150-153 | a gripper key is none of shoulder, elbow or wrist and plots under grippers |
| RerunVisualizer.VelocityCategory | rerun/visualizer.py:150-155 | a velocity key is no arm joint and no gripper and plots under velocity |
| RerunVisualizer.ParseMessage | rerun/visualizer.py:79-164 | the key test, the mapping loop and the plotting loop return exactly ParseOf |
| RerunVisualizer.MapPrefixError | rerun/visualizer.py:115-117 | the first failing mapped command decides the error |
| RerunVisualizer.PlotCheckError | rerun/visualizer.py:147-162 | the first failing plotted command decides the error |
| RerunLoaderUrdf.ResolveRosPath | src/kscale_vr_teleop/analysis/rerun_loader_urdf.py:168-186 | a file URI loses exactly its scheme, any other non-package path comes back unchanged, and only a package URI can raise (ValueError when no package directory is found) |
| RerunLoaderUrdf.PackageDir | src/kscale_vr_teleop/analysis/rerun_loader_urdf.py:174 | a non-empty ROS 1 answer is used; otherwise the ROS 2 answer, so None means ROS 2 does not know the package |
| RerunLoaderUrdf.FileUriStripped | src/kscale_vr_teleop/analysis/rerun_loader_urdf.py:183-184 | resolving file:// followed by a path gives that path back |
| RerunLoaderUrdf.PackageUriResolved | src/kscale_vr_teleop/analysis/rerun_loader_urdf.py:169-182 | package://pkg/a/b resolves to the package directory joined with a/b, and raises ValueError when neither ROS index knows pkg |
| RerunLoaderUrdf.CleanDirectory | src/kscale_vr_teleop/analysis/rerun_loader_urdf.py:182 | an absolute package directory keeps its single root and its segments when the relative path is appended |
| RerunLoaderUrdf.ComponentsOfJoin | src/kscale_vr_teleop/analysis/rerun_loader_urdf.py:170-173 | the path parts of a slash-joined relative path are its segments, so parts[1] is the package name and parts[2:] the relative path |
| RerunLoaderUrdf.PackageUriParts | src/kscale_vr_teleop/analysis/rerun_loader_urdf.py:170-172 | the parts of package://pkg/a/b are "package:", pkg, a and b, so parts[1] is the package and parts[2:] the relative path |
| RerunLoaderUrdf.SplitJoin | src/kscale_vr_teleop/analysis/rerun_loader_urdf.py:35 | splitting a "/"-join of slash-free names gives the names back |
| RerunLoaderUrdf.RewriteLength | src/kscale_vr_teleop/analysis/rerun_loader_urdf.py:26 | the rewritten URDF text is longer by the inserted directory once per filename attribute |
| RerunLoaderUrdf.NoAttributeUnchanged | src/kscale_vr_teleop/analysis/rerun_loader_urdf.py:26 | text without a filename attribute is left unchanged |
| RerunLoaderUrdf.RewriteAttribute | src/kscale_vr_teleop/analysis/rerun_loader_urdf.py:25-26 | the text before the first filename attribute is kept, the attribute gains the URDF directory and a slash, and the rest is rewritten alike |
| RerunLoaderUrdf.RewrittenReferenceUnresolved | src/kscale_vr_teleop/analysis/rerun_loader_urdf.py:168-186 | a rewritten reference starts with the absolute URDF directory, so path resolution returns it unchanged |
| RerunLoaderUrdf.EvensAt | src/kscale_vr_teleop/analysis/rerun_loader_urdf.py:34 | the [0::2] slice has ceil(n/2) items, each the chain item at twice its index |
| RerunLoaderUrdf.LinkEntityPath | src/kscale_vr_teleop/analysis/rerun_loader_urdf.py:32-35 | an empty chain gives "" and a chain with one link (and at most one joint) gives that link's name |
| RerunLoaderUrdf.JointEntityPath | src/kscale_vr_teleop/analysis/rerun_loader_urdf.py:37-40 | a joint is logged under the entity path of its child link |
| RerunLoaderUrdf.EntityPathSegments | src/kscale_vr_teleop/analysis/rerun_loader_urdf.py:32-35 | a link's entity path names exactly the links of its chain from the root, joints skipped, in order |
| WorkingEnvelope.SampledJoints | src/transforms/compute_working_envelope.py:111-120 | the five right-arm joints, in their own order, when every one of them is available, otherwise all available joints |
| WorkingEnvelope.JointLimitsOf | src/transforms/compute_working_envelope.py:39-55 | one range per requested joint name, range i being LimitOf the i-th name |
| WorkingEnvelope.LimitOf | src/transforms/compute_working_envelope.py:40-54 | an unknown joint gets (-180, 180); bounds that do not both lie within 2π are kept as they are |
| WorkingEnvelope.LimitsMap | src/transforms/compute_working_envelope.py:37 | AttributeError exactly when some actuated joint has no limit; otherwise every joint name is a key and maps to the limit of a joint of that name |
| WorkingEnvelope.JointLimitsFromUrdf | src/transforms/compute_working_envelope.py:26-55 | fails exactly when the limits map does, with AttributeError; otherwise one range per name as JointLimitsOf gives them |
| WorkingEnvelope.LimitFacts | src/transforms/compute_working_envelope.py:41-54 | an unknown joint gets (-180, 180); bounds both within 2π are converted to degrees and then lie within ±360; other bounds are kept as they are |
| WorkingEnvelope.DegreeBound | src/transforms/compute_working_envelope.py:45-47 | an angle within 2π radians is within 360 degrees |
| WorkingEnvelope.GetJointLimits | src/transforms/compute_working_envelope.py:26-55 | the loop returns exactly JointLimitsFromUrdf: the AttributeError of a missing limit, or the per-joint ranges in order |
| WorkingEnvelope.PyMod | src/transforms/compute_working_envelope.py:136 | Python's remainder takes the divisor's sign and is smaller than it in magnitude |
| WorkingEnvelope.Processes | src/transforms/compute_working_envelope.py:131 | the pool has at least one process, and exactly the requested number when that is positive |
| WorkingEnvelope.ChunkPlan | src/transforms/compute_working_envelope.py:135-142 | a zero chunk size raises ZeroDivisionError; in a plan chunk i has seed i and every chunk but the last holds the chunk size |
| WorkingEnvelope.ChunkCount | src/transforms/compute_working_envelope.py:135-142 | full chunks plus one for a non-zero remainder is the total divided by the chunk size, rounded up |
| WorkingEnvelope.SumOfFull | src/transforms/compute_working_envelope.py:139-140 | n full chunks hold n times the chunk size |
| WorkingEnvelope.PlanShape | src/transforms/compute_working_envelope.py:135-142 | q full chunks and a remainder hold q·chunk + remainder samples, with one more chunk for a non-zero remainder and the seeds in order |
| WorkingEnvelope.ChunkPlanCovers | src/transforms/compute_working_envelope.py:129-142 | for a non-negative total and positive chunk size the plan succeeds, covers the total exactly, has ⌈total / chunk⌉ chunks of 1 to chunk samples each, and chunk i uses spawned seed i |
| WorkingEnvelope.PlanOfNonNegative | src/transforms/compute_working_envelope.py:135-142 | the plan is total // chunk full chunks followed by the remainder chunk when there is one |
| WorkingEnvelope.ChunkPlanErrors | src/transforms/compute_working_envelope.py:135-142 | a zero chunk size raises ZeroDivisionError; a negative total above -chunk spawns no seed and raises IndexError |
| WorkingEnvelope.DuplicatedChunks | src/transforms/compute_working_envelope.py:137-142 | as written, the first two of the 100 default chunks have different spawn indices but the same size and the same generator seed |
| WorkingEnvelope.WorkerSeedAsWritten | src/transforms/compute_working_envelope.py:137-142 | as written, the generator seed is the entropy part of the intended seed and does not depend on the chunk |
| WorkingEnvelope.WorkerSeed | src/transforms/compute_working_envelope.py:137-142 | the intended seed carries the chunk's spawn index |
| WorkingEnvelope.DistinctWorkerSeeds | src/transforms/compute_working_envelope.py:137-142 | with the spawned child itself as the seed, every chunk of a plan gets a generator of its own |
| WorkingEnvelope.PlanChunks | src/transforms/compute_working_envelope.py:133-142 | the chunk list main builds is exactly ChunkPlan, errors included |
| ThreeScene.SceneState.constructor | frontend/src/lib/types.ts:74-90 | the default scene state: no robot, commands paused, joystick scale 0.1, no button states, both last-colour refs -1 |
| ThreeScene.Scaled | frontend/src/lib/three-scene.ts:231-234 | the scaled distance lies in [0, 1]: 0 for no distance, 1 from 0.2 on |
| ThreeScene.Channel | frontend/src/lib/three-scene.ts:237-238 | Math.floor of an intensity in [0, 255] is a byte no larger than it and within one of it |
| ThreeScene.PackBytes | frontend/src/lib/three-scene.ts:240 | shifting red by 16 and green by 8 and or-ing them with 0 is 65536·red + 256·green |
| ThreeScene.OrDouble | frontend/src/lib/three-scene.ts:240 | shifting both operands of a bitwise or left by n shifts the result left by n |
| ThreeScene.OrLow | frontend/src/lib/three-scene.ts:240 | or-ing a value below 2^n into a multiple of 2^n adds it |
| ThreeScene.ColourPacking | frontend/src/lib/three-scene.ts:229-241 | the colour is 65536·red + 256·green with byte channels: the blue byte is zero and red and green read back from the colour |
| ThreeScene.ChannelsReadBack | frontend/src/lib/three-scene.ts:240 | 65536·red + 256·green has a zero low byte, red in the third byte and green in the second |
| ThreeScene.ColourEnds | frontend/src/lib/three-scene.ts:229-241 | no distance gives pure green 0x00FF00, a distance of 0.2 or more pure red 0xFF0000 |
| ThreeScene.ColourMonotone | frontend/src/lib/three-scene.ts:229-241 | a farther hand is at least as red and at most as green |
| ThreeScene.ChannelSum | frontend/src/lib/three-scene.ts:237-238 | red and green add up to 254 or 255, and to 255 exactly when the scaled red intensity is whole |
| ThreeScene.UpdateMeshColor | frontend/src/lib/three-scene.ts:244-255 | a Lambert mesh takes a colour that differs from the last one applied and only then the named side's ref records it; any other side name changes no ref, and the rest of the scene state is unchanged |
| UrdfView.ActuatorMapping | frontend/src/lib/urdf.ts:6-21 | only "left" and "right" have a mapping; each has five names, all "dof_<side>_" joints |
| UrdfView.ActuatorsDistinct | frontend/src/lib/urdf.ts:6-21 | each side's five joint names are distinct |
| UrdfView.Applied | frontend/src/lib/urdf.ts:87-96 | applying the array never adds or removes a joint of the robot |
| UrdfView.AppliedValues | frontend/src/lib/urdf.ts:87-96 | with distinct names, a joint the robot has takes what setJointValue stores for the entry that names it, and a joint no applied entry names keeps its angle |
| UrdfView.SideIsolation | frontend/src/lib/urdf.ts:76-97 | an update for one side keeps the joint set, leaves every joint outside that side unchanged, gives each of entries 0 to 4 the robot has what setJointValue stores for it, and ignores later entries |
| UrdfView.UnclampedStoresAngles | frontend/src/lib/urdf.ts:87-96 | with a setter that stores its angle, each mapped joint the robot has holds the entry given for it |
| UrdfView.UpdateURDF | frontend/src/lib/urdf.ts:76-97 | an unknown side changes nothing; otherwise the robot's joints become the array passed in order through setJointValue to the mapped joints |
| Tracking.ShiftIdentityAndZero | frontend/src/lib/tracking.ts:11-33 | without rotation the target moves +offset along z, and a zero offset keeps the position |
| Tracking.ShiftTarget | frontend/src/lib/tracking.ts:11-33 | a zero offset keeps the position, and without rotation the target moves +offset along z |
| Tracking.ForwardComponents | frontend/src/lib/tracking.ts:13-27 | the quaternion product rotating -z, multiplied out |
| Tracking.ForwardIsRotatedAxis | frontend/src/lib/tracking.ts:13-27 | for a unit quaternion the rotated forward direction is minus the third column of the rotation matrix the server builds from the same quaternion |
| Tracking.ThirdColumn | frontend/src/lib/tracking.ts:27 | the third column of the quaternion's rotation matrix, multiplied out |
| Tracking.ForwardUnit | frontend/src/lib/tracking.ts:13-27 | for a unit quaternion the rotated forward direction has length 1 |
| Tracking.ScaledDisplacement | frontend/src/lib/tracking.ts:28-32 | moving a point by -offset·f moves it |f|²·offset² in squared distance |
| Tracking.ShiftDistance | frontend/src/lib/tracking.ts:11-33 | for a unit quaternion the shifted target sits exactly `offset` (0.09 m for controllers) from the grip |
| Tracking.IdentityPushIsIdentityBlock | frontend/src/lib/tracking.ts:87-90 | the sixteen values pushed for a joint without a pose are the flattened 4×4 identity the server uses |
| Tracking.HandArrayOf | frontend/src/lib/tracking.ts:79-92 | a hand's array is exactly the array the server's converter builds from the tracked joints, so it holds 400 values |
| Tracking.PackHand | frontend/src/lib/tracking.ts:79-93 | the joint loop builds exactly HandArrayOf |
| Tracking.BlocksStep | frontend/src/lib/tracking.ts:79-92 | one more joint appends that joint's sixteen values |
| Tracking.WristsOf | frontend/src/lib/tracking.ts:37-77 | the wrist positions always have a left and a right key |
| Tracking.HandDataOf | frontend/src/lib/tracking.ts:48-94 | every hand source's handedness is a key, and every value holds 400 values |
| Tracking.HandDataFacts | frontend/src/lib/tracking.ts:48-97 | handData has a key for exactly the handednesses of the hand sources, each value is the array of such a source, and each holds 400 values |
| Tracking.HandDataKeys | frontend/src/lib/tracking.ts:48-94 | a handedness is a key of handData exactly when some hand source has it |
| Tracking.HandDataValues | frontend/src/lib/tracking.ts:48-94 | every handData value is the 400-value array of a hand source of that side |
| Tracking.WristFound | frontend/src/lib/tracking.ts:55-77 | a side's wrist is found exactly when some hand source of that side has a wrist pose |
| Tracking.Pressed | frontend/src/lib/tracking.ts:122-128 | the pressed flags of every button, in order, and none without a gamepad |
| Tracking.EntryOf | frontend/src/lib/tracking.ts:104-142 | a controller entry has the shifted grip position, zero readings without a gamepad, and joystick axes 2 and -3 scaled by the joystick scale |
| Tracking.ReadController | frontend/src/lib/tracking.ts:108-142 | the readings the loop body builds are exactly EntryOf |
| Tracking.ControllersOf | frontend/src/lib/tracking.ts:101 | the controller data always has a left and a right key |
| Tracking.ControllerFacts | frontend/src/lib/tracking.ts:100-148 | every present entry comes from a posed tracked-pointer controller of that side without a hand, and a side's entry is present exactly when such a controller exists |
| Tracking.TrackingOf | frontend/src/lib/tracking.ts:162-165 | a hand result has a left and a right wrist and 400-value hand arrays; the controller fallback always has a left and a right key |
| Tracking.HandleHandTracking | frontend/src/lib/tracking.ts:35-98 | the hand loop returns exactly WristsOf and HandDataOf |
| Tracking.HandleControllerTracking | frontend/src/lib/tracking.ts:100-148 | the controller loop returns exactly ControllersOf |
| Tracking.FallbackRule | frontend/src/lib/tracking.ts:162-165 | hands are reported exactly when both a left and a right hand source have a wrist pose; the controller fallback's payload is never empty |
| Tracking.HandleTracking | frontend/src/lib/tracking.ts:150-177 | within 25 ms of the last send nothing happens; otherwise the send time is updated, the step's result returned, and it is sent exactly when commands are not paused, the socket is open and the payload is not empty |
| Tracking.PauseToggle | frontend/src/lib/tracking.ts:195-210 | pausing flips exactly on a rising edge of the left controller's button 4 |
| Tracking.ScaleButtons | frontend/src/lib/tracking.ts:215-243 | a rising A press lowers the scale by 0.05 but not below zero, a rising B press raises it by 0.05, neither leaves it, and the right controller never changes pausing |
| Tracking.HeldButtonsIdempotent | frontend/src/lib/tracking.ts:201-241 | a held button acts only once: the same readings seen twice act as once |
| Tracking.ScaleNeverNegative | frontend/src/lib/tracking.ts:225-238 | the joystick scale never becomes negative from a non-negative start |
| Tracking.LeftStep | frontend/src/lib/tracking.ts:195-210 | the scale is unchanged; pausing flips exactly on a rising edge of button 4, whose state is then remembered |
| Tracking.LeftStepAsWritten | frontend/src/lib/tracking.ts:195-210 | as written, a TypeError exactly for three or four buttons; otherwise the same state as LeftStep |
| Tracking.RightStep | frontend/src/lib/tracking.ts:215-243 | pausing is unchanged, a non-negative scale stays non-negative, and fewer than five buttons change nothing |
| Tracking.SourceStep | frontend/src/lib/tracking.ts:185-243 | a source without a gamepad or of neither side changes nothing; only a right source changes the scale and only a left one pausing |
| Tracking.InputOf | frontend/src/lib/tracking.ts:185-244 | the scale stays non-negative from a non-negative start, and sources without gamepads change nothing |
| Tracking.ShortLeftGamepadThrows | frontend/src/lib/tracking.ts:197-199 | as written, a left gamepad with three or four buttons throws where the corrected guard does nothing; on every other gamepad the two agree |
| Tracking.HandleControllerInput | frontend/src/lib/tracking.ts:180-245 | without a frame and reference space nothing changes; otherwise the pause flag, scale and button states become the sources applied in turn, with the left guard corrected, and the robot and colour refs are unchanged |
| WebxrTracking.PlainEntryOf | webxrtest/src/webxrTracking.ts:96-122 | a controller entry carries the grip pose unshifted, zero readings without a gamepad, and buttons 0 and 1 as trigger and grip |
| WebxrTracking.ControllerPosesOf | webxrtest/src/webxrTracking.ts:83 | the controller positions always have a left and a right key |
| WebxrTracking.ControllerDataOf | webxrtest/src/webxrTracking.ts:82-125 | every posed controller's handedness is a key of controllerData |
| WebxrTracking.ControllerDataFacts | webxrtest/src/webxrTracking.ts:82-125 | controllerData has an entry for exactly the handednesses of posed controllers, each built from one of them, and a side's position is found exactly when such a controller exists |
| WebxrTracking.PayloadNonEmpty | webxrtest/src/webxrTracking.ts:61-128 | a send needs a hand source (hand data) or a posed controller (controller data) among the frame's sources, and each suffices |
| WebxrTracking.HandPayloadNonEmpty | webxrtest/src/webxrTracking.ts:25-61 | hand data is non-empty exactly when some source is a hand |
| WebxrTracking.ControllerPayloadNonEmpty | webxrtest/src/webxrTracking.ts:85-128 | controller data is non-empty exactly when some posed controller exists |
| WebxrTracking.HandleHandTracking | webxrtest/src/webxrTracking.ts:4-71 | the send time advances only after 1000/30 ms; the wrist poses of the hand loop are always returned; the hand data is sent exactly when the interval passed, the socket is open and some hand was seen |
| WebxrTracking.HandleControllerTracking | webxrtest/src/webxrTracking.ts:73-138 | the send time advances only after 1000/30 ms; the grip poses are always returned; ControllerDataOf is sent exactly when the interval passed, the socket is open and some controller was posed |

## Left out

- Floating point: every value is a Dafny `real`. float32/float64 rounding, NaN and infinities are not modelled.
- Numeric solvers and geometry enter as function-valued parameters: the IK and least-squares solvers, `np.linalg.norm`, `arccos`, scipy `Rotation` (Euler and quaternion conversions), the axis-angle rotation and the forward kinematics of the external kinematics library.
- Convert: `Orthonormal(Rotation(QuatMatrix(q)))` for a unit quaternion is not proved at the level of the matrix. QuatRowsOrthonormal proves the same row lengths and dot products as polynomials in the quaternion's components.
- Sockets, CAN buses and the clock are left out as I/O. Sends are appended to output logs, received datagrams and `performance.now()` are parameters, and UDP socket options (broadcast, reuse, timeouts) are not modelled.
- Concurrency: each locked handler body of the signalling servers is one atomic method. The asyncio tasks, the worker pool of the working-envelope script and the display thread of the joystick script are not modelled.
- Logging, printing and every rerun call (`rr.log`, entity logging, trimesh rendering) are not modelled.
- handle_teleop in both signalling servers is not modelled. It forwards messages to a tracking handler that is not part of this model. In signaling.py:145 and 151 it calls `reset_to_home` and `handle_tracking`, which the teleop classes do not define.
- Kinematics: the forward-kinematics logging at kinematics.py:103 is not modelled.
- HandIk: `last_optim_res` at hand_inverse_kinematics.py:11 is never used and is not modelled.
- JaxIk: the URDF `filename=` rewrite at jax_ik.py:16-19 and the `__main__` benchmark are not modelled.
- JaxIk.SparsityMask states the mask the slice assignments at jax_ik.py:146-151 describe. As written, the `.at[...].set` calls apply JAX syntax to a NumPy array and would raise AttributeError. They sit in the solver set-up, which the constructor never calls (see Findings).
- CommandConn: the `_ultimate_max`/`_ultimate_min` fields, the UDP address and the `__main__` sine-wave demo are not modelled.
- Joystick16.Commander16: its methods require the range invariant `Valid()` (0.1 ≤ max_cmd ≤ 1.5), which the constructor establishes and every method keeps. A caller that assigns `max_cmd` directly is not modelled.
- Joystick16: `CommandDisplay16.run` (original_joystick16.py:79-92) refers to an undefined `update_from_controller` and `controller`, and is left out with the display thread.
- Convert: the example at convert.py:84-104 passes a raw string to `convert`. The model takes the parsed frame.
- RerunSimulatedUdp and RerunVisualizer: the docstrings at rerun_simulated_udp.py:35 and rerun/visualizer.py:47 name port 10002, but the code binds 10000. The model follows the code. The `run` loops and their status printing are not modelled.
- RerunVisualizer.PlotCheck checks the plotted keys in colour-table order, while the source visits the datagram's keys in their own order. When two plotted values fail differently, the exception reported may differ.
- RerunLoaderUrdf: `log`, `log_link`, `log_joint`, `log_visual` and `log_trimesh` are rendering and are not modelled. The ROS 1 and ROS 2 package lookups are parameters.
- RerunLoaderUrdf.ResolveRosPath follows pathlib's component rules for the paths it builds (empty and "." components dropped, one or two leading slashes kept). Other pathlib normalisations are not modelled.
- WorkingEnvelope: the sampling worker, the convex hull and the CSV output are numeric or I/O and are not modelled. `Pi` is the decimal value of `np.pi`.
- ThreeScene.SceneState merges the state types of three-scene.ts:3-35 and types.ts:56-90. It keeps the fields the modelled operations read: `joystickScale` comes from types.ts. Meshes, textures and the renderer are not modelled.
- ThreeScene.ShiftLeft does not model JavaScript's 32-bit wrap-around of `<<`. The shifted channels stay below 2^24, so no wrap can occur.
- ThreeScene: the scene, video-plane, status-canvas and clean-up functions (three-scene.ts:37-226) are rendering and are not modelled.
- UrdfView.UpdateURDF: the `jointUpdates` object at urdf.ts:85-91 is filled but never read, and is not modelled. `loadURDFRobot` is asynchronous loading and is not modelled.
- UrdfView.UpdateURDF takes the robot's `setJointValue` as a parameter. The joint-limit clamping of the URDF loader library is not modelled; UnclampedStoresAngles covers a setter that stores the angle as given.
- Signaling.DialError splices the exception text into the JSON text as it is. `json.dumps` would escape quotes and control characters in it; that escaping is not modelled.
- Signaling.IpText takes Python's rendering of a non-string `robot_ip` as a parameter.
- FingerUdpListener.ToArray models numpy's conversion on the parsed JSON. The float32 rounding of the values is not modelled, and the text-to-float parse is a parameter.
- FingerUdpListener.ProcessPacket: when only the left array holds a NaN, the source sends the right hand's frames before the conversion of a NaN raises. The model logs the processing error and sends nothing.
- WorkingEnvelope.LimitsMap models a joint without a limit object (AttributeError). A limit object whose lower or upper bound is None is not modelled.
- Tracking.HandleControllerInput takes whether the frame and reference space are present as a boolean `ready` parameter. It uses the corrected left-button guard; the guard as written is modelled separately (see Findings).
- Tracking.HandleTracking takes `now` as a parameter, in place of `performance.now()`. A failed WebSocket send is caught and logged in the source, so it is not modelled.

## Findings

| source | as written | input that shows it | evidently intended | confidence | as-written member | corrected member |
|---|---|---|---|---|---|---|
| src/kscale_vr_teleop/command_conn.py:81-83 | the wrist yaw and pitch are written when the right list has more than five entries, but index 6 is read | a six-entry right list, the length teleop_core.py:150 produces: RWristYaw is set, then IndexError, and nothing is sent | read index 6 only when it exists | not executed; high | CommandConn.SixEntryRightListRaises | CommandConn.GuardedNeverRaises |
| frontend/src/lib/tracking.ts:197-199 | the guard tests `buttons[2]` but reads `buttons[4].pressed` | a left gamepad with three or four buttons: reading `.pressed` of undefined throws a TypeError (Tracking.ShortLeftGamepadThrows compares the two guards) | test the button that is read | not executed; high | Tracking.LeftStepAsWritten | Tracking.LeftStep |
| src/kscale_vr_teleop/jax_ik.py:66-68 | the constructor's call of `_setup_ik_solver` is commented out, yet `inverse_kinematics` (line 171) uses `self.solver` | the first solve on a freshly built wrapper raises AttributeError | set up the solver in the constructor | not executed; high | JaxIk.FreshWrapperCannotSolve | JaxIk.InstalledSolverWarmStarts |
| src/transforms/compute_working_envelope.py:137-142 | each chunk is given `seeds_base[i].entropy`, which a spawned child shares with its parent | the default 10 000 000 samples in chunks of 100 000: all 100 workers seed their generator with 12345 and draw the same samples | seed each worker from its own spawned child | not executed; medium | WorkingEnvelope.DuplicatedChunks | WorkingEnvelope.DistinctWorkerSeeds |
