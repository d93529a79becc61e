/** The optional UDP viewer that listens to the robot's named commands:
    each datagram {"commands": {name: value, ...}} sets the ten arm joints
    of the robot model and plots every known command by category. */
module RerunVisualizer {
  import opened Common
  import opened RerunSimulatedUdp

  /** Command key to robot-model joint, in the order the mapping is scanned. */
  const JointMapping: seq<(string, string)> := [
    ("rshoulderpitch", "dof_right_shoulder_pitch_03"),
    ("rshoulderroll", "dof_right_shoulder_roll_03"),
    ("rshoulderyaw", "dof_right_shoulder_yaw_02"),
    ("relbowpitch", "dof_right_elbow_02"),
    ("rwristroll", "dof_right_wrist_00"),
    ("lshoulderpitch", "dof_left_shoulder_pitch_03"),
    ("lshoulderroll", "dof_left_shoulder_roll_03"),
    ("lshoulderyaw", "dof_left_shoulder_yaw_02"),
    ("lelbowpitch", "dof_left_elbow_02"),
    ("lwristroll", "dof_left_wrist_00")]

  const GripperKeys: seq<string> := ["rgripper", "lgripper"]
  const VelocityKeys: seq<string> := ["xvel", "yvel", "zvel", "rollvel", "pitchvel", "yawvel"]

  /** The keys of the colour table, the only commands plotted. */
  const ColourKeys: seq<string> := [
    "rshoulderpitch", "rshoulderroll", "rshoulderyaw", "relbowpitch", "rwristroll", "rgripper",
    "lshoulderpitch", "lshoulderroll", "lshoulderyaw", "lelbowpitch", "lwristroll", "lgripper",
    "xvel", "yvel", "zvel", "rollvel", "pitchvel", "yawvel"]

  /** The plot group of a command, by substring. */
  function Category(key: string): (r: string)
    ensures r in {"arm_joints", "grippers", "velocity", "other"}
    ensures r == "arm_joints" <==> Contains(key, "shoulder") || Contains(key, "elbow") || Contains(key, "wrist")
    ensures r == "grippers" ==> Contains(key, "gripper")
    ensures r == "velocity" ==> Contains(key, "vel") && !Contains(key, "gripper")
    ensures r == "other" ==> !Contains(key, "gripper") && !Contains(key, "vel")
  {
    if Contains(key, "shoulder") || Contains(key, "elbow") || Contains(key, "wrist") then "arm_joints"
    else if Contains(key, "gripper") then "grippers"
    else if Contains(key, "vel") then "velocity"
    else "other"
  }

  /** The joint angles of the first n mapping entries present in commands,
      or the first conversion error. */
  function MapPrefix(commands: map<string, Json>, parse: FloatOfString, n: nat): (r: Result<map<string, real>>)
    requires n <= |JointMapping|
    ensures r.Ok? <==> forall i | 0 <= i < n :: JointMapping[i].0 in commands ==> FloatOf(commands[JointMapping[i].0], parse).Ok?
  {
    if n == 0 then Ok(map[])
    else
      var prev := MapPrefix(commands, parse, n - 1);
      var (key, joint) := JointMapping[n - 1];
      if prev.Err? then prev
      else if key !in commands then prev
      else
        var v := FloatOf(commands[key], parse);
        if v.Err? then Err(v.error) else Ok(prev.value[joint := v.value])
  }

  /** The plotting pass: Ok when every plotted value converts, else the
      error of the first failing one in colour-table order. */
  function PlotCheck(commands: map<string, Json>, parse: FloatOfString, n: nat): (r: Result<()>)
    requires n <= |ColourKeys|
    ensures r.Ok? <==> forall i | 0 <= i < n :: ColourKeys[i] in commands ==> FloatOf(commands[ColourKeys[i]], parse).Ok?
  {
    if n == 0 then Ok(())
    else
      var prev := PlotCheck(commands, parse, n - 1);
      var key := ColourKeys[n - 1];
      if prev.Err? then prev
      else if key in commands && FloatOf(commands[key], parse).Err? then Err(FloatOf(commands[key], parse).error)
      else prev
  }

  /** Whether `key in commands` holds for a commands value that is not an
      object: an element test on a list, a substring test on a string. */
  predicate FoundIn(key: string, c: Json)
    requires c.JArr? || c.JStr?
  {
    if c.JArr? then JStr(key) in c.items else Contains(c.s, key)
  }

  /** The branch for a "commands" value that is not an object: indexing it
      by a name raises TypeError, and so does `in` on a number, boolean or
      null; otherwise .items() raises AttributeError. */
  function NonObjectCommands(c: Json): (r: Result<map<string, real>>)
    requires !c.JObj?
    ensures r.Err?
  {
    if c.JArr? || c.JStr? then
      if exists i | 0 <= i < |JointMapping| :: FoundIn(JointMapping[i].0, c) then Err("TypeError")
      else Err("AttributeError")
    else Err("TypeError")
  }

  /** _parse_message on a decoded datagram. */
  function ParseOf(message: Json, parse: FloatOfString): (r: Result<map<string, real>>)
    ensures message.JObj? && "commands" !in message.fields ==> r == Ok(map[])
    ensures message.JNum? || message.JBool? || message.JNull? ==> r == Err("TypeError")
    ensures message.JObj? && "commands" in message.fields && !message.fields["commands"].JObj? ==> r.Err?
  {
    match message
    case JObj(fields) =>
      if "commands" !in fields then Ok(map[])
      else
        var c := fields["commands"];
        if !c.JObj? then NonObjectCommands(c)
        else
          var m := MapPrefix(c.fields, parse, |JointMapping|);
          var p := PlotCheck(c.fields, parse, |ColourKeys|);
          if m.Err? then m
          else if p.Err? then Err(p.error)
          else m
    case JArr(items) => if JStr("commands") in items then Err("TypeError") else Ok(map[])
    case JStr(s) => if Contains(s, "commands") then Err("TypeError") else Ok(map[])
    case _ => Err("TypeError")
  }

  /** The ten joints are distinct, as are their command keys. */
  lemma MappingDistinct()
    ensures forall i, j | 0 <= i < j < |JointMapping| :: JointMapping[i].1 != JointMapping[j].1
  {
    JointNamesDistinct();
    assert forall i | 0 <= i < |JointMapping| :: JointMapping[i].1 == JointNames[i];
  }

  /** After the first n mapping entries, a joint is present iff its command
      key is, with the converted command as its angle. */
  lemma {:induction false} MapPrefixValues(commands: map<string, Json>, parse: FloatOfString, n: nat)
    requires n <= |JointMapping|
    requires MapPrefix(commands, parse, n).Ok?
    ensures MapPrefix(commands, parse, n).value.Keys
      == set i | 0 <= i < n && JointMapping[i].0 in commands :: JointMapping[i].1
    ensures forall i | 0 <= i < n && JointMapping[i].0 in commands ::
      MapPrefix(commands, parse, n).value[JointMapping[i].1] == FloatOf(commands[JointMapping[i].0], parse).value
  {
    if n > 0 {
      MapPrefixValues(commands, parse, n - 1);
      var prev := MapPrefix(commands, parse, n - 1).value;
      var (key, joint) := JointMapping[n - 1];
      if key in commands {
        var v := FloatOf(commands[key], parse).value;
        assert MapPrefix(commands, parse, n).value == prev[joint := v];
        forall i | 0 <= i < n - 1 ensures JointMapping[i].1 != joint {
          MappedJointNew(i, n - 1);
        }
        MappedStep(JointMapping, commands, n, prev, v);
      } else {
        assert MapPrefix(commands, parse, n).value == prev;
        MappedSkip(JointMapping, commands, n);
      }
    }
  }

  /** When the n-th key is present, adding its joint, new among the first
      n - 1, to a map keyed by the joints of the present keys among the first
      n - 1 gives a map keyed by those of the first n, changing no earlier
      entry. */
  lemma MappedStep<V>(pairs: seq<(string, string)>, present: map<string, V>, n: nat, prev: map<string, real>, v: real)
    requires 0 < n <= |pairs| && pairs[n - 1].0 in present
    requires forall i | 0 <= i < n - 1 :: pairs[i].1 != pairs[n - 1].1
    requires prev.Keys == set i | 0 <= i < n - 1 && pairs[i].0 in present :: pairs[i].1
    ensures prev[pairs[n - 1].1 := v].Keys == set i | 0 <= i < n && pairs[i].0 in present :: pairs[i].1
    ensures forall i | 0 <= i < n - 1 && pairs[i].0 in present ::
      prev[pairs[n - 1].1 := v][pairs[i].1] == prev[pairs[i].1]
  {
    assert (set i | 0 <= i < n && pairs[i].0 in present :: pairs[i].1)
      == (set i | 0 <= i < n - 1 && pairs[i].0 in present :: pairs[i].1) + {pairs[n - 1].1};
  }

  /** When the n-th key is absent, the joints of the present keys among the
      first n are those among the first n - 1. */
  lemma MappedSkip<V>(pairs: seq<(string, string)>, present: map<string, V>, n: nat)
    requires 0 < n <= |pairs| && pairs[n - 1].0 !in present
    ensures (set i | 0 <= i < n && pairs[i].0 in present :: pairs[i].1)
      == (set i | 0 <= i < n - 1 && pairs[i].0 in present :: pairs[i].1)
  {
    assert forall i | 0 <= i < n && pairs[i].0 in present :: i < n - 1;
  }

  /** A mapped joint is not mapped again later. */
  lemma MappedJointNew(i: nat, j: nat)
    requires i < j < |JointMapping|
    ensures JointMapping[i].1 != JointMapping[j].1
  {
    MappingDistinct();
  }

  /** A parsed datagram holds a joint exactly when its mapped command is
      present, with float() of that command as the angle. */
  lemma JointPresentIffCommand(message: Json, parse: FloatOfString)
    requires message.JObj? && "commands" in message.fields && message.fields["commands"].JObj?
    requires ParseOf(message, parse).Ok?
    ensures var c := message.fields["commands"].fields;
      var a := ParseOf(message, parse).value;
      && (forall i | 0 <= i < |JointMapping| :: JointMapping[i].1 in a <==> JointMapping[i].0 in c)
      && (forall i | 0 <= i < |JointMapping| && JointMapping[i].0 in c ::
            a[JointMapping[i].1] == FloatOf(c[JointMapping[i].0], parse).value)
  {
    var c := message.fields["commands"].fields;
    MapPrefixValues(c, parse, |JointMapping|);
    MappingDistinct();
  }

  /** The angles never carry a gripper or velocity command: only robot-model
      joint names are keys, whatever else the datagram holds. */
  lemma OnlyArmJoints(message: Json, parse: FloatOfString)
    requires ParseOf(message, parse).Ok?
    ensures forall k | k in ParseOf(message, parse).value :: exists i | 0 <= i < |JointMapping| :: k == JointMapping[i].1
    ensures forall k | k in ParseOf(message, parse).value :: k !in GripperKeys && k !in VelocityKeys
  {
    if message.JObj? && "commands" in message.fields && message.fields["commands"].JObj? {
      MapPrefixValues(message.fields["commands"].fields, parse, |JointMapping|);
    }
    RobotNamesNotCommands();
  }

  /** Every robot-model joint name starts with "dof_"; no gripper or velocity
      key starts with 'd'. */
  lemma RobotNamesNotCommands()
    ensures forall i | 0 <= i < |JointMapping| :: JointMapping[i].1 !in GripperKeys && JointMapping[i].1 !in VelocityKeys
  {
    forall i | 0 <= i < |JointMapping|
      ensures JointMapping[i].1 !in GripperKeys && JointMapping[i].1 !in VelocityKeys
    {
      assert JointMapping[i].1[0] == 'd';
    }
  }

  /** `sub in s` holds when sub sits at offset i of s. */
  lemma {:induction false} ContainsAt(s: string, sub: string, i: nat)
    requires i + |sub| <= |s| && s[i..i + |sub|] == sub
    ensures Contains(s, sub)
  {
    if i > 0 {
      assert s[1..][i - 1..i - 1 + |sub|] == sub;
      ContainsAt(s[1..], sub, i - 1);
    }
  }

  /** `sub in s` fails when one of sub's characters is nowhere in s. */
  lemma {:induction false} NotContains(s: string, sub: string, c: char)
    requires c in sub && c !in s
    ensures !Contains(s, sub)
  {
    var k :| 0 <= k < |sub| && sub[k] == c;
    if |sub| <= |s| {
      assert s[..|sub|][k] != sub[k];
    }
    if |s| > 0 {
      assert c !in s[1..];
      NotContains(s[1..], sub, c);
    }
  }

  /** The right arm keys are plotted under arm_joints, the right gripper under grippers. */
  lemma RightColourCategories()
    ensures forall i | 0 <= i < 5 :: Category(ColourKeys[i]) == "arm_joints"
    ensures Category(ColourKeys[5]) == "grippers"
  {
    forall i | 0 <= i < 5
      ensures Category(ColourKeys[i]) == "arm_joints"
    {
      RightArmKey(i);
    }
    assert ColourKeys[5] == "rgripper";
    GripperCategory(ColourKeys[5]);
  }

  /** Entry i of the colour table, for i below 5, is a right arm key. */
  lemma RightArmKey(i: nat)
    requires 0 <= i < 5
    ensures Category(ColourKeys[i]) == "arm_joints"
  {
    if i == 0 {
      ArmCategory('r', "shoulder", "pitch");
      assert ColourKeys[i] == ['r'] + "shoulder" + "pitch";
    } else if i == 1 {
      ArmCategory('r', "shoulder", "roll");
      assert ColourKeys[i] == ['r'] + "shoulder" + "roll";
    } else if i == 2 {
      ArmCategory('r', "shoulder", "yaw");
      assert ColourKeys[i] == ['r'] + "shoulder" + "yaw";
    } else if i == 3 {
      ArmCategory('r', "elbow", "pitch");
      assert ColourKeys[i] == ['r'] + "elbow" + "pitch";
    } else {
      ArmCategory('r', "wrist", "roll");
      assert ColourKeys[i] == ['r'] + "wrist" + "roll";
    }
  }

  /** The left arm keys are plotted under arm_joints, the left gripper under grippers. */
  lemma LeftColourCategories()
    ensures forall i | 6 <= i < 11 :: Category(ColourKeys[i]) == "arm_joints"
    ensures Category(ColourKeys[11]) == "grippers"
  {
    forall i | 6 <= i < 11
      ensures Category(ColourKeys[i]) == "arm_joints"
    {
      LeftArmKey(i);
    }
    assert ColourKeys[11] == "lgripper";
    GripperCategory(ColourKeys[11]);
  }

  /** Entries 6 to 10 of the colour table are left arm keys. */
  lemma LeftArmKey(i: nat)
    requires 6 <= i < 11
    ensures Category(ColourKeys[i]) == "arm_joints"
  {
    if i == 6 {
      ArmCategory('l', "shoulder", "pitch");
      assert ColourKeys[i] == ['l'] + "shoulder" + "pitch";
    } else if i == 7 {
      ArmCategory('l', "shoulder", "roll");
      assert ColourKeys[i] == ['l'] + "shoulder" + "roll";
    } else if i == 8 {
      ArmCategory('l', "shoulder", "yaw");
      assert ColourKeys[i] == ['l'] + "shoulder" + "yaw";
    } else if i == 9 {
      ArmCategory('l', "elbow", "pitch");
      assert ColourKeys[i] == ['l'] + "elbow" + "pitch";
    } else {
      ArmCategory('l', "wrist", "roll");
      assert ColourKeys[i] == ['l'] + "wrist" + "roll";
    }
  }

  /** The six velocity keys are plotted under velocity. */
  lemma VelocityColourCategories()
    ensures forall i | 12 <= i < 18 :: Category(ColourKeys[i]) == "velocity"
  {
    forall i | 12 <= i < 18
      ensures Category(ColourKeys[i]) == "velocity"
    {
      VelocityKey(i);
    }
  }

  /** Entries 12 to 17 of the colour table are velocity keys. */
  lemma VelocityKey(i: nat)
    requires 12 <= i < 18
    ensures Category(ColourKeys[i]) == "velocity"
  {
    var prefix := ["x", "y", "z", "roll", "pitch", "yaw"][i - 12];
    assert ColourKeys[i] == prefix + "vel";
    VelocityCategory(prefix);
  }

  /** An arm key holds its joint word after the side letter. */
  lemma ArmCategory(side: char, part: string, rest: string)
    requires part == "shoulder" || part == "elbow" || part == "wrist"
    ensures Category([side] + part + rest) == "arm_joints"
  {
    var key := [side] + part + rest;
    assert key[1..1 + |part|] == part;
    ContainsAt(key, part, 1);
  }

  /** A gripper key is none of shoulder, elbow or wrist. */
  lemma GripperCategory(key: string)
    requires 's' !in key && 'b' !in key && 'w' !in key
    requires |key| == 8 && key[1..] == "gripper"
    ensures Category(key) == "grippers"
  {
    NotContains(key, "shoulder", 's');
    NotContains(key, "elbow", 'b');
    NotContains(key, "wrist", 'w');
    ContainsAt(key, "gripper", 1);
  }

  /** A velocity key is no arm joint and no gripper. */
  lemma VelocityCategory(prefix: string)
    requires 's' !in prefix && 'b' !in prefix && 'g' !in prefix
    ensures Category(prefix + "vel") == "velocity"
  {
    var key := prefix + "vel";
    NotContains(key, "shoulder", 's');
    NotContains(key, "elbow", 'b');
    NotContains(key, "wrist", 's');
    NotContains(key, "gripper", 'g');
    assert key[|prefix|..] == "vel";
    ContainsAt(key, "vel", |prefix|);
  }

  /** _parse_message: the key test, the mapping loop, then the plotting
      loop, each conversion able to raise. */
  method ParseMessage(message: Json, parse: FloatOfString) returns (r: Result<map<string, real>>)
    ensures r == ParseOf(message, parse)
  {
    if !message.JObj? {
      r := ParseOf(message, parse);
      return;
    }
    if "commands" !in message.fields {
      return Ok(map[]);
    }
    var c := message.fields["commands"];
    if !c.JObj? {
      return NonObjectCommands(c);
    }
    var commands := c.fields;
    var angles: map<string, real> := map[];
    for n := 0 to |JointMapping|
      invariant MapPrefix(commands, parse, n) == Ok(angles)
    {
      var (key, joint) := JointMapping[n];
      if key in commands {
        var v := FloatOf(commands[key], parse);
        if v.Err? {
          MapPrefixError(commands, parse, n, |JointMapping|);
          return Err(v.error);
        }
        angles := angles[joint := v.value];
      }
    }
    for n := 0 to |ColourKeys|
      invariant PlotCheck(commands, parse, n) == Ok(())
    {
      var key := ColourKeys[n];
      if key in commands {
        var v := FloatOf(commands[key], parse);
        if v.Err? {
          PlotCheckError(commands, parse, n, |ColourKeys|);
          return Err(v.error);
        }
      }
    }
    r := Ok(angles);
  }

  /** The first failing mapped command decides the error. */
  lemma {:induction false} MapPrefixError(commands: map<string, Json>, parse: FloatOfString, i: nat, n: nat)
    requires i < n <= |JointMapping|
    requires MapPrefix(commands, parse, i).Ok? && JointMapping[i].0 in commands
    requires FloatOf(commands[JointMapping[i].0], parse).Err?
    ensures MapPrefix(commands, parse, n) == Err(FloatOf(commands[JointMapping[i].0], parse).error)
  {
    if n > i + 1 {
      MapPrefixError(commands, parse, i, n - 1);
    }
  }

  /** The first failing plotted command decides the error. */
  lemma {:induction false} PlotCheckError(commands: map<string, Json>, parse: FloatOfString, i: nat, n: nat)
    requires i < n <= |ColourKeys|
    requires PlotCheck(commands, parse, i).Ok? && ColourKeys[i] in commands
    requires FloatOf(commands[ColourKeys[i]], parse).Err?
    ensures PlotCheck(commands, parse, n) == Err(FloatOf(commands[ColourKeys[i]], parse).error)
  {
    if n > i + 1 {
      PlotCheckError(commands, parse, i, n - 1);
    }
  }
}
