/** The stand-alone UDP viewer's message parser: a datagram carries either
    ready joint angles or a command array laid out as six base entries, the
    right arm and the left arm; entries 6 to 15 are shown on the ten arm
    joints of the robot model. */
module RerunSimulatedUdp {
  import opened Common

  const DefaultHost: string := "0.0.0.0"
  const DefaultPort: int := 10000

  /** The joints entries 6 to 15 drive: the right arm, then the left. */
  const JointNames: seq<string> := [
    "dof_right_shoulder_pitch_03", "dof_right_shoulder_roll_03", "dof_right_shoulder_yaw_02",
    "dof_right_elbow_02", "dof_right_wrist_00",
    "dof_left_shoulder_pitch_03", "dof_left_shoulder_roll_03", "dof_left_shoulder_yaw_02",
    "dof_left_elbow_02", "dof_left_wrist_00"]

  /** The first command index shown. */
  const FirstArmIndex: nat := 6

  /** The fewest commands that are shown. */
  const MinCommands: nat := 16

  /** float() of a numeric string, or None when Python refuses it. */
  type FloatOfString = string -> Option<real>

  /** What _parse_message returns: a "joint_angles" value passed on as it
      came, or joint angles by name ({} when the message is not shown). */
  datatype Parsed = Passed(value: Json) | Angles(angles: map<string, real>)

  /** float(x) of one command entry. */
  function FloatOf(j: Json, parse: FloatOfString): (r: Result<real>)
    ensures j.JNum? ==> r == Ok(j.n)
    ensures j.JNull? || j.JArr? || j.JObj? ==> r == Err("TypeError")
  {
    match j
    case JNum(n) => Ok(n)
    case JBool(b) => Ok(if b then 1.0 else 0.0)
    case JStr(s) => if parse(s).Some? then Ok(parse(s).value) else Err("ValueError")
    case _ => Err("TypeError")
  }

  /** float(commands[6 + i]): the value for arm joint i. */
  function Converted(items: seq<Json>, parse: FloatOfString, i: nat): Result<real>
    requires |items| >= MinCommands && i < |JointNames|
  {
    FloatOf(items[FirstArmIndex + i], parse)
  }

  /** The angles of the first n arm joints, or the first conversion error. */
  function FillPrefix(items: seq<Json>, parse: FloatOfString, n: nat): (r: Result<map<string, real>>)
    requires |items| >= MinCommands && n <= |JointNames|
    ensures r.Ok? <==> forall i | 0 <= i < n :: Converted(items, parse, i).Ok?
  {
    if n == 0 then Ok(map[])
    else
      var prev := FillPrefix(items, parse, n - 1);
      var v := Converted(items, parse, n - 1);
      if prev.Err? then prev
      else if v.Err? then Err(v.error)
      else Ok(prev.value[JointNames[n - 1] := v.value])
  }

  /** The angles of all ten arm joints. */
  function Fill(items: seq<Json>, parse: FloatOfString): Result<map<string, real>>
    requires |items| >= MinCommands
  {
    FillPrefix(items, parse, |JointNames|)
  }

  /** The entries of a "commands" value: a list's items, or a string's
      one-character strings. */
  function Entries(c: Json): seq<Json>
    requires c.JArr? || c.JStr?
  {
    if c.JArr? then c.items else seq(|c.s|, i requires 0 <= i < |c.s| => JStr([c.s[i]]))
  }

  /** The array branch: a null value is caught by the `commands is None`
      test and shows nothing; fewer than sixteen entries show nothing; an
      object of sixteen or more keys fails on commands[6]; a number or a
      boolean has no length and raises TypeError. */
  function FromCommands(c: Json, parse: FloatOfString): Result<Parsed>
  {
    match c
    case JNull => Ok(Angles(map[]))
    case JObj(m) => if |m| < MinCommands then Ok(Angles(map[])) else Err("KeyError")
    case JArr(_) =>
      if |Entries(c)| < MinCommands then Ok(Angles(map[]))
      else (var f := Fill(Entries(c), parse); if f.Ok? then Ok(Angles(f.value)) else Err(f.error))
    case JStr(_) =>
      if |Entries(c)| < MinCommands then Ok(Angles(map[]))
      else (var f := Fill(Entries(c), parse); if f.Ok? then Ok(Angles(f.value)) else Err(f.error))
    case _ => Err("TypeError")
  }

  /** _parse_message on a decoded datagram. The `in` tests are Python's: a
      key test on an object, an element test on a list, a substring test on
      a string; indexing a list or string by a name raises TypeError. */
  function ParseOf(message: Json, parse: FloatOfString): (r: Result<Parsed>)
    ensures message.JObj? && "joint_angles" in message.fields ==> r == Ok(Passed(message.fields["joint_angles"]))
    ensures message.JObj? && "joint_angles" !in message.fields && "commands" !in message.fields ==> r == Ok(Angles(map[]))
    ensures message.JNum? || message.JBool? || message.JNull? ==> r == Err("TypeError")
    ensures message.JArr? && JStr("joint_angles") !in message.items && |message.items| < MinCommands
      ==> r == Ok(Angles(map[]))
    ensures message.JObj? && "joint_angles" !in message.fields && "commands" in message.fields
      && message.fields["commands"].JArr? && |message.fields["commands"].items| < MinCommands
      ==> r == Ok(Angles(map[]))
    ensures message.JObj? && "joint_angles" !in message.fields && "commands" in message.fields
      && message.fields["commands"].JNull?
      ==> r == Ok(Angles(map[]))
    ensures message.JObj? && "joint_angles" !in message.fields && "commands" in message.fields
      && (message.fields["commands"].JNum? || message.fields["commands"].JBool?)
      ==> r == Err("TypeError")
  {
    match message
    case JObj(fields) =>
      if "joint_angles" in fields then Ok(Passed(fields["joint_angles"]))
      else if "commands" in fields then FromCommands(fields["commands"], parse)
      else Ok(Angles(map[]))
    case JArr(items) =>
      if JStr("joint_angles") in items then Err("TypeError")
      else FromCommands(message, parse)
    case JStr(s) =>
      if Contains(s, "joint_angles") || Contains(s, "commands") then Err("TypeError")
      else Ok(Angles(map[]))
    case _ => Err("TypeError")
  }

  /** The characters that tell the right-arm names apart. */
  lemma RightNameChars()
    ensures JointNames[0][4] == 'r' && JointNames[1][4] == 'r' && JointNames[2][4] == 'r'
    ensures JointNames[3][4] == 'r' && JointNames[4][4] == 'r'
    ensures JointNames[0][10] == 's' && JointNames[1][10] == 's' && JointNames[2][10] == 's'
    ensures JointNames[3][10] == 'e' && JointNames[4][10] == 'w'
    ensures JointNames[0][19] == 'p' && JointNames[1][19] == 'r' && JointNames[2][19] == 'y'
  {
  }

  /** The characters that tell the left-arm names apart. */
  lemma LeftNameChars()
    ensures JointNames[5][4] == 'l' && JointNames[6][4] == 'l' && JointNames[7][4] == 'l'
    ensures JointNames[8][4] == 'l' && JointNames[9][4] == 'l'
    ensures JointNames[5][9] == 's' && JointNames[6][9] == 's' && JointNames[7][9] == 's'
    ensures JointNames[8][9] == 'e' && JointNames[9][9] == 'w'
    ensures JointNames[5][18] == 'p' && JointNames[6][18] == 'r' && JointNames[7][18] == 'y'
  {
  }

  /** The ten names are distinct. */
  lemma JointNamesDistinct()
    ensures forall i, j | 0 <= i < j < |JointNames| :: JointNames[i] != JointNames[j]
  {
    RightNameChars();
    LeftNameChars();
  }

  /** The first n names get the converted entries 6 to 5 + n, and no other
      key is present. */
  lemma {:induction false} FillPrefixValues(items: seq<Json>, parse: FloatOfString, n: nat)
    requires |items| >= MinCommands && n <= |JointNames|
    requires FillPrefix(items, parse, n).Ok?
    ensures FillPrefix(items, parse, n).value.Keys == set i | 0 <= i < n :: JointNames[i]
    ensures forall i | 0 <= i < n :: FillPrefix(items, parse, n).value[JointNames[i]] == Converted(items, parse, i).value
  {
    if n > 0 {
      FillPrefixValues(items, parse, n - 1);
      var prev := FillPrefix(items, parse, n - 1).value;
      var v := Converted(items, parse, n - 1).value;
      assert FillPrefix(items, parse, n).value == prev[JointNames[n - 1] := v];
      forall i | 0 <= i < n - 1
        ensures JointNames[i] != JointNames[n - 1]
      {
        LastNameNew(i, n - 1);
      }
      UpdateStep(JointNames, n, prev, v);
    }
  }

  /** Adding the n-th name, new among the first n - 1, to a map keyed by
      those names gives a map keyed by the first n names and changes no
      earlier entry. */
  lemma UpdateStep(names: seq<string>, n: nat, prev: map<string, real>, v: real)
    requires 0 < n <= |names|
    requires forall i | 0 <= i < n - 1 :: names[i] != names[n - 1]
    requires prev.Keys == set i | 0 <= i < n - 1 :: names[i]
    ensures prev[names[n - 1] := v].Keys == set i | 0 <= i < n :: names[i]
    ensures forall i | 0 <= i < n - 1 :: prev[names[n - 1] := v][names[i]] == prev[names[i]]
  {
    assert (set i | 0 <= i < n :: names[i]) == (set i | 0 <= i < n - 1 :: names[i]) + {names[n - 1]};
  }

  /** A name is not repeated later in the list. */
  lemma LastNameNew(i: nat, j: nat)
    requires i < j < |JointNames|
    ensures JointNames[i] != JointNames[j]
  {
    JointNamesDistinct();
  }

  /** With sixteen or more list entries that all convert, the result has
      exactly the ten arm joints, joint i taking float(commands[6 + i]). */
  lemma ArrayMessageShown(items: seq<Json>, parse: FloatOfString)
    requires |items| >= MinCommands
    requires JStr("joint_angles") !in items
    requires forall i | 0 <= i < |JointNames| :: Converted(items, parse, i).Ok?
    ensures ParseOf(JArr(items), parse).Ok? && ParseOf(JArr(items), parse).value.Angles?
    ensures var a := ParseOf(JArr(items), parse).value.angles;
      && a.Keys == (set i | 0 <= i < |JointNames| :: JointNames[i])
      && (forall i | 0 <= i < |JointNames| :: a[JointNames[i]] == Converted(items, parse, i).value)
  {
    FillPrefixValues(items, parse, |JointNames|);
  }

  /** The first entry that does not convert decides the error. */
  lemma {:induction false} FillPrefixError(items: seq<Json>, parse: FloatOfString, i: nat, n: nat)
    requires |items| >= MinCommands && i < n <= |JointNames|
    requires FillPrefix(items, parse, i).Ok? && Converted(items, parse, i).Err?
    ensures FillPrefix(items, parse, n) == Err(Converted(items, parse, i).error)
  {
    if n > i + 1 {
      FillPrefixError(items, parse, i, n - 1);
    }
  }

  /** Only entries 6 to 15 matter: the six base entries and anything after
      entry 15 can change without changing the result. */
  lemma {:induction false} OnlyArmEntriesMatter(items: seq<Json>, other: seq<Json>, parse: FloatOfString, n: nat)
    requires |items| >= MinCommands && |other| >= MinCommands && n <= |JointNames|
    requires forall i | FirstArmIndex <= i < MinCommands :: items[i] == other[i]
    ensures FillPrefix(items, parse, n) == FillPrefix(other, parse, n)
  {
    if n > 0 {
      OnlyArmEntriesMatter(items, other, parse, n - 1);
    }
  }

  /** _parse_message: the guards, then the loop over the ten names. */
  method ParseMessage(message: Json, parse: FloatOfString) returns (r: Result<Parsed>)
    ensures r == ParseOf(message, parse)
  {
    if message.JObj? && "joint_angles" in message.fields {
      return Ok(Passed(message.fields["joint_angles"]));
    }
    if message.JArr? && JStr("joint_angles") in message.items {
      return Err("TypeError");
    }
    if message.JStr? && Contains(message.s, "joint_angles") {
      return Err("TypeError");
    }
    var commands: Option<Json> := None;
    if message.JArr? {
      commands := Some(message);
    } else if message.JObj? && "commands" in message.fields {
      commands := Some(message.fields["commands"]);
    } else if message.JStr? && Contains(message.s, "commands") {
      return Err("TypeError");
    } else if !message.JObj? && !message.JStr? {
      return Err("TypeError");
    }
    if commands.None? || commands.value.JNull? {
      return Ok(Angles(map[]));
    }
    var c := commands.value;
    if c.JObj? {
      if |c.fields| < MinCommands {
        return Ok(Angles(map[]));
      }
      return Err("KeyError");
    }
    if !c.JArr? && !c.JStr? {
      return Err("TypeError");
    }
    var entries := Entries(c);
    if |entries| < MinCommands {
      return Ok(Angles(map[]));
    }
    var angles: map<string, real> := map[];
    for i := 0 to |JointNames|
      invariant FillPrefix(entries, parse, i) == Ok(angles)
    {
      var index := FirstArmIndex + i;
      if index < |entries| {
        var v := FloatOf(entries[index], parse);
        if v.Err? {
          FillPrefixError(entries, parse, i, |JointNames|);
          return Err(v.error);
        }
        angles := angles[JointNames[i] := v.value];
      }
    }
    r := Ok(Angles(angles));
  }
}
