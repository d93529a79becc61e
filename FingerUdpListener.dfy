/** The robot-side finger listener: each datagram holds up to six finger
    closures per hand in [0, 1]; valid ones are scaled to percentages and
    sent to the ROH hands, right hand first. */
module FingerUdpListener {
  import opened Common
  import opened RohHands
  import FingerUdpServer

  const DefaultHost: string := "0.0.0.0"
  const DefaultPort: int := 10001

  /** What one non-blocking receive yields: nothing waiting, bytes that are
      not UTF-8, text that is not JSON, or a decoded JSON value. */
  datatype Received = NoData | BadUtf8 | BadJson | Parsed(payload: Json)

  /** The error lines the listener logs. */
  datatype LogEntry = InvalidShape | InvalidJson | ProcessingError

  /** float() of a string: the value, or None when it raises ValueError. */
  type FloatOfString = string -> Option<real>

  /** np.array(x, dtype=float32) as far as the listener cares: a flat vector
      of numbers, a flat vector holding NaN (from a null item), an array of
      another shape, or a value numpy refuses to convert. */
  datatype FloatArray = Vector(values: seq<real>) | HasNan(size: nat) | OtherShape | Unconvertible

  /** What process_packet does with one receive. */
  datatype Outcome = NoPacket | Logged(entry: LogEntry) | SendHands(right: seq<real>, left: seq<real>)

  /** A value that becomes a number: a number, a boolean, or a string that
      float() accepts. */
  predicate IsNumberLike(j: Json, parse: FloatOfString)
  {
    j.JNum? || j.JBool? || (j.JStr? && parse(j.s).Some?)
  }

  /** The number such a value becomes (a boolean as 1 or 0). */
  function NumberValue(j: Json, parse: FloatOfString): real
    requires IsNumberLike(j, parse)
  {
    match j
    case JNum(n) => n
    case JBool(b) => if b then 1.0 else 0.0
    case JStr(text) => parse(text).value
  }

  /** The shape numpy gives a value, or None when it raises: a scalar
      (null as NaN) has shape (), a list whose items all have one shape d
      has shape (n,) + d, and a dict, a string float() refuses or a ragged
      list cannot be converted. */
  function Dims(j: Json, parse: FloatOfString): (r: Option<seq<nat>>)
    ensures j.JArr? && r.Some? ==> |r.value| >= 1 && r.value[0] == |j.items|
    decreases j
  {
    match j
    case JNull => Some([])
    case JBool(_) => Some([])
    case JNum(_) => Some([])
    case JStr(text) => if parse(text).Some? then Some([]) else None
    case JObj(_) => None
    case JArr(items) =>
      if |items| == 0 then Some([0])
      else if forall i | 0 <= i < |items| :: Dims(items[i], parse).Some? && Dims(items[i], parse) == Dims(items[0], parse)
      then Some([|items|] + Dims(items[0], parse).value)
      else None
  }

  /** The array conversion: a list of numbers is a vector, a list holding a
      null among numbers a vector with NaN, a bare scalar a
      zero-dimensional array, a rectangular list of lists a
      higher-dimensional one. */
  function ToArray(j: Json, parse: FloatOfString): (r: FloatArray)
    ensures r.Unconvertible? <==> Dims(j, parse).None?
    ensures r.Vector? <==> j.JArr? && forall i | 0 <= i < |j.items| :: IsNumberLike(j.items[i], parse)
    ensures r.Vector? ==> (
      && |r.values| == |j.items|
      && forall i | 0 <= i < |j.items| :: r.values[i] == NumberValue(j.items[i], parse))
    ensures r.HasNan? ==> j.JArr? && r.size == |j.items| && exists i | 0 <= i < |j.items| :: j.items[i].JNull?
    ensures j.JObj? ==> r.Unconvertible?
    ensures j.JStr? ==> (r.Unconvertible? <==> parse(j.s).None?)
  {
    match j
    case JArr(items) =>
      if Dims(j, parse).None? then Unconvertible
      else if forall i | 0 <= i < |items| :: Dims(items[i], parse) == Some([]) then
        if forall i | 0 <= i < |items| :: !items[i].JNull? then
          Vector(seq(|items|, i requires 0 <= i < |items| => NumberValue(items[i], parse)))
        else HasNan(|items|)
      else OtherShape
    case JObj(_) => Unconvertible
    case JStr(text) => if parse(text).Some? then OtherShape else Unconvertible
    case _ => OtherShape
  }

  /** payload.get(key, [0] * 6) converted to an array. */
  function Field(fields: map<string, Json>, key: string, parse: FloatOfString): (r: FloatArray)
    ensures key !in fields ==> r.Vector? && |r.values| == 6 && forall i | 0 <= i < 6 :: r.values[i] == 0.0
    ensures key in fields && fields[key].JObj? ==> r.Unconvertible?
  {
    if key in fields then ToArray(fields[key], parse) else Vector(Zeros(6))
  }

  /** A vector of shape (6,). */
  predicate SixVector(a: FloatArray)
  {
    a.Vector? && |a.values| == 6
  }

  /** An array of shape (6,), NaN or not. */
  predicate SixShaped(a: FloatArray)
  {
    SixVector(a) || a == HasNan(6)
  }

  /** process_packet on one receive; the right array is converted before
      the left one, and a conversion error is reported before the shape. A
      NaN finger passes the shape test and then makes int() raise while the
      frames are built, which is logged as a processing error. */
  function Handle(rx: Received, parse: FloatOfString): (r: Outcome)
    ensures r.NoPacket? <==> rx.NoData?
    ensures r.SendHands? <==> (
      && rx.Parsed? && rx.payload.JObj?
      && SixVector(Field(rx.payload.fields, "right_fingers", parse))
      && SixVector(Field(rx.payload.fields, "left_fingers", parse)))
    ensures r.SendHands? ==> (
      && r.right == Field(rx.payload.fields, "right_fingers", parse).values
      && r.left == Field(rx.payload.fields, "left_fingers", parse).values)
    ensures rx.BadJson? ==> r == Logged(InvalidJson)
    ensures rx.BadUtf8? || (rx.Parsed? && !rx.payload.JObj?) ==> r == Logged(ProcessingError)
  {
    match rx
    case NoData => NoPacket
    case BadUtf8 => Logged(ProcessingError)
    case BadJson => Logged(InvalidJson)
    case Parsed(payload) =>
      if !payload.JObj? then Logged(ProcessingError)
      else
        var right := Field(payload.fields, "right_fingers", parse);
        if right.Unconvertible? then Logged(ProcessingError)
        else
          var left := Field(payload.fields, "left_fingers", parse);
          if left.Unconvertible? then Logged(ProcessingError)
          else if !SixShaped(right) || !SixShaped(left) then Logged(InvalidShape)
          else if right.HasNan? || left.HasNan? then Logged(ProcessingError)
          else SendHands(right.values, left.values)
  }

  /** fingers * 100: closures as percentages. */
  function Percent(xs: seq<real>): (r: seq<real>)
    ensures |r| == |xs|
    ensures forall i | 0 <= i < |xs| :: r[i] == 100.0 * xs[i]
  {
    seq(|xs|, i requires 0 <= i < |xs| => 100.0 * xs[i])
  }

  /** A datagram without finger keys drives both hands fully open. */
  lemma MissingKeysOpenHands(fields: map<string, Json>, parse: FloatOfString)
    requires "right_fingers" !in fields && "left_fingers" !in fields
    ensures Handle(Parsed(JObj(fields)), parse) == SendHands(Zeros(6), Zeros(6))
    ensures Percent(Zeros(6)) == Zeros(6)
  {
  }

  /** A list of other than six numbers is rejected and logged, nothing sent. */
  lemma WrongLengthRejected(fields: map<string, Json>, xs: seq<real>, parse: FloatOfString)
    requires |xs| != 6 && "left_fingers" !in fields
    ensures Handle(Parsed(JObj(fields["right_fingers" := FingerUdpServer.NumArray(xs)])), parse) == Logged(InvalidShape)
  {
    VectorOfNumArray(xs, parse);
  }

  /** Six strings that float() accepts drive the hands just as six numbers
      do: numpy converts them. */
  lemma NumericStringsDriveHands(texts: seq<string>, parse: FloatOfString)
    requires |texts| == 6 && forall i | 0 <= i < 6 :: parse(texts[i]).Some?
    ensures var items := seq(6, i requires 0 <= i < 6 => JStr(texts[i]));
      Handle(Parsed(JObj(map["right_fingers" := JArr(items)])), parse)
        == SendHands(seq(6, i requires 0 <= i < 6 => parse(texts[i]).value), Zeros(6))
  {
    var items := seq(6, i requires 0 <= i < 6 => JStr(texts[i]));
    assert forall i | 0 <= i < 6 :: IsNumberLike(items[i], parse);
    var a := ToArray(JArr(items), parse);
    assert a.values == seq(6, i requires 0 <= i < 6 => parse(texts[i]).value);
  }

  /** A list that mixes a number with a list is ragged: numpy refuses it,
      and the packet is logged as a processing error. */
  lemma RaggedListUnconvertible(x: real, inner: seq<Json>, parse: FloatOfString)
    ensures ToArray(JArr([JNum(x), JArr(inner)]), parse) == Unconvertible
    ensures Handle(Parsed(JObj(map["right_fingers" := JArr([JNum(x), JArr(inner)])])), parse) == Logged(ProcessingError)
  {
    var items := [JNum(x), JArr(inner)];
    assert Dims(items[0], parse) == Some([]);
    assert Dims(items[1], parse).Some? ==> |Dims(items[1], parse).value| >= 1;
  }

  /** A six-item list with a null converts to a NaN vector of shape (6,),
      which passes the shape test and then fails in the frame encoding. */
  lemma NullFingerIsProcessingError(xs: seq<real>, parse: FloatOfString)
    requires |xs| == 5
    ensures var items := [JNull] + seq(5, i requires 0 <= i < 5 => JNum(xs[i]));
      && ToArray(JArr(items), parse) == HasNan(6)
      && Handle(Parsed(JObj(map["right_fingers" := JArr(items)])), parse) == Logged(ProcessingError)
  {
    var items := [JNull] + seq(5, i requires 0 <= i < 5 => JNum(xs[i]));
    assert forall i | 0 <= i < 6 :: Dims(items[i], parse) == Some([]);
    assert items[0].JNull?;
  }

  /** What the finger sender puts in a datagram for two six-finger hands,
      the listener hands on as the clipped closures; as percentages they lie
      in [0, 100], so every 16-bit target is in range. */
  lemma SenderToListener(now: real, right: seq<real>, left: seq<real>, parse: FloatOfString)
    requires |right| == 6 && |left| == 6
    ensures var p := FingerUdpServer.PayloadOf(now, right, left);
      Handle(Parsed(FingerUdpServer.ToJson(p)), parse) == SendHands(p.rightFingers, p.leftFingers)
    ensures var p := FingerUdpServer.PayloadOf(now, right, left);
      && (forall i | 0 <= i < 6 :: 0 <= Scaled(Percent(p.rightFingers)[i]) <= 65535)
      && (forall i | 0 <= i < 6 :: 0 <= Scaled(Percent(p.leftFingers)[i]) <= 65535)
  {
    var p := FingerUdpServer.PayloadOf(now, right, left);
    var j := FingerUdpServer.ToJson(p);
    VectorOfNumArray(p.rightFingers, parse);
    VectorOfNumArray(p.leftFingers, parse);
    assert Field(j.fields, "right_fingers", parse) == Vector(p.rightFingers);
    assert Field(j.fields, "left_fingers", parse) == Vector(p.leftFingers);
  }

  /** A JSON list of numbers converts back to exactly those numbers. */
  lemma VectorOfNumArray(xs: seq<real>, parse: FloatOfString)
    ensures ToArray(FingerUdpServer.NumArray(xs), parse) == Vector(xs)
  {
    var a := FingerUdpServer.NumArray(xs);
    assert forall i | 0 <= i < |a.items| :: IsNumberLike(a.items[i], parse);
    assert ToArray(a, parse).values == xs;
  }

  class FingerUDPListener {
    const udpHost: string
    const udpPort: int
    const rohHands: ROHHands
    /** The error lines logged, oldest first. */
    var log: seq<LogEntry>

    predicate Valid()
      reads this
    {
      rohHands.leftBus != rohHands.rightBus
    }

    /** Binds the socket and opens the hands on their default buses. */
    constructor(host: string, port: int)
      ensures Valid() && udpHost == host && udpPort == port && log == []
      ensures fresh(rohHands) && fresh(rohHands.leftBus) && fresh(rohHands.rightBus)
      ensures rohHands.leftBus.channel == DefaultLeftCanbus && rohHands.rightBus.channel == DefaultRightCanbus
      ensures rohHands.leftBus.sent == [] && rohHands.rightBus.sent == []
    {
      udpHost := host;
      udpPort := port;
      rohHands := new ROHHands(DefaultLeftCanbus, DefaultRightCanbus);
      log := [];
    }

    /** process_packet: false only when nothing was waiting. A valid packet
        sends the right hand's frames, then the left hand's; anything else
        logs one line and sends nothing (frames a NaN finger would let
        through before int() raises are not modelled). */
    method ProcessPacket(rx: Received, parse: FloatOfString) returns (processed: bool)
      requires Valid()
      modifies this, rohHands.leftBus, rohHands.rightBus
      ensures Valid()
      ensures processed <==> !rx.NoData?
      ensures var o := Handle(rx, parse);
        && (o.SendHands? ==>
              && rohHands.rightBus.sent == old(rohHands.rightBus.sent) + HandMessages(Percent(o.right))
              && rohHands.leftBus.sent == old(rohHands.leftBus.sent) + HandMessages(Percent(o.left)))
        && (!o.SendHands? ==>
              rohHands.rightBus.sent == old(rohHands.rightBus.sent) && rohHands.leftBus.sent == old(rohHands.leftBus.sent))
        && log == old(log) + (if o.Logged? then [o.entry] else [])
    {
      var o := Handle(rx, parse);
      match o
      case NoPacket =>
        return false;
      case Logged(entry) =>
        log := log + [entry];
        return true;
      case SendHands(right, left) =>
        var r1 := rohHands.SetRightHandJoints(Percent(right));
        var r2 := rohHands.SetLeftHandJoints(Percent(left));
        assert Take(Percent(right), 256) == Percent(right);
        assert Take(Percent(left), 256) == Percent(left);
        return true;
    }
  }
}
