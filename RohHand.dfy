/** The one-shot command-line tool that sets one finger of one ROH hand: it
    opens the bus `can<canbus>`, builds the same 11-byte position frame as
    the two-hand driver and sends it in chunks of at most eight bytes. */
module RohHand {
  import opened Common
  import opened RohHands

  /** The parsed command line: --finger, --canbus and --position. */
  datatype Args = Args(finger: int, canbus: int, position: real)

  /** Finger 1 on can0 at 0 %. */
  const DefaultArgs: Args := Args(1, 0, 0.0)

  /** The messages the tool puts on the bus, or the error bytes() raises for
      a finger number outside a byte. */
  function ScriptMessages(args: Args): (r: Result<seq<CanMessage>>)
    ensures r.Ok? <==> 0 <= args.finger < 256
    ensures r.Err? ==> r.error == "ValueError"
    ensures r.Ok? ==> (
      && |r.value| == 2
      && r.value[0] == CanMessage(ArbitrationId, false, Frame(args.finger, args.position).value[..8])
      && r.value[1] == CanMessage(ArbitrationId, false, Frame(args.finger, args.position).value[8..]))
  {
    match Frame(args.finger, args.position)
    case Err(e) => Err(e)
    case Ok(f) =>
      FrameChunks(args.finger, args.position);
      Ok(ToMessages(Chunks(f)))
  }

  /** The script: the bus is opened first, so a bad finger number raises
      with the bus open and nothing sent on it. */
  method Run(args: Args) returns (bus: CanBus, r: Result<()>)
    ensures fresh(bus) && bus.channel == args.canbus
    ensures r.Err? <==> ScriptMessages(args).Err?
    ensures r.Err? ==> r.error == "ValueError" && bus.sent == []
    ensures r.Ok? ==> bus.sent == ScriptMessages(args).value
  {
    bus := new CanBus(args.canbus);
    var frame := EncodeFrame(args.finger, args.position);
    if frame.Err? {
      return bus, Err(frame.error);
    }
    SendFrame(bus, frame.value);
    r := Ok(());
  }

  /** With the defaults the tool opens finger 1 fully: target 0 and
      checksum 0xB5. */
  lemma DefaultFrame()
    ensures Frame(DefaultArgs.finger, DefaultArgs.position)
      == Ok([0x55, 0xAA, 0x02, 0x01, 0x4C, 0x04, 0x01, 0x00, 0x00, 0xFF, 0xB5])
  {
    var body := Body(1, 0.0);
    assert Scaled(0.0) == 0;
    assert body == [0x55, 0xAA, 0x02, 0x01, 0x4C, 0x04, 0x01, 0x00, 0x00, 0xFF];
    var t: seq<bv8> := [0x02, 0x01, 0x4C, 0x04, 0x01, 0x00, 0x00, 0xFF];
    assert body[2..] == t;
    assert Xor(t[..1]) == 0x02 by { assert t[..1][..0] == []; }
    assert Xor(t[..2]) == 0x03 by { assert t[..2][..1] == t[..1]; }
    assert Xor(t[..3]) == 0x4F by { assert t[..3][..2] == t[..2]; }
    assert Xor(t[..4]) == 0x4B by { assert t[..4][..3] == t[..3]; }
    assert Xor(t[..5]) == 0x4A by { assert t[..5][..4] == t[..4]; }
    assert Xor(t[..6]) == 0x4A by { assert t[..6][..5] == t[..5]; }
    assert Xor(t[..7]) == 0x4A by { assert t[..7][..6] == t[..6]; }
    assert Xor(t) == 0xB5 by { assert t[..7] == t[..|t| - 1]; }
    assert Frame(1, 0.0) == Ok(body + [Xor(body[2..])]);
    var expected: seq<bv8> := [0x55, 0xAA, 0x02, 0x01, 0x4C, 0x04, 0x01, 0x00, 0x00, 0xFF, 0xB5];
    assert body + [Xor(body[2..])] == expected;
  }

  /** The tool sends, for finger k, exactly the two messages the two-hand
      driver sends for position k of a hand. */
  lemma AgreesWithDriver(positions: seq<real>, k: nat, canbus: int)
    requires k < |positions| <= 256
    ensures ScriptMessages(Args(k, canbus, positions[k])).Ok?
    ensures |HandMessages(positions)| == 2 * |positions|
    ensures HandMessages(positions)[2 * k .. 2 * k + 2] == ScriptMessages(Args(k, canbus, positions[k])).value
  {
    HandMessagesAt(positions, k);
  }
}
