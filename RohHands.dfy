/** The ROH hand position command on CAN: an 11-byte frame
    `55 AA 02 01 4C 04 finger lo hi FF crc`, where crc is the XOR of bytes
    2-9, sent as consecutive chunks of at most eight bytes (the classic CAN
    data field of ISO 11898-1) with arbitration id 0x02 and a standard id. */
module RohHands {
  import opened Common

  /** Sync bytes, hand id, master id, the set-position command and the data length. */
  const Header: seq<bv8> := [0x55, 0xAA, 0x02, 0x01, 0x4C, 0x04]

  /** The arbitration id every chunk carries. */
  const ArbitrationId: int := 0x02

  /** The largest CAN data field. */
  const MaxChunk: nat := 8

  /** A position percentage as the 16-bit target: int((p / 100) * 65535). */
  function Scaled(position: real): (r: int)
    ensures 0.0 <= position <= 100.0 ==> 0 <= r <= 65535
  {
    var x := position / 100.0 * 65535.0;
    assert 0.0 <= position <= 100.0 ==> 0.0 <= x <= 65535.0 by {
      if 0.0 <= position <= 100.0 {
        assert position / 100.0 <= 1.0;
      }
    }
    Trunc(x)
  }

  /** 0 % is fully open (0) and 100 % the full 16-bit range (65535). */
  lemma ScaledEnds()
    ensures Scaled(0.0) == 0 && Scaled(100.0) == 65535
  {
  }

  /** The byte whose value is m, as bytes() stores a Python int in 0..255. */
  function ByteOf(m: nat): bv8
    requires m < 256
  {
    if m == 0 then 0 else ByteOf(m - 1) + 1
  }

  /** A byte below 0xFF steps up by one without wrapping. */
  lemma ByteSuccessor(b: bv8)
    requires b as int < 255
    ensures (b + 1) as int == b as int + 1
  {
  }

  /** The byte of value m reads back as m. */
  lemma {:induction false} ByteOfValue(m: nat)
    requires m < 256
    ensures ByteOf(m) as int == m
  {
    if m > 0 {
      ByteOfValue(m - 1);
      ByteSuccessor(ByteOf(m - 1));
    }
  }

  /** n & 0xFF, for any Python int (negative ones in two's complement). */
  function LowByte(n: int): bv8
  {
    ByteOf(n % 256)
  }

  /** (n >> 8) & 0xFF; the shift floors, as Python's does. */
  function HighByte(n: int): bv8
  {
    ByteOf((n / 256) % 256)
  }

  lemma ByteArithmetic(n: int)
    ensures n % 256 + 256 * ((n / 256) % 256) == n % 65536
  {
    var lo := n % 256;
    var q := n / 256;
    var hi := q % 256;
    var q2 := q / 256;
    assert n == 256 * q + lo;
    assert q == 256 * q2 + hi;
    assert n == 65536 * q2 + (256 * hi + lo);
    assert 0 <= 256 * hi + lo < 65536;
  }

  /** The two bytes hold the target modulo 2^16, low byte first. */
  lemma BytesRecombine(n: int)
    ensures LowByte(n) as int + 256 * HighByte(n) as int == n % 65536
  {
    LowByteValue(n);
    LowByteValue(n / 256);
    ByteArithmetic(n);
  }

  lemma LowByteValue(n: int)
    ensures LowByte(n) as int == n % 256 && HighByte(n) == LowByte(n / 256)
  {
    ByteOfValue(n % 256);
  }

  /** XOR of a byte string, folded from the left as the encoder does. */
  function Xor(s: seq<bv8>): bv8
  {
    if s == [] then 0 else Xor(s[..|s| - 1]) ^ s[|s| - 1]
  }

  /** Appending the XOR of a string makes the XOR of the whole string zero. */
  lemma XorAppendItself(s: seq<bv8>)
    ensures Xor(s + [Xor(s)]) == 0
  {
    assert (s + [Xor(s)])[..|s|] == s;
  }

  /** The frame before its checksum. */
  function Body(finger: int, position: real): (r: seq<bv8>)
    requires 0 <= finger < 256
    ensures |r| == 10
  {
    var s := Scaled(position);
    Header + [ByteOf(finger), LowByte(s), HighByte(s), 0xFF]
  }

  /** The frame for one finger. A finger number outside a byte makes bytes()
      raise ValueError. */
  function Frame(finger: int, position: real): (r: Result<seq<bv8>>)
    ensures r.Ok? <==> 0 <= finger < 256
    ensures r.Err? ==> r.error == "ValueError"
    ensures r.Ok? ==> |r.value| == 11
  {
    if !(0 <= finger < 256) then Err("ValueError")
    else
      var body := Body(finger, position);
      Ok(body + [Xor(body[2..])])
  }

  /** The frame's fields: header, finger, the 16-bit target split low byte
      first, the 0xFF pad, and a checksum that makes bytes 2-10 XOR to zero. */
  lemma FrameLayout(finger: int, position: real)
    requires 0 <= finger < 256
    ensures var f := Frame(finger, position).value;
      && f[..6] == Header && f[6] as int == finger && f[9] == 0xFF
      && f[7] as int + 256 * f[8] as int == Scaled(position) % 65536
      && Xor(f[2..]) == 0
  {
    var body := Body(finger, position);
    var f := Frame(finger, position).value;
    assert f == body + [Xor(body[2..])];
    BytesRecombine(Scaled(position));
    XorAppendItself(body[2..]);
    assert f[2..] == body[2..] + [Xor(body[2..])];
    assert f[..6] == Header;
    assert f[6] == ByteOf(finger) by {
      assert f[6] == body[6];
    }
    ByteOfValue(finger);
  }

  /** The chunks data[8k : 8k+8], in order. */
  function Chunks(m: seq<bv8>): (r: seq<seq<bv8>>)
    ensures |r| == (|m| + MaxChunk - 1) / MaxChunk
    ensures forall k | 0 <= k < |r| :: 0 < |r[k]| <= MaxChunk && r[k] <= m[MaxChunk * k..]
  {
    seq((|m| + MaxChunk - 1) / MaxChunk, k requires 0 <= k < (|m| + MaxChunk - 1) / MaxChunk =>
      m[8 * k .. if 8 * k + 8 <= |m| then 8 * k + 8 else |m|])
  }

  function Flatten(ss: seq<seq<bv8>>): seq<bv8>
  {
    if ss == [] then [] else Flatten(ss[..|ss| - 1]) + ss[|ss| - 1]
  }

  /** The first k chunks cover the first 8k bytes. */
  lemma {:induction false} ChunksPrefix(m: seq<bv8>, k: nat)
    requires k <= |Chunks(m)|
    ensures Flatten(Chunks(m)[..k]) == m[..if 8 * k <= |m| then 8 * k else |m|]
  {
    if k > 0 {
      ChunksPrefix(m, k - 1);
      assert Chunks(m)[..k][..k - 1] == Chunks(m)[..k - 1];
    }
  }

  /** The chunks are non-empty, at most eight bytes each, and reassemble the
      message exactly; an 11-byte frame splits 8 + 3. */
  lemma ChunksCover(m: seq<bv8>)
    ensures Flatten(Chunks(m)) == m
    ensures forall k | 0 <= k < |Chunks(m)| :: 0 < |Chunks(m)[k]| <= MaxChunk
    ensures |m| == 11 ==> Chunks(m) == [m[..8], m[8..]]
  {
    ChunksPrefix(m, |Chunks(m)|);
    assert Chunks(m)[..|Chunks(m)|] == Chunks(m);
  }

  datatype CanMessage = CanMessage(arbitrationId: int, isExtendedId: bool, data: seq<bv8>)

  function ToMessages(chunks: seq<seq<bv8>>): (r: seq<CanMessage>)
  {
    seq(|chunks|, k requires 0 <= k < |chunks| => CanMessage(ArbitrationId, false, chunks[k]))
  }

  /** A CAN bus: the messages sent on it, oldest first. */
  class CanBus {
    const channel: int
    var sent: seq<CanMessage>

    constructor(channel: int)
      ensures this.channel == channel && sent == []
    {
      this.channel := channel;
      sent := [];
    }

    method Send(msg: CanMessage)
      modifies this
      ensures sent == old(sent) + [msg]
    {
      sent := sent + [msg];
    }
  }

  /** The checksum loop: XOR of every byte after the two sync bytes. */
  method Checksum(msg: seq<bv8>) returns (crc: bv8)
    requires |msg| >= 2
    ensures crc == Xor(msg[2..])
  {
    var tail := msg[2..];
    crc := 0;
    var i := 0;
    while i < |tail|
      invariant 0 <= i <= |tail|
      invariant crc == Xor(tail[..i])
    {
      assert tail[..i + 1][..i] == tail[..i];
      crc := crc ^ tail[i];
      i := i + 1;
    }
    assert tail[..i] == tail;
  }

  /** Builds the frame as the encoder does: header, data, then checksum. */
  method EncodeFrame(finger: int, position: real) returns (r: Result<seq<bv8>>)
    ensures r == Frame(finger, position)
  {
    if !(0 <= finger < 256) {
      return Err("ValueError");
    }
    var scaled := Scaled(position);
    var data: seq<bv8> := [ByteOf(finger), LowByte(scaled), HighByte(scaled), 255];
    var msg := Header + data;
    var crc := Checksum(msg);
    r := Ok(msg + [crc]);
  }

  /** Sends a frame as consecutive chunks of at most eight bytes. */
  method SendFrame(bus: CanBus, frame: seq<bv8>)
    modifies bus
    ensures bus.sent == old(bus.sent) + ToMessages(Chunks(frame))
  {
    var i := 0;
    ghost var k := 0;
    while i < |frame|
      invariant i == 8 * k && k <= |Chunks(frame)|
      invariant i < |frame| ==> k < |Chunks(frame)|
      invariant i >= |frame| ==> k == |Chunks(frame)|
      invariant bus.sent == old(bus.sent) + ToMessages(Chunks(frame)[..k])
    {
      var chunk := if i + 8 <= |frame| then frame[i..i + 8] else frame[i..];
      assert chunk == Chunks(frame)[k];
      assert Chunks(frame)[..k + 1] == Chunks(frame)[..k] + [chunk];
      bus.Send(CanMessage(0x02, false, chunk));
      i := i + 8;
      k := k + 1;
    }
    assert Chunks(frame)[..k] == Chunks(frame);
  }

  /** The frames for the first n positions, finger numbers counting from 0. */
  function FramesFor(positions: seq<real>, n: nat): (r: seq<seq<bv8>>)
    requires n <= |positions| && n <= 256
    ensures |r| == n
    ensures forall i | 0 <= i < n :: r[i] == Frame(i, positions[i]).value
  {
    seq(n, i requires 0 <= i < n => Frame(i, positions[i]).value)
  }

  /** The messages that carry a sequence of frames, each in its chunks. */
  function Sends(frames: seq<seq<bv8>>): (r: seq<CanMessage>)
    ensures forall i | 0 <= i < |r| :: r[i].arbitrationId == ArbitrationId && !r[i].isExtendedId
    ensures forall i | 0 <= i < |r| :: 0 < |r[i].data| <= MaxChunk
  {
    if frames == [] then []
    else Sends(frames[..|frames| - 1]) + ToMessages(Chunks(frames[|frames| - 1]))
  }

  /** The messages for every position. */
  function HandMessages(positions: seq<real>): seq<CanMessage>
    requires |positions| <= 256
  {
    Sends(FramesFor(positions, |positions|))
  }

  /** An 11-byte frame goes out as two messages. */
  lemma FrameChunks(finger: int, position: real)
    requires 0 <= finger < 256
    ensures var f := Frame(finger, position).value;
      Chunks(f) == [f[..8], f[8..]]
  {
    ChunksCover(Frame(finger, position).value);
  }

  /** One more frame adds its messages at the end. */
  lemma SendsSnoc(frames: seq<seq<bv8>>, frame: seq<bv8>)
    ensures Sends(frames + [frame]) == Sends(frames) + ToMessages(Chunks(frame))
  {
    assert (frames + [frame])[..|frames|] == frames;
  }

  /** The messages for n + 1 positions extend those for n by the messages
      of frame n. */
  lemma SendsStep(positions: seq<real>, n: nat)
    requires n < |positions| && n < 256
    ensures Sends(FramesFor(positions, n + 1)) == Sends(FramesFor(positions, n)) + ToMessages(Chunks(Frame(n, positions[n]).value))
  {
    assert FramesFor(positions, n + 1) == FramesFor(positions, n) + [Frame(n, positions[n]).value];
    SendsSnoc(FramesFor(positions, n), Frame(n, positions[n]).value);
  }

  /** Once every position or the first 256 are done, the messages sent are
      those for the positions the finger byte can number. */
  lemma FramesForTake(positions: seq<real>, n: nat)
    requires n <= |positions| && n <= 256
    requires n == |positions| || n == 256
    ensures HandMessages(Take(positions, 256)) == Sends(FramesFor(positions, n))
  {
    var t := Take(positions, 256);
    assert |t| == n;
    assert FramesFor(t, n) == FramesFor(positions, n);
  }

  /** Frames of eleven bytes go out two messages each: frame k as messages
      2k (its first eight bytes) and 2k + 1 (its last three). */
  lemma {:induction false} SendsAt(frames: seq<seq<bv8>>)
    requires forall i | 0 <= i < |frames| :: |frames[i]| == 11
    ensures |Sends(frames)| == 2 * |frames|
    ensures forall k | 0 <= k < |frames| ::
      && Sends(frames)[2 * k] == CanMessage(ArbitrationId, false, frames[k][..8])
      && Sends(frames)[2 * k + 1] == CanMessage(ArbitrationId, false, frames[k][8..])
  {
    if frames != [] {
      var n := |frames| - 1;
      var prev := frames[..n];
      var f := frames[n];
      SendsAt(prev);
      ChunksCover(f);
      var last := [CanMessage(ArbitrationId, false, f[..8]), CanMessage(ArbitrationId, false, f[8..])];
      assert ToMessages(Chunks(f)) == last;
      assert Sends(frames) == Sends(prev) + last;
      forall k | 0 <= k < n
        ensures Sends(frames)[2 * k] == CanMessage(ArbitrationId, false, frames[k][..8])
        ensures Sends(frames)[2 * k + 1] == CanMessage(ArbitrationId, false, frames[k][8..])
      {
        assert prev[k] == frames[k];
      }
    }
  }

  lemma HandMessagesLength(positions: seq<real>)
    requires |positions| <= 256
    ensures |HandMessages(positions)| == 2 * |positions|
  {
    SendsAt(FramesFor(positions, |positions|));
  }

  /** Position k's frame is messages 2k (its first eight bytes) and 2k + 1
      (its last three). */
  lemma HandMessagesAt(positions: seq<real>, k: nat)
    requires k < |positions| <= 256
    ensures |HandMessages(positions)| == 2 * |positions|
    ensures HandMessages(positions)[2 * k] == CanMessage(ArbitrationId, false, Frame(k, positions[k]).value[..8])
    ensures HandMessages(positions)[2 * k + 1] == CanMessage(ArbitrationId, false, Frame(k, positions[k]).value[8..])
  {
    SendsAt(FramesFor(positions, |positions|));
  }

  /** One frame per position in index order, each as two standard-id
      messages with arbitration id 0x02, and the finger byte of frame k is k. */
  lemma HandMessagesLayout(positions: seq<real>)
    requires |positions| <= 256
    ensures |HandMessages(positions)| == 2 * |positions|
    ensures forall k | 0 <= k < |positions| ::
      && HandMessages(positions)[2 * k] == CanMessage(ArbitrationId, false, Frame(k, positions[k]).value[..8])
      && HandMessages(positions)[2 * k + 1] == CanMessage(ArbitrationId, false, Frame(k, positions[k]).value[8..])
      && HandMessages(positions)[2 * k].data[6] as int == k
  {
    HandMessagesLength(positions);
    forall k | 0 <= k < |positions|
      ensures HandMessages(positions)[2 * k] == CanMessage(ArbitrationId, false, Frame(k, positions[k]).value[..8])
      ensures HandMessages(positions)[2 * k + 1] == CanMessage(ArbitrationId, false, Frame(k, positions[k]).value[8..])
      ensures HandMessages(positions)[2 * k].data[6] as int == k
    {
      HandMessagesAt(positions, k);
      FrameLayout(k, positions[k]);
    }
  }

  /** Default bus numbers: can3 for the left hand, can2 for the right. */
  const DefaultLeftCanbus: int := 3
  const DefaultRightCanbus: int := 2

  class ROHHands {
    const leftBus: CanBus
    const rightBus: CanBus

    constructor(leftCanbus: int, rightCanbus: int)
      ensures leftBus.channel == leftCanbus && rightBus.channel == rightCanbus
      ensures leftBus.sent == [] && rightBus.sent == []
      ensures fresh(leftBus) && fresh(rightBus) && leftBus != rightBus
    {
      leftBus := new CanBus(leftCanbus);
      rightBus := new CanBus(rightCanbus);
    }

    /** _set_hand_joints: one frame per position, in order; a 257th position
        raises ValueError after the first 256 frames have gone out. */
    static method SetHandJoints(bus: CanBus, positions: seq<real>) returns (r: Result<()>)
      modifies bus
      ensures r.Err? <==> |positions| > 256
      ensures r.Err? ==> r.error == "ValueError"
      ensures bus.sent == old(bus.sent) + HandMessages(Take(positions, 256))
    {
      var finger := 0;
      while finger < |positions|
        invariant 0 <= finger <= |positions| && finger <= 256
        invariant bus.sent == old(bus.sent) + Sends(FramesFor(positions, finger))
      {
        r := SendPosition(bus, finger, positions[finger]);
        if r.Err? {
          FramesForTake(positions, finger);
          return;
        }
        SendsStep(positions, finger);
        finger := finger + 1;
      }
      FramesForTake(positions, finger);
      r := Ok(());
    }

    /** One iteration of _set_hand_joints: the frame for one finger goes
        out, or bytes() raises for finger 256 and nothing is sent. */
    static method SendPosition(bus: CanBus, finger: nat, position: real) returns (r: Result<()>)
      requires finger <= 256
      modifies bus
      ensures r.Err? <==> finger == 256
      ensures r.Err? ==> r.error == "ValueError" && bus.sent == old(bus.sent)
      ensures r.Ok? ==> bus.sent == old(bus.sent) + ToMessages(Chunks(Frame(finger, position).value))
    {
      var frame := EncodeFrame(finger, position);
      if frame.Err? {
        return Err(frame.error);
      }
      SendFrame(bus, frame.value);
      r := Ok(());
    }

    /** Left positions go to the left bus only. */
    method SetLeftHandJoints(positions: seq<real>) returns (r: Result<()>)
      requires leftBus != rightBus
      modifies leftBus
      ensures r.Err? <==> |positions| > 256
      ensures leftBus.sent == old(leftBus.sent) + HandMessages(Take(positions, 256))
      ensures rightBus.sent == old(rightBus.sent)
    {
      r := SetHandJoints(leftBus, positions);
    }

    /** Right positions go to the right bus only. */
    method SetRightHandJoints(positions: seq<real>) returns (r: Result<()>)
      requires leftBus != rightBus
      modifies rightBus
      ensures r.Err? <==> |positions| > 256
      ensures rightBus.sent == old(rightBus.sent) + HandMessages(Take(positions, 256))
      ensures leftBus.sent == old(leftBus.sent)
    {
      r := SetHandJoints(rightBus, positions);
    }
  }
}
