/** The browser scene's shared state and the hand-mesh colouring: the
    distance the server reports for a hand becomes a green-to-red colour,
    and a mesh is recoloured only when that colour changes. */
module ThreeScene {
  import opened Common

  /** A loaded robot model: the angle of each joint it has, by name. */
  class Robot {
    var joints: map<string, real>

    constructor(joints: map<string, real>)
      ensures this.joints == joints
    {
      this.joints := joints;
    }
  }

  /** A hand mesh: whether its material is a Lambert material, and the
      colour that material shows. */
  class Mesh {
    const lambert: bool
    var colour: int

    constructor(lambert: bool, colour: int)
      ensures this.lambert == lambert && this.colour == colour
    {
      this.lambert := lambert;
      this.colour := colour;
    }
  }

  /** The mutable scene state the render loop, the controller handler and
      the robot view share. */
  class SceneState {
    var robot: Robot?
    var pauseCommands: bool
    var joystickScale: real
    var previousButtonStates: map<string, bool>
    var lastLeftColorRef: int
    var lastRightColorRef: int

    /** DEFAULT_SCENE_STATE: no robot, commands paused, no button seen, no
        colour applied yet. */
    constructor()
      ensures robot == null && pauseCommands
      ensures joystickScale == 0.1
      ensures previousButtonStates == map[]
      ensures lastLeftColorRef == -1 && lastRightColorRef == -1
    {
      robot := null;
      pauseCommands := true;
      joystickScale := 0.1;
      previousButtonStates := map[];
      lastLeftColorRef := -1;
      lastRightColorRef := -1;
    }
  }

  /** The distance at and beyond which a hand is shown fully red. */
  const RedDistance: real := 0.2

  /** The distance clamped to [0, 0.2] and scaled to [0, 1]. */
  function Scaled(distance: real): (r: real)
    ensures 0.0 <= r <= 1.0
    ensures distance <= 0.0 ==> r == 0.0
    ensures distance >= RedDistance ==> r == 1.0
  {
    Clip(distance, 0.0, RedDistance) / RedDistance
  }

  /** Math.floor of a channel intensity in [0, 255]. */
  function Channel(x: real): (r: int)
    requires 0.0 <= x <= 255.0
    ensures 0 <= r <= 255
    ensures r as real <= x < r as real + 1.0
  {
    x.Floor
  }

  function Red(distance: real): int
  {
    Channel(Scaled(distance) * 255.0)
  }

  function Green(distance: real): int
  {
    Channel((1.0 - Scaled(distance)) * 255.0)
  }

  /** 2^n. */
  function Pow2(n: nat): (r: nat)
    ensures r >= 1
  {
    if n == 0 then 1 else 2 * Pow2(n - 1)
  }

  /** JavaScript's x << n for a result below 2^31, where the 32-bit signed
      conversion neither wraps nor changes sign; the bytes shifted here stay
      below 2^24. */
  function ShiftLeft(x: nat, n: nat): nat
  {
    x * Pow2(n)
  }

  /** JavaScript's a | b on non-negative 32-bit values, bit by bit from the
      lowest. */
  function BitOr(a: nat, b: nat): nat
    decreases a + b
  {
    if a == 0 then b
    else if b == 0 then a
    else 2 * BitOr(a / 2, b / 2) + (if a % 2 == 1 || b % 2 == 1 then 1 else 0)
  }

  /** getDistanceColor: (red << 16) | (green << 8) | 0. */
  function DistanceColour(distance: real): int
  {
    BitOr(BitOr(ShiftLeft(Red(distance), 16), ShiftLeft(Green(distance), 8)), 0)
  }

  lemma OrTwice(x: nat, y: nat)
    ensures BitOr(2 * x, 2 * y) == 2 * BitOr(x, y)
  {
    if x != 0 && y != 0 {
      assert (2 * x) / 2 == x && (2 * x) % 2 == 0;
      assert (2 * y) / 2 == y && (2 * y) % 2 == 0;
    }
  }

  lemma PowStep(a: nat, n: nat)
    requires n > 0
    ensures a * Pow2(n) == 2 * (a * Pow2(n - 1))
  {
  }

  lemma Assoc2(p: nat, o: nat)
    ensures (2 * p) * o == 2 * (p * o)
  {
  }

  /** Shifting both operands left by n shifts their or left by n. */
  lemma {:induction false} OrDouble(a: nat, b: nat, n: nat)
    ensures BitOr(a * Pow2(n), b * Pow2(n)) == Pow2(n) * BitOr(a, b)
  {
    if n > 0 {
      var x, y, o := a * Pow2(n - 1), b * Pow2(n - 1), BitOr(a, b);
      OrDouble(a, b, n - 1);
      PowStep(a, n);
      PowStep(b, n);
      OrTwice(x, y);
      Assoc2(Pow2(n - 1), o);
    } else {
      assert Pow2(n) == 1;
      assert a * Pow2(n) == a && b * Pow2(n) == b;
    }
  }

  /** Or-ing a value below 2^n into a multiple of 2^n adds it. */
  lemma {:induction false} OrLow(a: nat, b: nat, n: nat)
    requires b < Pow2(n)
    ensures BitOr(a * Pow2(n), b) == a * Pow2(n) + b
  {
    if n > 0 && a != 0 && b != 0 {
      var x := a * Pow2(n - 1);
      PowStep(a, n);
      assert (2 * x) / 2 == x && (2 * x) % 2 == 0;
      OrLow(a, b / 2, n - 1);
      assert b == 2 * (b / 2) + b % 2;
    }
  }

  lemma Pow2Bytes()
    ensures Pow2(8) == 256 && Pow2(16) == 65536
  {
    assert Pow2(4) == 16;
    assert Pow2(8) == 256;
    assert Pow2(12) == 4096;
  }

  /** Shifting a byte into place and or-ing in another shifted byte is
      addition of their place values. */
  lemma PackBytes(red: nat, green: nat)
    requires red < 256 && green < 256
    ensures BitOr(BitOr(ShiftLeft(red, 16), ShiftLeft(green, 8)), 0) == red * 65536 + green * 256
  {
    var packed := BitOr(ShiftLeft(red, 16), ShiftLeft(green, 8));
    assert packed == red * 65536 + green * 256 by {
      Pow2Bytes();
      var hi := red * 256;
      assert ShiftLeft(red, 16) == hi * Pow2(8);
      assert ShiftLeft(green, 8) == green * Pow2(8);
      OrDouble(hi, green, 8);
      OrLow(red, green, 8);
    }
    OrZero(packed);
  }

  lemma OrZero(a: nat)
    ensures BitOr(a, 0) == a
  {
  }

  /** The colour is 65536 red + 256 green with both channels bytes, so the
      blue byte is zero and each channel reads back from the colour. */
  lemma ColourPacking(distance: real)
    ensures 0 <= Red(distance) <= 255 && 0 <= Green(distance) <= 255
    ensures DistanceColour(distance) == 65536 * Red(distance) + 256 * Green(distance)
    ensures DistanceColour(distance) % 256 == 0
    ensures DistanceColour(distance) / 65536 == Red(distance)
    ensures (DistanceColour(distance) / 256) % 256 == Green(distance)
  {
    PackBytes(Red(distance), Green(distance));
    ChannelsReadBack(Red(distance), Green(distance));
  }

  /** 65536 red + 256 green has a zero low byte, red above bit 16 and green
      in bits 8 to 15. */
  lemma ChannelsReadBack(red: int, green: int)
    requires 0 <= red < 256 && 0 <= green < 256
    ensures (65536 * red + 256 * green) % 256 == 0
    ensures (65536 * red + 256 * green) / 65536 == red
    ensures ((65536 * red + 256 * green) / 256) % 256 == green
  {
    var c := 65536 * red + 256 * green;
    DivUnique(c, 256, 256 * red + green, 0);
    DivUnique(c, 65536, red, 256 * green);
    DivUnique(256 * red + green, 256, red, green);
  }

  /** No distance gives pure green, a distance of 0.2 or more pure red. */
  lemma ColourEnds(distance: real)
    ensures distance <= 0.0 ==> DistanceColour(distance) == 0x00FF00
    ensures distance >= RedDistance ==> DistanceColour(distance) == 0xFF0000
  {
    ColourPacking(distance);
  }

  /** A farther hand is at least as red and at most as green. */
  lemma ColourMonotone(near: real, far: real)
    requires near <= far
    ensures Red(near) <= Red(far)
    ensures Green(near) >= Green(far)
  {
    var a, b := Scaled(near), Scaled(far);
    assert a <= b by {
      assert Clip(near, 0.0, RedDistance) <= Clip(far, 0.0, RedDistance);
    }
    assert a * 255.0 <= b * 255.0;
    assert (1.0 - a) * 255.0 >= (1.0 - b) * 255.0;
  }

  /** The two channels always add up to 254 or 255: 255 exactly when the
      scaled red intensity is a whole number. */
  lemma ChannelSum(distance: real)
    ensures Red(distance) + Green(distance) == 254 || Red(distance) + Green(distance) == 255
    ensures Red(distance) + Green(distance) == 255 <==> Red(distance) as real == Scaled(distance) * 255.0
  {
    var x := Scaled(distance) * 255.0;
    assert (1.0 - Scaled(distance)) * 255.0 == 255.0 - x;
  }

  /** updateMeshColor: a Lambert mesh takes a colour that differs from the
      last one applied, and the named side's last-colour ref records it. */
  method UpdateMeshColor(mesh: Mesh?, colour: int, handSide: string, lastColorRef: int, state: SceneState)
    modifies mesh, state
    ensures var changed := mesh != null && mesh.lambert && lastColorRef != colour;
      && (mesh != null ==> mesh.colour == (if changed then colour else old(mesh.colour)))
      && state.lastLeftColorRef == (if changed && handSide == "LEFT" then colour else old(state.lastLeftColorRef))
      && state.lastRightColorRef == (if changed && handSide == "RIGHT" then colour else old(state.lastRightColorRef))
    ensures state.robot == old(state.robot) && state.pauseCommands == old(state.pauseCommands)
    ensures state.joystickScale == old(state.joystickScale)
    ensures state.previousButtonStates == old(state.previousButtonStates)
  {
    if mesh != null && mesh.lambert {
      if lastColorRef != colour {
        mesh.colour := colour;
        if handSide == "LEFT" {
          state.lastLeftColorRef := colour;
        } else if handSide == "RIGHT" {
          state.lastRightColorRef := colour;
        }
      }
    }
  }
}
