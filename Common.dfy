/** Shared vocabulary of the teleoperation model: optional values, the error
    outcome of a Python call that raises, JSON values, and the scalar helpers
    (numpy clip, Python int() truncation, float modulo, degree conversion). */
module Common {

  datatype Option<+T> = None | Some(value: T)

  /** Outcome of a call that may raise; `error` names the exception. */
  datatype Result<+T> = Ok(value: T) | Err(error: string)

  /** A decoded JSON value (json.loads / JSON.parse). Objects are keyed maps. */
  datatype Json =
    | JNull
    | JBool(b: bool)
    | JNum(n: real)
    | JStr(s: string)
    | JArr(items: seq<Json>)
    | JObj(fields: map<string, Json>)

  /** The double nearest to pi, as numpy's np.pi and JavaScript's Math.PI. */
  const Pi: real := 3.141592653589793

  /** np.clip(x, lo, hi), that is min(max(x, lo), hi). */
  function Clip(x: real, lo: real, hi: real): (r: real)
    ensures lo <= hi ==> lo <= r <= hi
    ensures lo <= x <= hi ==> r == x
    ensures x < lo && lo <= hi ==> r == lo
    ensures hi < x ==> r == hi
  {
    if x < lo then (if lo < hi then lo else hi)
    else if x > hi then hi
    else x
  }

  /** Component-wise np.clip of a vector into [lo, hi]. */
  function ClipAll(xs: seq<real>, lo: real, hi: real): (r: seq<real>)
    ensures |r| == |xs|
    ensures forall i | 0 <= i < |xs| :: r[i] == Clip(xs[i], lo, hi)
  {
    seq(|xs|, i requires 0 <= i < |xs| => Clip(xs[i], lo, hi))
  }

  /** Python's int(x) on a float: truncation toward zero. */
  function Trunc(x: real): (r: int)
    ensures 0.0 <= x ==> 0 <= r && r as real <= x < r as real + 1.0
    ensures x < 0.0 ==> r <= 0 && r as real - 1.0 < x <= r as real
  {
    if x >= 0.0 then x.Floor else -((-x).Floor)
  }

  /** Python's float modulo x % m for m > 0: the result has the sign of m. */
  function FloatMod(x: real, m: real): (r: real)
    requires m > 0.0
    ensures 0.0 <= r < m
  {
    var q: real := (x / m).Floor as real;
    FloorDiv(x, m);
    x - q * m
  }

  lemma FloorDiv(x: real, m: real)
    requires m > 0.0
    ensures (x / m).Floor as real * m <= x < (x / m).Floor as real * m + m
  {
    var y := x / m;
    var q: real := y.Floor as real;
    assert q <= y < q + 1.0;
    assert y * m == x;
    MulMono(q, y, m);
    MulStrict(y, q + 1.0, m);
    assert (q + 1.0) * m == q * m + m;
    assert y * m < q * m + m;
    assert x < q * m + m;
  }

  lemma MulMono(a: real, b: real, m: real)
    requires a <= b && m > 0.0
    ensures a * m <= b * m
  {
  }

  lemma MulStrict(a: real, b: real, m: real)
    requires a < b && m > 0.0
    ensures a * m < b * m
  {
  }

  /** np.rad2deg / np.degrees. */
  function RadToDeg(a: real): real
  {
    a * 180.0 / Pi
  }

  lemma RadToDegOfPi()
    ensures RadToDeg(Pi) == 180.0 && RadToDeg(0.0) == 0.0
  {
  }

  function Abs(x: real): (r: real)
    ensures r >= 0.0 && (r == x || r == -x)
  {
    if x < 0.0 then -x else x
  }

  function Max(a: real, b: real): (r: real)
    ensures r >= a && r >= b && (r == a || r == b)
  {
    if a >= b then a else b
  }

  function Min(a: real, b: real): (r: real)
    ensures r <= a && r <= b && (r == a || r == b)
  {
    if a <= b then a else b
  }

  /** A vector of n zeros (np.zeros(n)). */
  function Zeros(n: nat): (r: seq<real>)
    ensures |r| == n && forall i | 0 <= i < n :: r[i] == 0.0
  {
    seq(n, _ => 0.0)
  }

  /** Python slicing xs[:k] and xs[k:], which never raise. */
  function Take<T>(xs: seq<T>, k: nat): (r: seq<T>)
    ensures |r| == if k <= |xs| then k else |xs|
    ensures r == xs[..|r|]
  {
    if k <= |xs| then xs[..k] else xs
  }

  function Drop<T>(xs: seq<T>, k: nat): (r: seq<T>)
    ensures |r| == if k <= |xs| then |xs| - k else 0
    ensures r == xs[|xs| - |r|..]
  {
    if k <= |xs| then xs[k..] else []
  }

  predicate StartsWith(s: string, prefix: string)
  {
    |prefix| <= |s| && s[..|prefix|] == prefix
  }

  /** Python's `sub in s` on strings (substring test). */
  predicate Contains(s: string, sub: string)
  {
    StartsWith(s, sub) || (|s| > 0 && Contains(s[1..], sub))
  }

  /** "/".join(parts). */
  function Join(parts: seq<string>, sep: string): (r: string)
    ensures parts == [] ==> r == ""
    ensures |parts| == 1 ==> r == parts[0]
  {
    if parts == [] then ""
    else if |parts| == 1 then parts[0]
    else parts[0] + sep + Join(parts[1..], sep)
  }

  /** json.dumps of a flat object with the default separators; fmt renders
      a float as Python's repr does. */
  function DumpsObject(entries: seq<(string, real)>, fmt: real -> string): (r: string)
    ensures |r| >= 2 && r[0] == '{' && r[|r| - 1] == '}'
  {
    "{" + Join(EntryTexts(entries, fmt), ", ") + "}"
  }

  /** The `"key": value` texts of the entries, in order. */
  function EntryTexts(entries: seq<(string, real)>, fmt: real -> string): (r: seq<string>)
    ensures |r| == |entries|
    ensures forall k | 0 <= k < |entries| :: r[k] == "\"" + entries[k].0 + "\": " + fmt(entries[k].1)
  {
    seq(|entries|, k requires 0 <= k < |entries| => "\"" + entries[k].0 + "\": " + fmt(entries[k].1))
  }

  /** One JSON object per line, as the command senders write it:
      json.dumps(payload) + "\n". */
  function JsonLine(entries: seq<(string, real)>, fmt: real -> string): (r: string)
    ensures |r| >= 3 && r[0] == '{' && r[|r| - 2] == '}' && r[|r| - 1] == '\n'
  {
    DumpsObject(entries, fmt) + "\n"
  }

  predicate CommaFree(s: string)
  {
    forall i | 0 <= i < |s| :: s[i] != ','
  }

  /** A float renderer whose texts never hold a comma and never coincide
      for different values (Python's repr of a float has both properties). */
  ghost predicate FaithfulFormat(fmt: real -> string)
  {
    (forall x :: CommaFree(fmt(x))) && (forall x, y :: fmt(x) == fmt(y) ==> x == y)
  }

  /** A comma-free head is recovered from `head, rest`. */
  lemma SplitAtComma(x: string, y: string, x': string, y': string)
    requires CommaFree(x) && CommaFree(x')
    requires x + ", " + y == x' + ", " + y'
    ensures x == x' && y == y'
  {
    var s := x + ", " + y;
    HeadNoLonger(x, y, x', y');
    HeadNoLonger(x', y', x, y);
    assert x == s[..|x|] == x';
    assert y == s[|x| + 2..] == y';
  }

  /** The head before the first ", " is no longer than a comma-free head of
      the same text. */
  lemma HeadNoLonger(x: string, y: string, x': string, y': string)
    requires CommaFree(x)
    requires x + ", " + y == x' + ", " + y'
    ensures |x| <= |x'|
  {
    if |x'| < |x| {
      CommaAfter(x', y');
      assert false;
    }
  }

  lemma CommaAfter(a: string, b: string)
    ensures (a + ", " + b)[|a|] == ','
  {
  }

  /** What a faithful renderer gives for two values. */
  lemma FormatFacts(fmt: real -> string, a: real, b: real)
    requires FaithfulFormat(fmt)
    ensures CommaFree(fmt(a)) && CommaFree(fmt(b))
    ensures fmt(a) == fmt(b) ==> a == b
  {
  }

  /** Two entry lists with the same keys render to the same object text only
      when a faithful renderer gets the same values: json.dumps of a flat
      object loses no value. */
  lemma {:induction false} DumpsObjectInjective(e1: seq<(string, real)>, e2: seq<(string, real)>, fmt: real -> string)
    requires FaithfulFormat(fmt)
    requires |e1| == |e2| && forall k | 0 <= k < |e1| :: e1[k].0 == e2[k].0
    requires DumpsObject(e1, fmt) == DumpsObject(e2, fmt)
    ensures e1 == e2
  {
    var j1, j2 := Join(EntryTexts(e1, fmt), ", "), Join(EntryTexts(e2, fmt), ", ");
    assert j1 == DumpsObject(e1, fmt)[1..|DumpsObject(e1, fmt)| - 1];
    assert j2 == DumpsObject(e2, fmt)[1..|DumpsObject(e2, fmt)| - 1];
    JoinedEntriesInjective(e1, e2, fmt);
  }

  lemma {:induction false} JoinedEntriesInjective(e1: seq<(string, real)>, e2: seq<(string, real)>, fmt: real -> string)
    requires FaithfulFormat(fmt)
    requires |e1| == |e2| && forall k | 0 <= k < |e1| :: e1[k].0 == e2[k].0
    requires Join(EntryTexts(e1, fmt), ", ") == Join(EntryTexts(e2, fmt), ", ")
    ensures e1 == e2
    decreases |e1|
  {
    if e1 != [] {
      var t1, t2 := EntryTexts(e1, fmt), EntryTexts(e2, fmt);
      var prefix := "\"" + e1[0].0 + "\": ";
      var f1, f2 := fmt(e1[0].1), fmt(e2[0].1);
      assert t1[0] == prefix + f1 && t2[0] == prefix + f2;
      FormatFacts(fmt, e1[0].1, e2[0].1);
      if |e1| == 1 {
        assert f1 == (prefix + f1)[|prefix|..] == (prefix + f2)[|prefix|..] == f2;
      } else {
        var r1, r2 := e1[1..], e2[1..];
        assert t1[1..] == EntryTexts(r1, fmt);
        assert t2[1..] == EntryTexts(r2, fmt);
        var j1, j2 := Join(EntryTexts(r1, fmt), ", "), Join(EntryTexts(r2, fmt), ", ");
        assert Join(t1, ", ") == t1[0] + ", " + j1;
        assert Join(t2, ", ") == t2[0] + ", " + j2;
        assert (prefix + f1) + ", " + j1 == prefix + (f1 + ", " + j1);
        assert (prefix + f2) + ", " + j2 == prefix + (f2 + ", " + j2);
        assert prefix + (f1 + ", " + j1) == prefix + (f2 + ", " + j2);
        assert f1 + ", " + j1 == f2 + ", " + j2 by {
          var whole := prefix + (f1 + ", " + j1);
          assert f1 + ", " + j1 == whole[|prefix|..];
        }
        SplitAtComma(f1, j1, f2, j2);
        JoinedEntriesInjective(r1, r2, fmt);
        assert e1 == [e1[0]] + r1 && e2 == [e2[0]] + r2;
      }
      assert e1[0] == e2[0];
    }
  }

  /** The line loses nothing either: equal lines mean equal entries. */
  lemma JsonLineInjective(e1: seq<(string, real)>, e2: seq<(string, real)>, fmt: real -> string)
    requires FaithfulFormat(fmt)
    requires |e1| == |e2| && forall k | 0 <= k < |e1| :: e1[k].0 == e2[k].0
    requires JsonLine(e1, fmt) == JsonLine(e2, fmt)
    ensures e1 == e2
  {
    var d1, d2 := DumpsObject(e1, fmt), DumpsObject(e2, fmt);
    assert d1 == JsonLine(e1, fmt)[..|d1|];
    assert d2 == JsonLine(e2, fmt)[..|d2|];
    DumpsObjectInjective(e1, e2, fmt);
  }

  /** Sum of a sequence of integers. */
  function SumInts(xs: seq<int>): int
  {
    if xs == [] then 0 else SumInts(xs[..|xs| - 1]) + xs[|xs| - 1]
  }

  /** Integer division is determined by any quotient and remainder that
      fit. */
  lemma DivUnique(a: int, b: int, q: int, r: int)
    requires b > 0 && 0 <= r < b && a == b * q + r
    ensures a / b == q && a % b == r
  {
    var q' := a / b;
    var r' := a % b;
    assert b * q + r == b * q' + r';
    if q' > q {
      MulSteps(b, q', q);
    } else if q' < q {
      MulSteps(b, q, q');
    }
  }

  /** Quotients that differ by at least one differ by at least b in b
      times them. */
  lemma MulSteps(b: int, x: int, y: int)
    requires b > 0 && x > y
    ensures b * x - b * y >= b
  {
    var k := x - y;
    assert b * x - b * y == b * k;
    assert b * k == b + b * (k - 1);
    assert b * (k - 1) >= 0;
  }
}

/** Opaque socket handles and the log of effects a signalling server has on them. */
module Sockets {
  /** A websocket connection, compared by identity as Python compares objects. */
  type SocketId = nat

  datatype Event =
    | Sent(to: SocketId, text: string)           // websocket.send(text), attempted
    | Closed(ws: SocketId)                       // websocket.close(), attempted
    | Dialed(url: string)                        // websockets.connect(url), attempted
    | Announced(host: string, port: nat)         // UDP datagram with the server IP

  /** The texts json.dumps produces for the fixed notifications (default separators). */
  const RobotAvailable: string := "{\"type\": \"robot_available\"}"
  const RobotDisconnected: string := "{\"type\": \"error\", \"error\": \"Robot disconnected\"}"
  const ConnectionClosed: string := "{\"type\": \"connection_closed\"}"
  const InvalidRole: string := "{\"type\": \"error\", \"error\": \"Invalid role\"}"
}
