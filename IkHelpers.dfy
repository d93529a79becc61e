/** The position-only solver helper: an unbounded least-squares solve from
    the previous answer, whose result is clipped into the joint limits and
    kept as the next starting guess. The solve itself is a parameter. */
module IkHelpers {
  import opened Common
  import opened Matrix

  /** One actuated joint's limits (joint.limit.lower, joint.limit.upper). */
  datatype Limit = Limit(lower: real, upper: real)

  /** The residual of a candidate: end-effector position minus target. */
  function Residual(fk: seq<real> -> Vec3, target: Vec3, angles: seq<real>): (r: Vec3)
    ensures r == Vec3(0.0, 0.0, 0.0) <==> fk(angles) == target
  {
    Sub(fk(angles), target)
  }

  /** np.clip(x, lower, upper) component-wise; arrays of different lengths
      cannot be broadcast and raise ValueError. */
  function ClipToBounds(x: seq<real>, lower: seq<real>, upper: seq<real>): (r: Result<seq<real>>)
    ensures r.Ok? <==> |x| == |lower| == |upper|
    ensures r.Err? ==> r.error == "ValueError"
    ensures r.Ok? ==> |r.value| == |x|
    ensures r.Ok? ==> forall k | 0 <= k < |x| && lower[k] <= upper[k] :: lower[k] <= r.value[k] <= upper[k]
  {
    if |x| == |lower| == |upper| then Ok(seq(|x|, k requires 0 <= k < |x| => Clip(x[k], lower[k], upper[k])))
    else Err("ValueError")
  }

  /** Clipping leaves a solution already within the limits unchanged, and
      clipping twice is clipping once. */
  lemma ClipToBoundsIdentityInside(x: seq<real>, lower: seq<real>, upper: seq<real>)
    requires |x| == |lower| == |upper|
    ensures (forall k | 0 <= k < |x| :: lower[k] <= x[k] <= upper[k]) ==> ClipToBounds(x, lower, upper) == Ok(x)
    ensures ClipToBounds(ClipToBounds(x, lower, upper).value, lower, upper) == ClipToBounds(x, lower, upper)
  {
    var c := ClipToBounds(x, lower, upper).value;
    assert ClipToBounds(c, lower, upper).value == c;
    if forall k | 0 <= k < |x| :: lower[k] <= x[k] <= upper[k] {
      assert c == x;
    }
  }

  /** The least-squares solve for a target and frame, from a starting guess. */
  type LeastSquares = (Vec3, string, seq<real>) -> seq<real>

  class IKSolver {
    var lastGuess: seq<real>
    var lowerBounds: seq<real>
    var upperBounds: seq<real>

    /** One bound pair per actuated joint, in order; the guess starts at zero. */
    constructor(actuated: seq<Limit>)
      ensures lastGuess == Zeros(|actuated|)
      ensures |lowerBounds| == |upperBounds| == |actuated|
      ensures forall k | 0 <= k < |actuated| :: lowerBounds[k] == actuated[k].lower && upperBounds[k] == actuated[k].upper
    {
      lastGuess := Zeros(|actuated|);
      var lower: seq<real> := [];
      var upper: seq<real> := [];
      var i := 0;
      while i < |actuated|
        invariant 0 <= i <= |actuated|
        invariant |lower| == |upper| == i
        invariant forall k | 0 <= k < i :: lower[k] == actuated[k].lower && upper[k] == actuated[k].upper
      {
        lower := lower + [actuated[i].lower];
        upper := upper + [actuated[i].upper];
        i := i + 1;
      }
      lowerBounds := lower;
      upperBounds := upper;
    }

    /** from_scratch_ik: the solve runs without bounds, then its answer is
        clipped into the limits; the returned vector is the next guess. */
    method FromScratchIk(target: Vec3, frame: string, solve: LeastSquares) returns (r: Result<seq<real>>)
      modifies this
      ensures lowerBounds == old(lowerBounds) && upperBounds == old(upperBounds)
      ensures r == ClipToBounds(solve(target, frame, old(lastGuess)), lowerBounds, upperBounds)
      ensures r.Ok? ==> lastGuess == r.value
      ensures r.Err? ==> lastGuess == solve(target, frame, old(lastGuess))
    {
      var x := solve(target, frame, lastGuess);
      lastGuess := x;
      var clipped := ClipToBounds(lastGuess, lowerBounds, upperBounds);
      if clipped.Err? {
        return clipped;
      }
      lastGuess := clipped.value;
      r := Ok(lastGuess);
    }
  }
}
