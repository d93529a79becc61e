/** The offline working-envelope script's bookkeeping: which arm joints are
    sampled, the sampling range of each joint in degrees, and how the total
    sample count is cut into seeded chunks for the workers. */
module WorkingEnvelope {
  import opened Common

  /** The right arm, sampled instead of the whole joint set when present. */
  const PreferredRight: seq<string> := [
    "dof_right_shoulder_pitch_03", "dof_right_shoulder_roll_03", "dof_right_shoulder_yaw_02",
    "dof_right_elbow_02", "dof_right_wrist_00"]

  /** The fallback range, in degrees, of a joint the URDF does not limit. */
  const DefaultLimits: (real, real) := (-180.0, 180.0)

  const DefaultSamples: int := 10_000_000
  const DefaultChunkSize: int := 100_000

  /** The joints sampled: the five right-arm joints, in their own order,
      when all of them are available, otherwise every available joint. */
  function SampledJoints(available: seq<string>): (r: seq<string>)
    ensures (forall i | 0 <= i < |PreferredRight| :: PreferredRight[i] in available) ==> r == PreferredRight
    ensures (exists i | 0 <= i < |PreferredRight| :: PreferredRight[i] !in available) ==> r == available
  {
    if forall i | 0 <= i < |PreferredRight| :: PreferredRight[i] in available then PreferredRight else available
  }

  /** The unit heuristic: bounds both within [-2π, 2π] are taken as radians
      and converted, anything else is taken as degrees already. */
  predicate LooksLikeRadians(lb: real, ub: real)
  {
    Abs(lb) <= 2.0 * Pi && Abs(ub) <= 2.0 * Pi
  }

  /** The (lower, upper) range of one joint in degrees. */
  function LimitOf(limitsMap: map<string, (real, real)>, name: string): (r: (real, real))
    ensures name !in limitsMap ==> r == (-180.0, 180.0)
    ensures name in limitsMap && !LooksLikeRadians(limitsMap[name].0, limitsMap[name].1) ==> r == limitsMap[name]
  {
    if name !in limitsMap then DefaultLimits
    else
      var (lb, ub) := limitsMap[name];
      if LooksLikeRadians(lb, ub) then (RadToDeg(lb), RadToDeg(ub)) else (lb, ub)
  }

  /** An actuated joint of the loaded URDF: its name and, when the URDF
      gives one, its (lower, upper) limit. */
  datatype ActuatedJoint = ActuatedJoint(name: string, limit: Option<(real, real)>)

  /** The limits_map comprehension: each actuated joint's (lower, upper)
      under its name, a later joint overwriting an earlier one of the same
      name. Reading `.lower` of a missing limit raises AttributeError, so
      the fallback range is only ever used for names the URDF does not
      actuate. */
  function LimitsMap(joints: seq<ActuatedJoint>): (r: Result<map<string, (real, real)>>)
    ensures r.Ok? <==> forall k | 0 <= k < |joints| :: joints[k].limit.Some?
    ensures r.Err? ==> r.error == "AttributeError"
    ensures r.Ok? ==> forall k | 0 <= k < |joints| :: joints[k].name in r.value
    ensures r.Ok? ==> forall name | name in r.value ::
      exists k | 0 <= k < |joints| :: joints[k].name == name && joints[k].limit == Some(r.value[name])
  {
    if joints == [] then Ok(map[])
    else
      var pre, last := joints[..|joints| - 1], joints[|joints| - 1];
      assert forall k | 0 <= k < |pre| :: pre[k] == joints[k];
      match LimitsMap(pre)
      case Err(e) => Err(e)
      case Ok(m) =>
        if last.limit.None? then Err("AttributeError")
        else Ok(m[last.name := last.limit.value])
  }

  /** get_joint_limits from the URDF's actuated joints: the comprehension,
      then one range per requested name. */
  function JointLimitsFromUrdf(joints: seq<ActuatedJoint>, names: seq<string>): (r: Result<seq<(real, real)>>)
    ensures r.Ok? <==> LimitsMap(joints).Ok?
    ensures r.Err? ==> r.error == "AttributeError"
    ensures r.Ok? ==> r.value == JointLimitsOf(LimitsMap(joints).value, names)
  {
    match LimitsMap(joints)
    case Err(e) => Err(e)
    case Ok(m) => Ok(JointLimitsOf(m, names))
  }

  /** get_joint_limits as a whole: one range per requested name, in order. */
  function JointLimitsOf(limitsMap: map<string, (real, real)>, names: seq<string>): (r: seq<(real, real)>)
    ensures |r| == |names|
    ensures forall i | 0 <= i < |names| :: r[i] == LimitOf(limitsMap, names[i])
  {
    seq(|names|, i requires 0 <= i < |names| => LimitOf(limitsMap, names[i]))
  }

  /** A range is converted exactly when both bounds lie within 2π, and then
      becomes a range within [-360, 360] degrees; a joint the URDF does not
      know gets (-180, 180). */
  lemma LimitFacts(limitsMap: map<string, (real, real)>, name: string)
    ensures name !in limitsMap ==> LimitOf(limitsMap, name) == (-180.0, 180.0)
    ensures name in limitsMap && LooksLikeRadians(limitsMap[name].0, limitsMap[name].1) ==> (
      && LimitOf(limitsMap, name) == (limitsMap[name].0 * 180.0 / Pi, limitsMap[name].1 * 180.0 / Pi)
      && -360.0 <= LimitOf(limitsMap, name).0 <= 360.0
      && -360.0 <= LimitOf(limitsMap, name).1 <= 360.0)
    ensures name in limitsMap && !LooksLikeRadians(limitsMap[name].0, limitsMap[name].1) ==>
      LimitOf(limitsMap, name) == limitsMap[name]
  {
    if name in limitsMap && LooksLikeRadians(limitsMap[name].0, limitsMap[name].1) {
      var (lb, ub) := limitsMap[name];
      DegreeBound(lb);
      DegreeBound(ub);
    }
  }

  /** An angle within 2π radians is within 360 degrees. */
  lemma DegreeBound(a: real)
    requires Abs(a) <= 2.0 * Pi
    ensures -360.0 <= RadToDeg(a) <= 360.0
  {
    assert -2.0 * Pi <= a <= 2.0 * Pi;
    assert a * 180.0 <= 2.0 * Pi * 180.0;
    assert -2.0 * Pi * 180.0 <= a * 180.0;
    assert 2.0 * Pi * 180.0 / Pi == 360.0;
  }

  /** get_joint_limits: the limits_map comprehension, then the loop over the
      requested names. */
  method GetJointLimits(joints: seq<ActuatedJoint>, names: seq<string>) returns (r: Result<seq<(real, real)>>)
    ensures r == JointLimitsFromUrdf(joints, names)
  {
    var built := LimitsMap(joints);
    if built.Err? {
      return Err(built.error);
    }
    var limitsMap := built.value;
    var limits := [];
    for i := 0 to |names|
      invariant limits == JointLimitsOf(limitsMap, names[..i])
    {
      var name := names[i];
      if name in limitsMap {
        var (lb, ub) := limitsMap[name];
        if Abs(lb) <= 2.0 * Pi && Abs(ub) <= 2.0 * Pi {
          limits := limits + [(RadToDeg(lb), RadToDeg(ub))];
        } else {
          limits := limits + [(lb, ub)];
        }
      } else {
        limits := limits + [(-180.0, 180.0)];
      }
      assert names[..i + 1] == names[..i] + [name];
    }
    assert names[..|names|] == names;
    r := Ok(limits);
  }

  // ---------------------------------------------------------------------
  // The chunk plan
  // ---------------------------------------------------------------------

  /** Python's // and % on integers: the quotient is floored and the
      remainder takes the divisor's sign. */
  function PyDiv(a: int, b: int): int
    requires b != 0
  {
    if b > 0 then a / b else (-a) / (-b)
  }

  function PyMod(a: int, b: int): (r: int)
    requires b != 0
    ensures b > 0 ==> 0 <= r < b
    ensures b < 0 ==> b < r <= 0
  {
    a - b * PyDiv(a, b)
  }

  /** One worker job: how many samples, and which spawned seed it uses. */
  datatype Chunk = Chunk(size: int, seed: int)

  /** The jobs main builds: n_full chunks of `chunk` samples with seeds 0,
      1, ..., then one chunk of the remainder with the last seed spawned. A
      zero chunk size divides by zero; a remainder with no seed spawned
      indexes an empty list. */
  function ChunkPlan(total: int, chunk: int): (r: Result<seq<Chunk>>)
    ensures chunk == 0 ==> r == Err("ZeroDivisionError")
    ensures r.Ok? ==> forall i | 0 <= i < |r.value| :: r.value[i].seed == i
    ensures r.Ok? ==> forall i | 0 <= i < |r.value| - 1 :: r.value[i].size == chunk
  {
    if chunk == 0 then Err("ZeroDivisionError")
    else
      var nFull := PyDiv(total, chunk);
      var rem := PyMod(total, chunk);
      var full := seq(if nFull > 0 then nFull else 0, i => Chunk(chunk, i));
      var spawned := nFull + (if rem != 0 then 1 else 0);
      if rem == 0 then Ok(full)
      else if spawned <= 0 then Err("IndexError")
      else Ok(full + [Chunk(rem, spawned - 1)])
  }

  /** The worker pool size: at least one process. */
  function Processes(requested: int): (r: int)
    ensures r >= 1 && (requested >= 1 ==> r == requested)
  {
    if requested >= 1 then requested else 1
  }

  function SumSizes(chunks: seq<Chunk>): int
  {
    if chunks == [] then 0 else SumSizes(chunks[..|chunks| - 1]) + chunks[|chunks| - 1].size
  }

  /** n chunks of the same size hold n times that many samples. */
  lemma {:induction false} SumOfFull(n: nat, chunk: int)
    ensures SumSizes(seq(n, i => Chunk(chunk, i))) == n * chunk
  {
    if n > 0 {
      var s := seq(n, i => Chunk(chunk, i));
      assert s[..n - 1] == seq(n - 1, i => Chunk(chunk, i));
      SumOfFull(n - 1, chunk);
    }
  }

  /** The number of chunks is the total divided by the chunk size, rounded
      up. */
  lemma ChunkCount(total: int, chunk: int)
    requires total >= 0 && chunk > 0
    ensures (total + chunk - 1) / chunk == total / chunk + (if total % chunk == 0 then 0 else 1)
  {
    var nFull := total / chunk;
    var rem := total % chunk;
    if rem == 0 {
      DivUnique(total + chunk - 1, chunk, nFull, chunk - 1);
    } else {
      DivUnique(total + chunk - 1, chunk, nFull + 1, rem - 1);
    }
  }

  /** With a non-negative total and a positive chunk size the plan covers
      the total exactly, every chunk holds between 1 and `chunk` samples,
      there are ⌈total / chunk⌉ of them, and chunk i uses seed i. */
  lemma ChunkPlanCovers(total: int, chunk: int)
    requires total >= 0 && chunk > 0
    ensures ChunkPlan(total, chunk).Ok?
    ensures var cs := ChunkPlan(total, chunk).value;
      && SumSizes(cs) == total
      && |cs| == (total + chunk - 1) / chunk
      && (forall i | 0 <= i < |cs| :: 0 < cs[i].size <= chunk && cs[i].seed == i)
  {
    PlanOfNonNegative(total, chunk);
    ChunkCount(total, chunk);
    var q, r := total / chunk, total % chunk;
    assert total == chunk * q + r;
    PlanShape(q, r, chunk);
  }

  /** q full chunks and a remainder r hold q * chunk + r samples in
      q chunks, plus one when r is not zero, with seeds in order. */
  lemma PlanShape(q: nat, r: int, chunk: int)
    requires chunk > 0 && 0 <= r < chunk
    ensures var full := seq(q, i => Chunk(chunk, i));
      var cs := if r == 0 then full else full + [Chunk(r, q)];
      && SumSizes(cs) == chunk * q + r
      && |cs| == q + (if r == 0 then 0 else 1)
      && (forall i | 0 <= i < |cs| :: 0 < cs[i].size <= chunk && cs[i].seed == i)
  {
    var full := seq(q, i => Chunk(chunk, i));
    SumOfFull(q, chunk);
    if r != 0 {
      var cs := full + [Chunk(r, q)];
      assert cs[..|cs| - 1] == full;
    }
  }

  /** For a non-negative total and a positive chunk size, the plan is
      total / chunk full chunks, then one chunk of the remainder if there is
      one. */
  lemma PlanOfNonNegative(total: int, chunk: int)
    requires total >= 0 && chunk > 0
    ensures ChunkPlan(total, chunk) == Ok(
      var full := seq(total / chunk, i => Chunk(chunk, i));
      if total % chunk == 0 then full else full + [Chunk(total % chunk, total / chunk)])
  {
    assert PyMod(total, chunk) == total % chunk;
  }

  /** A zero chunk size fails, as does a total that is negative yet not a
      whole number of chunks. */
  lemma ChunkPlanErrors(total: int, chunk: int)
    ensures chunk == 0 ==> ChunkPlan(total, chunk) == Err("ZeroDivisionError")
    ensures chunk > 0 && -chunk < total < 0 ==> ChunkPlan(total, chunk) == Err("IndexError")
  {
    if chunk > 0 && -chunk < total < 0 {
      assert total / chunk == -1 by {
        assert total == chunk * (-1) + (total + chunk);
      }
    }
  }

  // ---------------------------------------------------------------------
  // Worker seeds
  // ---------------------------------------------------------------------

  /** The entropy of the seed sequence the chunk seeds are spawned from. */
  const SeedEntropy: int := 12345

  /** The seed worker_sample gives its generator, as written: the `entropy`
      of the spawned child sequence, which a spawned child shares with its
      parent, so the spawn index never reaches the generator. */
  function WorkerSeedAsWritten(c: Chunk): (r: int)
    ensures r == WorkerSeed(Chunk(0, 0)).0
  {
    SeedEntropy
  }

  /** With the default arguments the first two chunks have the same size and
      the same generator seed, so their workers draw the same samples. */
  lemma DuplicatedChunks()
    ensures ChunkPlan(DefaultSamples, DefaultChunkSize).Ok?
    ensures var cs := ChunkPlan(DefaultSamples, DefaultChunkSize).value;
      && |cs| == 100 && cs[0].seed != cs[1].seed
      && cs[0].size == cs[1].size && WorkerSeedAsWritten(cs[0]) == WorkerSeedAsWritten(cs[1])
  {
  }

  /** The generator identity a chunk is meant to get: the spawned child
      itself, that is the parent entropy together with the spawn index. */
  function WorkerSeed(c: Chunk): (r: (int, int))
    ensures r.1 == c.seed
  {
    (SeedEntropy, c.seed)
  }

  /** Every chunk of a plan gets a generator of its own. */
  lemma DistinctWorkerSeeds(total: int, chunk: int)
    requires total >= 0 && chunk > 0
    ensures ChunkPlan(total, chunk).Ok?
    ensures var cs := ChunkPlan(total, chunk).value;
      forall i, j | 0 <= i < j < |cs| :: WorkerSeed(cs[i]) != WorkerSeed(cs[j])
  {
  }

  /** The chunk list main builds, one append per job. */
  method PlanChunks(total: int, chunk: int) returns (r: Result<seq<Chunk>>)
    ensures r == ChunkPlan(total, chunk)
  {
    if chunk == 0 {
      return Err("ZeroDivisionError");
    }
    var nFull := PyDiv(total, chunk);
    var rem := PyMod(total, chunk);
    var seeds := nFull + (if rem != 0 then 1 else 0);
    var chunks: seq<Chunk> := [];
    var i := 0;
    while i < nFull
      invariant 0 <= i && (nFull > 0 ==> i <= nFull) && (nFull <= 0 ==> i == 0)
      invariant chunks == seq(i, k => Chunk(chunk, k))
    {
      chunks := chunks + [Chunk(chunk, i)];
      i := i + 1;
    }
    assert chunks == seq(if nFull > 0 then nFull else 0, k => Chunk(chunk, k));
    if rem != 0 {
      if seeds <= 0 {
        return Err("IndexError");
      }
      chunks := chunks + [Chunk(rem, seeds - 1)];
    }
    r := Ok(chunks);
  }
}
