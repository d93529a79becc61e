/** The URDF-driven arm solver wrapper: kinematic chains from the URDF child
    map, the index of every non-fixed joint, revolute joint limits, forward
    kinematics as a product of joint transforms, the residual vector and the
    warm-started solve. Rotation constructors, arccos and the least-squares
    solver are parameters. */
module JaxIk {
  import opened Common
  import opened Matrix

  /** urdf.Joint: the fields the wrapper reads. */
  datatype Joint = Joint(
    name: string,
    jointType: string,
    origin: Vec3,                  // origin.position
    originRpy: Option<Vec3>,       // origin.rotation, possibly absent
    axis: Vec3,
    lower: real,                   // limit.lower (read for revolute joints only)
    upper: real)                   // limit.upper

  predicate IsFixed(j: Joint) { j.jointType == "fixed" }
  predicate IsRevolute(j: Joint) { j.jointType == "revolute" }

  /** One (parent link, joint, child link) entry of the URDF child map. */
  datatype Edge = Edge(parent: string, joint: string, child: string)

  /** urdf.child_map.items(): each link with its (joint, child) list, in
      dictionary order. */
  type ChildMap = seq<(string, seq<(string, string)>)>

  /** The entries of one link's list as edges. */
  function LinkEdges(link: string, infos: seq<(string, string)>): (r: seq<Edge>)
    ensures |r| == |infos|
    ensures forall k | 0 <= k < |infos| :: r[k] == Edge(link, infos[k].0, infos[k].1)
  {
    seq(|infos|, k requires 0 <= k < |infos| => Edge(link, infos[k].0, infos[k].1))
  }

  /** The child map flattened in iteration order. */
  function Edges(cm: ChildMap): seq<Edge>
  {
    if cm == [] then [] else Edges(cm[..|cm| - 1]) + LinkEdges(cm[|cm| - 1].0, cm[|cm| - 1].1)
  }

  /** kinematic_chain_maps after processing the edges in order: the base maps
      to [], and each child to its parent's chain plus the connecting joint.
      A parent not yet in the map is a KeyError. */
  function Chains(base: string, es: seq<Edge>): (r: Result<map<string, seq<string>>>)
    ensures r.Err? ==> r.error == "KeyError"
  {
    if es == [] then Ok(map[base := []])
    else
      match Chains(base, es[..|es| - 1])
      case Err(e) => Err(e)
      case Ok(m) =>
        var e := es[|es| - 1];
        if e.parent in m then Ok(m[e.child := m[e.parent] + [e.joint]]) else Err("KeyError")
  }

  /** Once a KeyError is raised, later edges do not matter. */
  lemma {:induction false} ChainsErrorPersists(base: string, a: seq<Edge>, b: seq<Edge>)
    requires Chains(base, a).Err?
    ensures Chains(base, a + b) == Chains(base, a)
    decreases |b|
  {
    if b != [] {
      var b' := b[..|b| - 1];
      assert (a + b)[..|a + b| - 1] == a + b';
      ChainsErrorPersists(base, a, b');
    } else {
      assert a + b == a;
    }
  }

  /** Every child link appears once and none is the base: the URDF is a tree. */
  predicate TreeEdges(base: string, es: seq<Edge>)
  {
    forall k | 0 <= k < |es| :: es[k].child != base && forall i | 0 <= i < k :: es[i].child != es[k].child
  }

  function ChildSet(es: seq<Edge>): set<string>
  {
    set k | 0 <= k < |es| :: es[k].child
  }

  /** The links with a chain are the base and every child seen so far. */
  lemma {:induction false} ChainsKeys(base: string, es: seq<Edge>)
    requires Chains(base, es).Ok?
    ensures Chains(base, es).value.Keys == {base} + ChildSet(es)
    decreases |es|
  {
    if es != [] {
      var n := |es| - 1;
      var pre := es[..n];
      ChainsKeys(base, pre);
      assert ChildSet(es) == ChildSet(pre) + {es[n].child} by {
        forall x | x in ChildSet(es) ensures x in ChildSet(pre) + {es[n].child} {
          var k :| 0 <= k < |es| && es[k].child == x;
          if k < n { assert pre[k].child == x; }
        }
        forall x | x in ChildSet(pre) ensures x in ChildSet(es) {
          var k :| 0 <= k < |pre| && pre[k].child == x;
          assert es[k].child == x;
        }
      }
    }
  }

  /** Without a KeyError, every edge's parent is the base or the child of
      an earlier edge. */
  lemma {:induction false} ParentsSeenFirst(base: string, es: seq<Edge>)
    requires Chains(base, es).Ok?
    ensures forall k | 0 <= k < |es| :: es[k].parent == base || exists i | 0 <= i < k :: es[i].child == es[k].parent
    decreases |es|
  {
    if es != [] {
      var n := |es| - 1;
      var pre := es[..n];
      ParentsSeenFirst(base, pre);
      ChainsKeys(base, pre);
      forall k | 0 <= k < |es|
        ensures es[k].parent == base || exists i | 0 <= i < k :: es[i].child == es[k].parent
      {
        if k < n {
          assert pre[k] == es[k];
          if es[k].parent != base {
            var i :| 0 <= i < k && pre[i].child == pre[k].parent;
            assert es[i].child == es[k].parent;
          }
        } else if es[k].parent != base {
          assert es[k].parent in ChildSet(pre);
          var i :| 0 <= i < |pre| && pre[i].child == es[k].parent;
          assert es[i].child == es[k].parent;
        }
      }
    }
  }

  /** The chain invariant holds for a map over some edges. */
  predicate ChainsConsistent(base: string, es: seq<Edge>, m: map<string, seq<string>>)
  {
    && base in m && m[base] == []
    && (forall k | 0 <= k < |es| :: es[k].parent in m && es[k].child in m && m[es[k].child] == m[es[k].parent] + [es[k].joint])
  }

  /** Adding an edge to a fresh child keeps the chain invariant. */
  lemma ChainStep(base: string, pre: seq<Edge>, e: Edge, m: map<string, seq<string>>)
    requires m.Keys == {base} + ChildSet(pre) && ChainsConsistent(base, pre, m)
    requires e.child != base && e.child !in ChildSet(pre) && e.parent in m
    ensures ChainsConsistent(base, pre + [e], m[e.child := m[e.parent] + [e.joint]])
  {
    var m' := m[e.child := m[e.parent] + [e.joint]];
    var es := pre + [e];
    forall k | 0 <= k < |es|
      ensures es[k].parent in m' && es[k].child in m' && m'[es[k].child] == m'[es[k].parent] + [es[k].joint]
    {
      if k < |pre| {
        assert es[k] == pre[k];
        assert pre[k].child in ChildSet(pre);
      }
    }
  }

  /** For a tree whose child map lists parents before children, the chain of
      the base is [] and each child's chain is its parent's chain followed by
      the joint between them. */
  lemma {:induction false} ChainsFollowParents(base: string, es: seq<Edge>)
    requires TreeEdges(base, es) && Chains(base, es).Ok?
    ensures ChainsConsistent(base, es, Chains(base, es).value)
    decreases |es|
  {
    if es != [] {
      var n := |es| - 1;
      var pre := es[..n];
      assert TreeEdges(base, pre);
      ChainsFollowParents(base, pre);
      ChainsKeys(base, pre);
      var e := es[n];
      assert e.child !in ChildSet(pre) by {
        forall i | 0 <= i < |pre| ensures pre[i].child != e.child {
          assert pre[i] == es[i];
        }
      }
      ChainStep(base, pre, e, Chains(base, pre).value);
      assert pre + [e] == es;
    }
  }

  /** __init__'s nested loop over the child map. */
  method BuildChains(base: string, cm: ChildMap) returns (r: Result<map<string, seq<string>>>)
    ensures r == Chains(base, Edges(cm))
  {
    var chains: map<string, seq<string>> := map[base := []];
    var i := 0;
    while i < |cm|
      invariant 0 <= i <= |cm|
      invariant Chains(base, Edges(cm[..i])) == Ok(chains)
    {
      var linkName := cm[i].0;
      var infos := cm[i].1;
      EdgesStep(cm, i);
      assert infos[..0] == [];
      assert Edges(cm[..i]) + LinkEdges(linkName, infos[..0]) == Edges(cm[..i]);
      var j := 0;
      while j < |infos|
        invariant 0 <= j <= |infos|
        invariant Chains(base, Edges(cm[..i]) + LinkEdges(linkName, infos[..j])) == Ok(chains)
      {
        ChainsSnoc(base, Edges(cm[..i]), linkName, infos, j, chains);
        if linkName !in chains {
          RestIsError(base, cm, i, linkName, infos, j + 1);
          return Err("KeyError");
        }
        chains := chains[infos[j].1 := chains[linkName] + [infos[j].0]];
        j := j + 1;
      }
      assert infos[..j] == infos;
      i := i + 1;
    }
    assert cm[..i] == cm;
    r := Ok(chains);
  }

  /** One more link of the child map adds that link's edges. */
  lemma EdgesStep(cm: ChildMap, i: nat)
    requires i < |cm|
    ensures Edges(cm[..i + 1]) == Edges(cm[..i]) + LinkEdges(cm[i].0, cm[i].1)
  {
    assert cm[..i + 1][..i] == cm[..i];
  }

  /** Processing one more entry of a link's list: a KeyError when the link
      has no chain yet, otherwise the entry's child gets the link's chain
      plus the entry's joint. */
  lemma ChainsSnoc(base: string, pre: seq<Edge>, link: string, infos: seq<(string, string)>, j: nat, chains: map<string, seq<string>>)
    requires j < |infos| && Chains(base, pre + LinkEdges(link, infos[..j])) == Ok(chains)
    ensures link !in chains ==> Chains(base, pre + LinkEdges(link, infos[..j + 1])).Err?
    ensures link in chains ==> Chains(base, pre + LinkEdges(link, infos[..j + 1])) == Ok(chains[infos[j].1 := chains[link] + [infos[j].0]])
  {
    var es := pre + LinkEdges(link, infos[..j + 1]);
    assert es[..|es| - 1] == pre + LinkEdges(link, infos[..j]);
    assert es[|es| - 1] == Edge(link, infos[j].0, infos[j].1);
  }

  /** The tail of the child map after an error does not undo it. */
  lemma RestIsError(base: string, cm: ChildMap, i: nat, linkName: string, infos: seq<(string, string)>, j: nat)
    requires i < |cm| && cm[i] == (linkName, infos) && j <= |infos|
    requires Chains(base, Edges(cm[..i]) + LinkEdges(linkName, infos[..j])).Err?
    ensures Chains(base, Edges(cm)) == Err("KeyError")
  {
    var a := Edges(cm[..i]) + LinkEdges(linkName, infos[..j]);
    var b := LinkEdges(linkName, infos[j..]) + EdgesFrom(cm, i + 1);
    EdgesSplit(cm, i, j);
    ChainsErrorPersists(base, a, b);
  }

  /** The edges of the entries from index i on. */
  function EdgesFrom(cm: ChildMap, i: nat): seq<Edge>
    requires i <= |cm|
    decreases |cm| - i
  {
    if i == |cm| then [] else LinkEdges(cm[i].0, cm[i].1) + EdgesFrom(cm, i + 1)
  }

  lemma {:induction false} EdgesAppend(cm: ChildMap, i: nat)
    requires i <= |cm|
    ensures Edges(cm) == Edges(cm[..i]) + EdgesFrom(cm, i)
    decreases |cm| - i
  {
    if i == |cm| {
      assert cm[..i] == cm;
    } else {
      EdgesAppend(cm, i + 1);
      assert cm[..i + 1][..i] == cm[..i];
    }
  }

  lemma EdgesSplit(cm: ChildMap, i: nat, j: nat)
    requires i < |cm| && j <= |cm[i].1|
    ensures Edges(cm) == Edges(cm[..i]) + LinkEdges(cm[i].0, cm[i].1[..j])
                         + (LinkEdges(cm[i].0, cm[i].1[j..]) + EdgesFrom(cm, i + 1))
  {
    EdgesAppend(cm, i);
    LinkEdgesSplit(cm[i].0, cm[i].1, j);
    Regroup(Edges(cm[..i]), LinkEdges(cm[i].0, cm[i].1[..j]), LinkEdges(cm[i].0, cm[i].1[j..]), EdgesFrom(cm, i + 1));
  }

  /** Regrouping a four-part concatenation. */
  lemma Regroup<T>(a: seq<T>, b: seq<T>, c: seq<T>, d: seq<T>)
    ensures a + ((b + c) + d) == a + b + (c + d)
  {
  }

  /** A link's edges split where its child list splits. */
  lemma LinkEdgesSplit(link: string, infos: seq<(string, string)>, j: nat)
    requires j <= |infos|
    ensures LinkEdges(link, infos) == LinkEdges(link, infos[..j]) + LinkEdges(link, infos[j..])
  {
    var l, l1, l2 := LinkEdges(link, infos), LinkEdges(link, infos[..j]), LinkEdges(link, infos[j..]);
    forall k | 0 <= k < |infos|
      ensures l[k] == (l1 + l2)[k]
    {
      if k < j {
        assert infos[..j][k] == infos[k];
      } else {
        assert infos[j..][k - j] == infos[k];
      }
    }
  }

  // ---------------------------------------------------------------------
  // Active joints, their indices and the joint limits.

  /** The non-fixed joints in URDF order (ActiveJointsComplete and
      ActiveJointsAppend state which joints and in what order). */
  function ActiveJoints(joints: seq<Joint>): (r: seq<Joint>)
    ensures |r| <= |joints|
    ensures forall k | 0 <= k < |r| :: !IsFixed(r[k]) && r[k] in joints
  {
    if joints == [] then []
    else
      var last := joints[|joints| - 1];
      ActiveJoints(joints[..|joints| - 1]) + (if IsFixed(last) then [] else [last])
  }

  /** Every joint of the URDF is active exactly when it is not fixed. */
  lemma {:induction false} ActiveJointsComplete(joints: seq<Joint>, j: Joint)
    requires j in joints
    ensures j in ActiveJoints(joints) <==> !IsFixed(j)
    decreases |joints|
  {
    var pre, last := joints[..|joints| - 1], joints[|joints| - 1];
    assert joints == pre + [last];
    var tail := if IsFixed(last) then [] else [last];
    assert ActiveJoints(joints) == ActiveJoints(pre) + tail;
    if j in pre {
      ActiveJointsComplete(pre, j);
    } else {
      assert j == last;
    }
  }

  /** The filter keeps URDF order: the active joints of a concatenation are
      those of the first part followed by those of the second. */
  lemma {:induction false} ActiveJointsAppend(a: seq<Joint>, b: seq<Joint>)
    ensures ActiveJoints(a + b) == ActiveJoints(a) + ActiveJoints(b)
    decreases |b|
  {
    if b == [] {
      assert a + b == a;
    } else {
      var pre, last := b[..|b| - 1], b[|b| - 1];
      assert b == pre + [last];
      assert a + b == (a + pre) + [last];
      ActiveJointsSnoc(a + pre, last);
      ActiveJointsSnoc(pre, last);
      ActiveJointsAppend(a, pre);
    }
  }

  /** One more joint at the end adds it exactly when it is not fixed. */
  lemma ActiveJointsSnoc(s: seq<Joint>, x: Joint)
    ensures ActiveJoints(s + [x]) == ActiveJoints(s) + (if IsFixed(x) then [] else [x])
  {
    assert (s + [x])[..|s|] == s;
  }

  /** active_joint_indices after the enumerate loop: later names overwrite. */
  function IndexMap(active: seq<Joint>): map<string, nat>
  {
    if active == [] then map[]
    else IndexMap(active[..|active| - 1])[active[|active| - 1].name := |active| - 1]
  }

  method BuildIndices(active: seq<Joint>) returns (m: map<string, nat>)
    ensures m == IndexMap(active)
  {
    m := map[];
    var i := 0;
    while i < |active|
      invariant 0 <= i <= |active|
      invariant m == IndexMap(active[..i])
    {
      assert active[..i + 1][..i] == active[..i];
      m := m[active[i].name := i];
      i := i + 1;
    }
    assert active[..i] == active;
  }

  predicate DistinctNames(js: seq<Joint>)
  {
    forall a, b | 0 <= a < b < |js| :: js[a].name != js[b].name
  }

  function Names(active: seq<Joint>): set<string>
  {
    set k | 0 <= k < |active| :: active[k].name
  }

  lemma {:induction false} IndexMapKeys(active: seq<Joint>)
    ensures IndexMap(active).Keys == Names(active)
    decreases |active|
  {
    if active != [] {
      var n := |active| - 1;
      var pre := active[..n];
      IndexMapKeys(pre);
      assert Names(active) == Names(pre) + {active[n].name} by {
        forall x | x in Names(active) ensures x in Names(pre) + {active[n].name} {
          var k :| 0 <= k < |active| && active[k].name == x;
          if k < n { assert pre[k].name == x; }
        }
        forall x | x in Names(pre) ensures x in Names(active) {
          var k :| 0 <= k < |pre| && pre[k].name == x;
          assert active[k].name == x;
        }
      }
    }
  }

  /** With distinct names the index map is a bijection from the active
      joint names onto 0..n-1. */
  lemma {:induction false} IndexMapBijection(active: seq<Joint>)
    requires DistinctNames(active)
    ensures IndexMap(active).Keys == Names(active)
    ensures forall k | 0 <= k < |active| :: IndexMap(active)[active[k].name] == k
    ensures forall name | name in IndexMap(active) :: IndexMap(active)[name] < |active| && active[IndexMap(active)[name]].name == name
    decreases |active|
  {
    IndexMapKeys(active);
    if active != [] {
      var n := |active| - 1;
      var pre := active[..n];
      assert DistinctNames(pre);
      IndexMapBijection(pre);
      IndexMapKeys(pre);
      var m := IndexMap(pre);
      forall k | 0 <= k < n
        ensures IndexMap(active)[active[k].name] == k
      {
        assert pre[k] == active[k];
      }
      forall name | name in IndexMap(active)
        ensures IndexMap(active)[name] < |active| && active[IndexMap(active)[name]].name == name
      {
        if name != active[n].name {
          assert name in m;
          assert pre[m[name]] == active[m[name]];
        }
      }
    }
  }

  /** The upper and lower limits of the revolute joints, in URDF order. */
  function Bounds(joints: seq<Joint>): (r: (seq<real>, seq<real>))
    ensures |r.0| == |r.1|
  {
    if joints == [] then ([], [])
    else
      var pre := Bounds(joints[..|joints| - 1]);
      var last := joints[|joints| - 1];
      if IsRevolute(last) then (pre.0 + [last.upper], pre.1 + [last.lower]) else pre
  }

  /** The revolute joints in URDF order. */
  function RevoluteJoints(joints: seq<Joint>): seq<Joint>
  {
    if joints == [] then []
    else
      var last := joints[|joints| - 1];
      RevoluteJoints(joints[..|joints| - 1]) + (if IsRevolute(last) then [last] else [])
  }

  /** One bound per revolute joint, taken from that joint's limits; there are
      never more bounds than active joints, and exactly as many when every
      non-fixed joint is revolute. */
  lemma {:induction false} BoundsPerRevoluteJoint(joints: seq<Joint>)
    ensures var b := Bounds(joints);
      var rev := RevoluteJoints(joints);
      && |b.0| == |rev|
      && (forall k | 0 <= k < |rev| :: b.0[k] == rev[k].upper && b.1[k] == rev[k].lower)
      && |b.0| <= |ActiveJoints(joints)|
      && ((forall k | 0 <= k < |joints| :: IsFixed(joints[k]) || IsRevolute(joints[k])) ==> |b.0| == |ActiveJoints(joints)|)
    decreases |joints|
  {
    if joints != [] {
      var pre := joints[..|joints| - 1];
      BoundsPerRevoluteJoint(pre);
      assert forall k | 0 <= k < |pre| :: pre[k] == joints[k];
    }
  }

  method BuildBounds(joints: seq<Joint>) returns (upper: seq<real>, lower: seq<real>)
    ensures (upper, lower) == Bounds(joints)
  {
    upper, lower := [], [];
    var i := 0;
    while i < |joints|
      invariant 0 <= i <= |joints|
      invariant (upper, lower) == Bounds(joints[..i])
    {
      assert joints[..i + 1][..i] == joints[..i];
      if IsRevolute(joints[i]) {
        upper := upper + [joints[i].upper];
        lower := lower + [joints[i].lower];
      }
      i := i + 1;
    }
    assert joints[..i] == joints;
  }

  // ---------------------------------------------------------------------
  // Joint transforms and forward kinematics.

  /** scipy Rotation.from_euler('xyz', ..).as_matrix() and
      Rotation.from_rotvec(..).as_matrix(). */
  datatype Rotations = Rotations(fromEuler: Vec3 -> Mat3, fromRotvec: Vec3 -> Mat3)

  const NoTranslation: Vec3 := Vec3(0.0, 0.0, 0.0)

  /** A transform whose rotation block is r and whose translation is zero. */
  function RotationOnly(r: Mat3): (m: Mat4)
    ensures Homogeneous(m) && Translation(m) == NoTranslation && Rotation(m) == r
  {
    Rigid(r, NoTranslation)
  }

  /** Right-multiplying by a pure rotation keeps the translation column and
      the bottom row [0, 0, 0, 1]. */
  lemma MulRotationKeepsTranslation(a: Mat4, r: Mat3)
    requires Homogeneous(a)
    ensures Translation(Mul(a, RotationOnly(r))) == Translation(a)
    ensures Homogeneous(Mul(a, RotationOnly(r)))
  {
    var b := RotationOnly(r);
    assert b[0][3] == 0.0 && b[1][3] == 0.0 && b[2][3] == 0.0 && b[3][3] == 1.0;
    var p := Mul(a, b);
    assert p[3] == [0.0, 0.0, 0.0, 1.0] by {
      assert forall j | 0 <= j < 4 :: b[3][j] == Delta(3, j);
      assert forall j | 0 <= j < 4 :: p[3][j] == Dot4(a, b, 3, j);
    }
  }

  /** The transform from parent to child link at the given joint angle:
      T @ R_origin for fixed joints, T @ R_origin @ R_joint for revolute
      ones, NotImplementedError for any other type. */
  function MakeTransformMat(j: Joint, angle: real, rot: Rotations): (r: Result<Mat4>)
    ensures r.Ok? <==> IsFixed(j) || IsRevolute(j)
    ensures r.Err? ==> r.error == "NotImplementedError"
    ensures r.Ok? ==> Translation(r.value) == j.origin && Homogeneous(r.value)
  {
    var t := WithTranslation(Identity(), j.origin);
    var rOrigin := if j.originRpy.Some? then RotationOnly(rot.fromEuler(j.originRpy.value)) else Identity();
    MulRotationKeepsTranslation(t, if j.originRpy.Some? then rot.fromEuler(j.originRpy.value) else Rotation(Identity()));
    assert Identity() == RotationOnly(Rotation(Identity())) by {
      Ext(Identity(), RotationOnly(Rotation(Identity())));
    }
    var base := Mul(t, rOrigin);
    if IsFixed(j) then Ok(base)
    else if IsRevolute(j) then
      MulRotationKeepsTranslation(base, rot.fromRotvec(Scale(angle, j.axis)));
      Ok(Mul(base, RotationOnly(rot.fromRotvec(Scale(angle, j.axis)))))
    else Err("NotImplementedError")
  }

  /** A fixed joint's transform does not depend on the angle. */
  lemma FixedIgnoresAngle(j: Joint, angle: real, rot: Rotations)
    requires IsFixed(j)
    ensures MakeTransformMat(j, angle, rot) == MakeTransformMat(j, 0.0, rot)
  {
  }

  /** What forward kinematics reads besides the joint angles. */
  datatype Model = Model(
    chains: map<string, seq<string>>,
    jointMap: map<string, Joint>,
    indices: map<string, nat>,
    rot: Rotations)

  /** The angle used for one joint: 0 for fixed joints, otherwise the entry
      of the angle vector at the joint's active index. */
  function JointAngle(model: Model, j: Joint, angles: seq<real>): (r: Result<real>)
    ensures IsFixed(j) ==> r == Ok(0.0)
  {
    if IsFixed(j) then Ok(0.0)
    else if j.name !in model.indices then Err("KeyError")
    else if model.indices[j.name] >= |angles| then Err("IndexError")
    else Ok(angles[model.indices[j.name]])
  }

  /** The product of the joint transforms along a chain, left to right. */
  function ChainTransform(model: Model, chain: seq<string>, angles: seq<real>): (r: Result<Mat4>)
  {
    if chain == [] then Ok(Identity())
    else
      match ChainTransform(model, chain[..|chain| - 1], angles)
      case Err(e) => Err(e)
      case Ok(mat) =>
        var name := chain[|chain| - 1];
        if name !in model.jointMap then Err("KeyError")
        else
          match JointAngle(model, model.jointMap[name], angles)
          case Err(e) => Err(e)
          case Ok(a) =>
            match MakeTransformMat(model.jointMap[name], a, model.rot)
            case Err(e) => Err(e)
            case Ok(t) => Ok(Mul(mat, t))
  }

  /** A chain made only of fixed joints gives the same transform whatever
      the joint angles are. */
  lemma {:induction false} FixedChainIgnoresAngles(model: Model, chain: seq<string>, a1: seq<real>, a2: seq<real>)
    requires forall k | 0 <= k < |chain| :: chain[k] in model.jointMap && IsFixed(model.jointMap[chain[k]])
    ensures ChainTransform(model, chain, a1) == ChainTransform(model, chain, a2)
    decreases |chain|
  {
    if chain != [] {
      FixedChainIgnoresAngles(model, chain[..|chain| - 1], a1, a2);
    }
  }

  /** forward_kinematics: one transform per end-effector link, in order. */
  function ForwardKinematics(model: Model, eeLinks: seq<string>, angles: seq<real>): (r: Result<seq<Mat4>>)
  {
    if eeLinks == [] then Ok([])
    else
      match ForwardKinematics(model, eeLinks[..|eeLinks| - 1], angles)
      case Err(e) => Err(e)
      case Ok(res) =>
        var ee := eeLinks[|eeLinks| - 1];
        if ee !in model.chains then Err("KeyError")
        else
          match ChainTransform(model, model.chains[ee], angles)
          case Err(e) => Err(e)
          case Ok(mat) => Ok(res + [mat])
  }

  /** A successful forward kinematics returns exactly one matrix per
      end-effector link, each the product along that link's chain. */
  lemma {:induction false} ForwardKinematicsPerLink(model: Model, eeLinks: seq<string>, angles: seq<real>)
    requires ForwardKinematics(model, eeLinks, angles).Ok?
    ensures var res := ForwardKinematics(model, eeLinks, angles).value;
      && |res| == |eeLinks|
      && forall k | 0 <= k < |eeLinks| :: eeLinks[k] in model.chains
           && ChainTransform(model, model.chains[eeLinks[k]], angles) == Ok(res[k])
    decreases |eeLinks|
  {
    if eeLinks != [] {
      var pre := eeLinks[..|eeLinks| - 1];
      ForwardKinematicsPerLink(model, pre, angles);
      assert forall k | 0 <= k < |pre| :: pre[k] == eeLinks[k];
    }
  }

  // ---------------------------------------------------------------------
  // Residuals, the sparsity mask and the warm-started solve.

  function Column(m: Mat4, j: nat): Vec3
    requires j < 4
  {
    Vec3(m[0][j], m[1][j], m[2][j])
  }

  function Dot(u: Vec3, v: Vec3): real
  {
    u.x * v.x + u.y * v.y + u.z * v.z
  }

  /** arccos of the clipped dot product: the angle between two directions. */
  function AngleOff(u: Vec3, v: Vec3, arccos: real -> real): real
  {
    arccos(Clip(Dot(u, v), -1.0, 1.0))
  }

  /** The 10 residuals for the (right, left) end effectors against the
      (right, left) targets: two position errors and four weighted angles. */
  function Residuals(ee: seq<Mat4>, targets: seq<Mat4>, arccos: real -> real): (r: seq<real>)
    requires |ee| >= 2 && |targets| >= 2
    ensures |r| == 10
    ensures r[0] == ee[0][0][3] - targets[0][0][3] && r[1] == ee[0][1][3] - targets[0][1][3] && r[2] == ee[0][2][3] - targets[0][2][3]
    ensures r[3] == ee[1][0][3] - targets[1][0][3] && r[4] == ee[1][1][3] - targets[1][1][3] && r[5] == ee[1][2][3] - targets[1][2][3]
    // right forward: -z of the end effector against -z of the target
    ensures r[6] == 0.1 * AngleOff(Neg(Column(ee[0], 2)), Neg(Column(targets[0], 2)), arccos)
    // right up: -y of the end effector against +y of the target
    ensures r[7] == 0.1 * AngleOff(Neg(Column(ee[0], 1)), Column(targets[0], 1), arccos)
    // left forward: +z of the end effector against -z of the target
    ensures r[8] == 0.1 * AngleOff(Column(ee[1], 2), Neg(Column(targets[1], 2)), arccos)
    // left up: +y of the end effector against +y of the target
    ensures r[9] == 0.1 * AngleOff(Column(ee[1], 1), Column(targets[1], 1), arccos)
  {
    var rightForward := AngleOff(Neg(Column(ee[0], 2)), Neg(Column(targets[0], 2)), arccos);
    var leftForward := AngleOff(Column(ee[1], 2), Neg(Column(targets[1], 2)), arccos);
    var rightUp := AngleOff(Neg(Column(ee[0], 1)), Column(targets[0], 1), arccos);
    var leftUp := AngleOff(Column(ee[1], 1), Column(targets[1], 1), arccos);
    var rp := Sub(Translation(ee[0]), Translation(targets[0]));
    var lp := Sub(Translation(ee[1]), Translation(targets[1]));
    [rp.x, rp.y, rp.z, lp.x, lp.y, lp.z, 0.1 * rightForward, 0.1 * rightUp, 0.1 * leftForward, 0.1 * leftUp]
  }

  /** The clipped dot products handed to arccos always lie in [-1, 1]. */
  lemma AngleArgumentInDomain(u: Vec3, v: Vec3)
    ensures -1.0 <= Clip(Dot(u, v), -1.0, 1.0) <= 1.0
  {
  }

  /** At the targets the position residuals vanish, and the angle residuals
      depend only on the orientation columns. */
  lemma ResidualsAtTarget(targets: seq<Mat4>, arccos: real -> real)
    requires |targets| >= 2
    ensures Residuals(targets, targets, arccos)[..6] == [0.0, 0.0, 0.0, 0.0, 0.0, 0.0]
  {
  }

  /** With unit orientation columns, an end effector sitting exactly on its
      target is not at the angle minimum: the right up and left forward
      residuals compare a column with its own negation and take arccos(-1),
      while the right forward and left up residuals take arccos(1). */
  lemma ResidualAnglesAtTarget(targets: seq<Mat4>, arccos: real -> real)
    requires |targets| >= 2
    requires Dot(Column(targets[0], 1), Column(targets[0], 1)) == 1.0
    requires Dot(Column(targets[0], 2), Column(targets[0], 2)) == 1.0
    requires Dot(Column(targets[1], 1), Column(targets[1], 1)) == 1.0
    requires Dot(Column(targets[1], 2), Column(targets[1], 2)) == 1.0
    ensures var r := Residuals(targets, targets, arccos);
      r[6] == 0.1 * arccos(1.0) && r[7] == 0.1 * arccos(-1.0)
      && r[8] == 0.1 * arccos(-1.0) && r[9] == 0.1 * arccos(1.0)
  {
    var r := Residuals(targets, targets, arccos);
    var rz, ry := Column(targets[0], 2), Column(targets[0], 1);
    var lz, ly := Column(targets[1], 2), Column(targets[1], 1);
    NegDot(rz, rz);
    NegDot(ry, ry);
    NegDot(lz, lz);
    assert Dot(Neg(rz), Neg(rz)) == 1.0;
    assert Dot(Neg(ry), ry) == -1.0;
    assert Dot(lz, Neg(lz)) == -1.0;
  }

  /** Negating one side of a dot product negates it; negating both keeps it. */
  lemma NegDot(u: Vec3, v: Vec3)
    ensures Dot(Neg(u), v) == -Dot(u, v) && Dot(u, Neg(v)) == -Dot(u, v)
    ensures Dot(Neg(u), Neg(v)) == Dot(u, v)
  {
  }

  /** Entry (row, col) of the Jacobian sparsity mask for n joints, assuming
      even columns are right-arm joints and odd columns left-arm joints. */
  function MaskEntry(row: nat, col: nat): real
  {
    if row < 3 && col % 2 == 0 && col < 8 then 1.0           // [:3, :8:2]
    else if 6 <= row < 8 && col % 2 == 0 then 1.0            // [6:8, ::2]
    else if 3 <= row < 6 && col % 2 == 1 && col < 9 then 1.0 // [3:6, 1:9:2]
    else if 8 <= row < 10 && col % 2 == 1 then 1.0           // [8:10, 1::2]
    else 0.0
  }

  function SparsityMask(n: nat): (r: seq<seq<real>>)
    ensures |r| == 10 && forall row | 0 <= row < 10 :: |r[row]| == n
    ensures forall row, col | 0 <= row < 10 && 0 <= col < n :: r[row][col] == MaskEntry(row, col)
  {
    seq(10, row requires 0 <= row => seq(n, col requires 0 <= col => MaskEntry(row, col)))
  }

  /** Right rows (0-2, 6-7) mark only even columns and left rows (3-5, 8-9)
      only odd ones; the position rows never mark columns 8 or 9. */
  lemma MaskSeparatesArms(n: nat)
    ensures var mask := SparsityMask(n);
      && (forall row, col | 0 <= row < 10 && 0 <= col < n && mask[row][col] == 1.0 ::
            (row < 3 || 6 <= row < 8) <==> col % 2 == 0)
      && (forall row, col | 0 <= row < 6 && 8 <= col < n :: mask[row][col] == 0.0)
  {
  }

  /** Under the halves split used by the teleoperation cores (joints 0-4
      right, 5-9 left) the mask gives the right position rows no dependence
      on the right arm's second joint, and makes them depend on the left
      arm's second joint. */
  lemma MaskDisagreesWithHalvesSplit()
    ensures var mask := SparsityMask(10);
      mask[0][1] == 0.0 && mask[0][6] == 1.0
  {
  }

  /** urdf.joint_map: each joint under its name, a later joint overwriting an
      earlier one of the same name (as the URDF parser fills it while
      reading the joints in order). */
  function JointMapOf(joints: seq<Joint>): (r: map<string, Joint>)
    ensures forall k | 0 <= k < |joints| :: joints[k].name in r
    ensures forall name | name in r :: r[name] in joints && r[name].name == name
  {
    if joints == [] then map[]
    else
      var pre := joints[..|joints| - 1];
      var last := joints[|joints| - 1];
      assert forall k | 0 <= k < |pre| :: pre[k] == joints[k];
      JointMapOf(pre)[last.name := last]
  }

  /** The least-squares solve: (initial guess, targets) to a solution. */
  type Solver = (seq<real>, seq<Mat4>) -> seq<real>

  /** The solver wrapper. `solver` is None until the set-up step runs. */
  class RobotInverseKinematics {
    const model: Model
    const eeLinks: seq<string>
    const activeJoints: seq<Joint>
    const upperBounds: seq<real>
    const lowerBounds: seq<real>
    var solver: Option<Solver>
    var lastSolution: seq<real>

    /** The fields __init__ leaves behind once the chain map is built: the
        joint map, the non-fixed joints and their indices, and the revolute
        limits all come from the URDF joints; the solver set-up is never
        called, so no solver is installed. */
    constructor(joints: seq<Joint>, chains: map<string, seq<string>>, eeLinks: seq<string>, rot: Rotations)
      ensures model == Model(chains, JointMapOf(joints), IndexMap(ActiveJoints(joints)), rot)
      ensures this.eeLinks == eeLinks
      ensures activeJoints == ActiveJoints(joints)
      ensures (upperBounds, lowerBounds) == Bounds(joints)
      ensures solver.None?
      ensures lastSolution == Zeros(|ActiveJoints(joints)|)
    {
      var active := ActiveJoints(joints);
      var indices := BuildIndices(active);
      var upper, lower := BuildBounds(joints);
      model := Model(chains, JointMapOf(joints), indices, rot);
      this.eeLinks := eeLinks;
      activeJoints := active;
      upperBounds := upper;
      lowerBounds := lower;
      solver := None;
      lastSolution := Zeros(|active|);
    }

    /** __init__ on a parsed URDF: build the chain map from the child map
        (a KeyError when a parent link is met before its own chain), then
        the remaining fields. */
    static method Create(joints: seq<Joint>, cm: ChildMap, base: string, eeLinks: seq<string>, rot: Rotations)
      returns (r: Result<RobotInverseKinematics>)
      ensures r.Err? <==> Chains(base, Edges(cm)).Err?
      ensures r.Err? ==> r.error == Chains(base, Edges(cm)).error
      ensures r.Ok? ==>
        && fresh(r.value)
        && r.value.model == Model(Chains(base, Edges(cm)).value, JointMapOf(joints), IndexMap(ActiveJoints(joints)), rot)
        && r.value.eeLinks == eeLinks
        && r.value.activeJoints == ActiveJoints(joints)
        && (r.value.upperBounds, r.value.lowerBounds) == Bounds(joints)
        && r.value.solver.None?
        && r.value.lastSolution == Zeros(|ActiveJoints(joints)|)
    {
      var chains := BuildChains(base, cm);
      if chains.Err? {
        return Err(chains.error);
      }
      var ik := new RobotInverseKinematics(joints, chains.value, eeLinks, rot);
      r := Ok(ik);
    }

    /** forward_kinematics(joint_angles), as the nested loop. */
    method ForwardKinematicsLoop(angles: seq<real>) returns (r: Result<seq<Mat4>>)
      ensures r == ForwardKinematics(model, eeLinks, angles)
    {
      var res: seq<Mat4> := [];
      var i := 0;
      while i < |eeLinks|
        invariant 0 <= i <= |eeLinks|
        invariant ForwardKinematics(model, eeLinks[..i], angles) == Ok(res)
      {
        assert eeLinks[..i + 1][..i] == eeLinks[..i];
        var ee := eeLinks[i];
        if ee !in model.chains {
          FkErrorPersists(model, eeLinks, i + 1, angles);
          return Err("KeyError");
        }
        var chain := model.chains[ee];
        var mat := ChainTransformLoop(chain, angles);
        if mat.Err? {
          assert chain != [];
          assert chain[..|chain|] == chain;
          ChainErrorToFk(model, eeLinks, i, chain, |chain|, angles);
          return Err(mat.error);
        }
        res := res + [mat.value];
        i := i + 1;
      }
      assert eeLinks[..i] == eeLinks;
      r := Ok(res);
    }

    /** The inner loop of forward_kinematics: the product of the joint
        transforms along one chain, starting from the identity. */
    method ChainTransformLoop(chain: seq<string>, angles: seq<real>) returns (r: Result<Mat4>)
      ensures r == ChainTransform(model, chain, angles)
    {
      var mat := Identity();
      var k := 0;
      while k < |chain|
        invariant 0 <= k <= |chain|
        invariant ChainTransform(model, chain[..k], angles) == Ok(mat)
      {
        assert chain[..k + 1][..k] == chain[..k];
        var name := chain[k];
        if name !in model.jointMap {
          ChainErrorPersists(model, chain, k + 1, angles);
          return Err("KeyError");
        }
        var angle := JointAngle(model, model.jointMap[name], angles);
        if angle.Err? {
          ChainErrorPersists(model, chain, k + 1, angles);
          return Err(angle.error);
        }
        var t := MakeTransformMat(model.jointMap[name], angle.value, model.rot);
        if t.Err? {
          ChainErrorPersists(model, chain, k + 1, angles);
          return Err(t.error);
        }
        mat := Mul(mat, t.value);
        k := k + 1;
      }
      assert chain[..k] == chain;
      r := Ok(mat);
    }

    /** _setup_ik_solver's effect: a solver is installed. */
    method SetupIkSolver(solve: Solver)
      modifies this
      ensures solver == Some(solve) && lastSolution == old(lastSolution)
    {
      solver := Some(solve);
    }

    /** inverse_kinematics: solve from the previous solution and keep the
        result as the next warm start. Without an installed solver the
        attribute lookup raises AttributeError and nothing changes. */
    method InverseKinematics(targets: seq<Mat4>) returns (r: Result<seq<real>>)
      modifies this
      ensures solver == old(solver)
      ensures old(solver).None? ==> r == Err("AttributeError") && lastSolution == old(lastSolution)
      ensures old(solver).Some? ==> r == Ok(old(solver).value(old(lastSolution), targets)) && lastSolution == r.value
    {
      if solver.None? {
        return Err("AttributeError");
      }
      var opt := solver.value(lastSolution, targets);
      lastSolution := opt;
      r := Ok(opt);
    }
  }

  /** The outcome of one inverse_kinematics call on (solver, warm start). */
  function IkCall(solver: Option<Solver>, last: seq<real>, targets: seq<Mat4>): (r: (Result<seq<real>>, seq<real>))
    ensures solver.None? ==> r == (Err("AttributeError"), last)
    ensures solver.Some? ==> r.0.Ok? && r.1 == r.0.value
  {
    match solver
    case None => (Err("AttributeError"), last)
    case Some(solve) => var x := solve(last, targets); (Ok(x), x)
  }

  /** As written, every solve on a freshly built wrapper raises. */
  lemma FreshWrapperCannotSolve(last: seq<real>, targets: seq<Mat4>)
    ensures IkCall(None, last, targets).0 == Err("AttributeError")
  {
  }

  /** With the solver installed, two calls chain: the second starts from
      the first's answer. */
  lemma InstalledSolverWarmStarts(solve: Solver, last: seq<real>, t1: seq<Mat4>, t2: seq<Mat4>)
    ensures var first := IkCall(Some(solve), last, t1);
      var second := IkCall(Some(solve), first.1, t2);
      second.0 == Ok(solve(first.0.value, t2))
  {
  }

  lemma FkErrorPersists(model: Model, eeLinks: seq<string>, i: nat, angles: seq<real>)
    requires 0 < i <= |eeLinks|
    requires ForwardKinematics(model, eeLinks[..i], angles).Err?
    ensures ForwardKinematics(model, eeLinks, angles) == ForwardKinematics(model, eeLinks[..i], angles)
    decreases |eeLinks| - i
  {
    if i < |eeLinks| {
      assert eeLinks[..i + 1][..i] == eeLinks[..i];
      FkErrorPersists(model, eeLinks, i + 1, angles);
    } else {
      assert eeLinks[..i] == eeLinks;
    }
  }

  lemma ChainErrorPersists(model: Model, chain: seq<string>, k: nat, angles: seq<real>)
    requires 0 < k <= |chain|
    requires ChainTransform(model, chain[..k], angles).Err?
    ensures ChainTransform(model, chain, angles) == ChainTransform(model, chain[..k], angles)
    decreases |chain| - k
  {
    if k < |chain| {
      assert chain[..k + 1][..k] == chain[..k];
      ChainErrorPersists(model, chain, k + 1, angles);
    } else {
      assert chain[..k] == chain;
    }
  }

  lemma ChainErrorToFk(model: Model, eeLinks: seq<string>, i: nat, chain: seq<string>, k: nat, angles: seq<real>)
    requires i < |eeLinks| && eeLinks[i] in model.chains && model.chains[eeLinks[i]] == chain
    requires 0 < k <= |chain| && ChainTransform(model, chain[..k], angles).Err?
    requires ForwardKinematics(model, eeLinks[..i], angles).Ok?
    ensures ForwardKinematics(model, eeLinks, angles) == Err(ChainTransform(model, chain[..k], angles).error)
  {
    ChainErrorPersists(model, chain, k, angles);
    assert eeLinks[..i + 1][..i] == eeLinks[..i];
    FkErrorPersists(model, eeLinks, i + 1, angles);
  }
}
