/** The robot-model loader's path handling: mesh file names in the URDF text
    are made absolute against the file's directory, ROS package and file
    URIs are resolved, and each link is logged under the path of link names
    from the root. */
module RerunLoaderUrdf {
  import opened Common

  const PackageScheme: string := "package://"
  const FileScheme: string := "file://"

  /** The attribute opening every mesh and texture reference. */
  const FilenameAttr: string := "filename=\""

  // ---------------------------------------------------------------------
  // Strings and POSIX paths
  // ---------------------------------------------------------------------

  /** s.split("/"): always at least one piece. */
  function Split(s: string): (r: seq<string>)
    ensures |r| >= 1
  {
    if s == [] then [""]
    else
      var rest := Split(s[1..]);
      if s[0] == '/' then [""] + rest else [[s[0]] + rest[0]] + rest[1..]
  }

  /** A path component as pathlib keeps it: not empty, not ".", no slash. */
  predicate Segment(p: string)
  {
    p != "" && p != "." && '/' !in p
  }

  /** The pieces pathlib keeps: empty pieces and "." are dropped. */
  function Clean(pieces: seq<string>): (r: seq<string>)
    ensures |r| <= |pieces|
  {
    if pieces == [] then []
    else if pieces[0] == "" || pieces[0] == "." then Clean(pieces[1..])
    else [pieces[0]] + Clean(pieces[1..])
  }

  /** Path(s).parts without the root. */
  function Components(s: string): seq<string>
  {
    Clean(Split(s))
  }

  /** The root pathlib keeps: exactly two leading slashes stay two, one or
      three and more become one. */
  function Root(s: string): string
  {
    if StartsWith(s, "//") && !StartsWith(s, "///") then "//"
    else if StartsWith(s, "/") then "/"
    else ""
  }

  /** str() of a path with this root and these components. */
  function PathStr(root: string, parts: seq<string>): string
  {
    if root == "" && parts == [] then "." else root + Join(parts, "/")
  }

  /** Splitting a string with no slash gives it back whole. */
  lemma {:induction false} SplitNoSlash(a: string)
    requires '/' !in a
    ensures Split(a) == [a]
  {
    if a != [] {
      assert '/' !in a[1..];
      SplitNoSlash(a[1..]);
      assert [a[0]] + a[1..] == a;
    }
  }

  /** A slash-free head splits off as the first piece. */
  lemma {:induction false} SplitHead(a: string, b: string)
    requires '/' !in a
    ensures Split(a + "/" + b) == [a] + Split(b)
  {
    if a == [] {
      assert a + "/" + b == ['/'] + b;
      assert (['/'] + b)[1..] == b;
    } else {
      assert (a + "/" + b)[1..] == a[1..] + "/" + b;
      assert '/' !in a[1..];
      SplitHead(a[1..], b);
      assert [a[0]] + a[1..] == a;
    }
  }

  /** Joining with "/" and splitting again gives the pieces back when no
      piece holds a slash. */
  lemma {:induction false} SplitJoin(parts: seq<string>)
    requires |parts| >= 1
    requires forall i | 0 <= i < |parts| :: '/' !in parts[i]
    ensures Split(Join(parts, "/")) == parts
  {
    if |parts| == 1 {
      SplitNoSlash(parts[0]);
    } else {
      SplitJoin(parts[1..]);
      SplitHead(parts[0], Join(parts[1..], "/"));
    }
  }

  /** Cleaning leaves proper components as they are. */
  lemma {:induction false} CleanSegments(parts: seq<string>)
    requires forall i | 0 <= i < |parts| :: Segment(parts[i])
    ensures Clean(parts) == parts
  {
    if parts != [] {
      CleanSegments(parts[1..]);
    }
  }

  /** The components of a joined relative path are its segments. */
  lemma ComponentsOfJoin(parts: seq<string>)
    requires |parts| >= 1
    requires forall i | 0 <= i < |parts| :: Segment(parts[i])
    ensures Components(Join(parts, "/")) == parts
  {
    SplitJoin(parts);
    CleanSegments(parts);
  }

  /** Cleaning distributes over concatenation. */
  lemma {:induction false} CleanAppend(a: seq<string>, b: seq<string>)
    ensures Clean(a + b) == Clean(a) + Clean(b)
  {
    if a == [] {
      assert a + b == b;
    } else {
      assert (a + b)[1..] == a[1..] + b;
      CleanAppend(a[1..], b);
    }
  }

  // ---------------------------------------------------------------------
  // resolve_ros_path
  // ---------------------------------------------------------------------

  /** ROS package lookup: the ROS 1 package index and the ROS 2 ament index,
      each giving a directory or nothing. */
  datatype PackageIndex = PackageIndex(ros1: string -> Option<string>, ros2: string -> Option<string>)

  /** `resolve_ros1_package(name) or resolve_ros2_package(name)`: an empty
      ROS 1 answer is falsy and also falls through. */
  function PackageDir(index: PackageIndex, name: string): (r: Option<string>)
    ensures index.ros1(name).Some? && index.ros1(name).value != "" ==> r == index.ros1(name)
    ensures r == index.ros1(name) || r == index.ros2(name)
    ensures r.None? ==> index.ros2(name).None?
  {
    var first := index.ros1(name);
    if first.Some? && first.value != "" then first else index.ros2(name)
  }

  /** resolve_ros_path: a package URI is resolved through the index, a file
      URI loses its scheme, and anything else is returned as it is. */
  function ResolveRosPath(path: string, index: PackageIndex): (r: Result<string>)
    ensures !StartsWith(path, PackageScheme) && StartsWith(path, FileScheme) ==> r == Ok(path[|FileScheme|..])
    ensures !StartsWith(path, PackageScheme) && !StartsWith(path, FileScheme) ==> r == Ok(path)
    ensures r.Err? ==> StartsWith(path, PackageScheme) && (r.error == "ValueError" || r.error == "IndexError")
  {
    if StartsWith(path, PackageScheme) then
      var parts := Components(path);
      if |parts| < 2 then Err("IndexError")
      else
        var dir := PackageDir(index, parts[1]);
        if dir.None? then Err("ValueError")
        else Ok(PathStr(Root(dir.value), Components(dir.value) + parts[2..]))
    else if StartsWith(path, FileScheme) then Ok(path[|FileScheme|..])
    else Ok(path)
  }

  /** A file URI is stripped of exactly its scheme: putting it back gives
      the URI again. */
  lemma FileUriStripped(rest: string, index: PackageIndex)
    ensures ResolveRosPath(FileScheme + rest, index) == Ok(rest)
  {
    assert !StartsWith(FileScheme + rest, PackageScheme) by {
      assert (FileScheme + rest)[0] == 'f';
    }
    assert (FileScheme + rest)[|FileScheme|..] == rest;
  }

  /** A leading slash splits off an empty piece. */
  lemma SlashPrefix(t: string)
    ensures Split("/" + t) == [""] + Split(t)
  {
    assert "/" + t == "" + "/" + t;
    SplitHead("", t);
  }

  /** The scheme of a package URI is the component "package:". */
  lemma PackageComponents(tail: string)
    ensures Components(PackageScheme + tail) == ["package:"] + Components(tail)
  {
    assert PackageScheme + tail == "package:" + "/" + ("/" + tail);
    SplitHead("package:", "/" + tail);
    SlashPrefix(tail);
    assert Split(PackageScheme + tail) == ["package:", ""] + Split(tail);
    CleanAppend(["package:", ""], Split(tail));
  }

  /** A package URI starts with the package scheme. */
  lemma HasPackageScheme(tail: string)
    ensures StartsWith(PackageScheme + tail, PackageScheme)
  {
    assert (PackageScheme + tail)[..|PackageScheme|] == PackageScheme;
  }

  /** A segment followed by segments is a list of segments. */
  lemma SegmentsCons(pkg: string, rel: seq<string>)
    requires Segment(pkg) && forall i | 0 <= i < |rel| :: Segment(rel[i])
    ensures forall i | 0 <= i < |[pkg] + rel| :: Segment(([pkg] + rel)[i])
  {
    forall i | 0 <= i < |[pkg] + rel|
      ensures Segment(([pkg] + rel)[i])
    {
      if i > 0 {
        assert ([pkg] + rel)[i] == rel[i - 1];
      }
    }
  }

  /** package://pkg/a/b/... splits into "package:", pkg and the relative
      segments. */
  lemma PackageUriParts(pkg: string, rel: seq<string>)
    requires Segment(pkg) && forall i | 0 <= i < |rel| :: Segment(rel[i])
    ensures Components(PackageScheme + Join([pkg] + rel, "/")) == ["package:", pkg] + rel
  {
    SegmentsCons(pkg, rel);
    ComponentsOfJoin([pkg] + rel);
    PackageComponents(Join([pkg] + rel, "/"));
    ConsPair("package:", pkg, rel);
  }

  /** [a] + ([b] + t) is [a, b] + t. */
  lemma ConsPair(a: string, b: string, t: seq<string>)
    ensures [a] + ([b] + t) == [a, b] + t
  {
  }

  /** For package://pkg/a/b/..., the result is the package directory with
      the relative segments appended; without a directory for pkg the call
      raises ValueError. */
  lemma PackageUriResolved(pkg: string, rel: seq<string>, index: PackageIndex)
    requires Segment(pkg) && forall i | 0 <= i < |rel| :: Segment(rel[i])
    ensures var path := PackageScheme + Join([pkg] + rel, "/");
      var dir := PackageDir(index, pkg);
      && (dir.None? ==> ResolveRosPath(path, index) == Err("ValueError"))
      && (dir.Some? ==> ResolveRosPath(path, index) == Ok(PathStr(Root(dir.value), Components(dir.value) + rel)))
  {
    HasPackageScheme(Join([pkg] + rel, "/"));
    PackageUriParts(pkg, rel);
    var parts := Components(PackageScheme + Join([pkg] + rel, "/"));
    assert parts[1] == pkg && parts[2..] == rel;
  }

  /** A leading slash adds no component. */
  lemma SlashComponents(t: string)
    ensures Components("/" + t) == Components(t)
  {
    SlashPrefix(t);
    CleanAppend([""], Split(t));
  }

  /** One slash before a non-slash is a single root. */
  lemma SingleRoot(t: string)
    requires t != [] && t[0] != '/'
    ensures Root("/" + t) == "/"
  {
    var d := "/" + t;
    assert d[..1] == "/";
    assert d[..2] != "//" by {
      assert d[1] == t[0];
    }
  }

  /** An absolute directory made of clean segments keeps its single root and
      its segments, so a package found there resolves to that directory
      joined with the rest. */
  lemma CleanDirectory(dirParts: seq<string>)
    requires |dirParts| >= 1 && forall i | 0 <= i < |dirParts| :: Segment(dirParts[i])
    ensures var dir := "/" + Join(dirParts, "/");
      Root(dir) == "/" && Components(dir) == dirParts
  {
    var t := Join(dirParts, "/");
    SlashComponents(t);
    ComponentsOfJoin(dirParts);
    JoinHead(dirParts);
    assert t[0] != '/' by {
      assert t[0] == dirParts[0][0];
      assert dirParts[0][0] in dirParts[0];
    }
    SingleRoot(t);
  }

  /** A join of clean segments starts with the first one. */
  lemma JoinHead(parts: seq<string>)
    requires |parts| >= 1 && Segment(parts[0])
    ensures |Join(parts, "/")| >= 1 && Join(parts, "/")[0] == parts[0][0]
  {
  }

  // ---------------------------------------------------------------------
  // The filename rewrite in the constructor
  // ---------------------------------------------------------------------

  /** str.replace: occurrences of pat, left to right and not overlapping,
      become repl. */
  function Replace(s: string, pat: string, repl: string): string
    requires pat != ""
    decreases |s|
  {
    if s == [] then []
    else if StartsWith(s, pat) then repl + Replace(s[|pat|..], pat, repl)
    else [s[0]] + Replace(s[1..], pat, repl)
  }

  /** How many occurrences str.replace rewrites. */
  function Occurrences(s: string, pat: string): nat
    requires pat != ""
    decreases |s|
  {
    if s == [] then 0
    else if StartsWith(s, pat) then 1 + Occurrences(s[|pat|..], pat)
    else Occurrences(s[1..], pat)
  }

  /** The text the URDF parser is given: every `filename="` now continues
      with the absolute directory of the URDF file and a slash. */
  function LoadedContents(contents: string, parentDir: string): string
  {
    Replace(contents, FilenameAttr, FilenameAttr + parentDir + "/")
  }

  /** Each rewritten reference grows by the directory and its slash, and
      nothing else changes length. */
  lemma {:induction false} RewriteLength(s: string, pat: string, insert: string)
    requires pat != ""
    ensures |Replace(s, pat, pat + insert)| == |s| + |insert| * Occurrences(s, pat)
    decreases |s|
  {
    if s != [] {
      if StartsWith(s, pat) {
        var rest := s[|pat|..];
        RewriteLength(rest, pat, insert);
        var k := Occurrences(rest, pat);
        assert Occurrences(s, pat) == 1 + k;
        Distribute(|insert|, k);
        assert |Replace(s, pat, pat + insert)| == |pat| + |insert| + |Replace(rest, pat, pat + insert)|;
      } else {
        RewriteLength(s[1..], pat, insert);
      }
    }
  }

  /** a (1 + k) = a + a k. */
  lemma Distribute(a: nat, k: nat)
    ensures a * (1 + k) == a + a * k
  {
  }

  /** Text without the attribute is left as it is. */
  lemma {:induction false} NoAttributeUnchanged(s: string, pat: string, repl: string)
    requires pat != "" && !Contains(s, pat)
    ensures Replace(s, pat, repl) == s && Occurrences(s, pat) == 0
    decreases |s|
  {
    if s != [] {
      NoAttributeUnchanged(s[1..], pat, repl);
    }
  }

  /** Every reference is rewritten: the text before an attribute is kept,
      the attribute gains the directory, and the rest is rewritten alike. */
  lemma {:induction false} RewriteAttribute(before: string, after: string, insert: string)
    requires !Contains(before + FilenameAttr[..|FilenameAttr| - 1], FilenameAttr)
    ensures Replace(before + FilenameAttr + after, FilenameAttr, FilenameAttr + insert)
      == before + FilenameAttr + insert + Replace(after, FilenameAttr, FilenameAttr + insert)
    decreases |before|
  {
    var s := before + FilenameAttr + after;
    if before == [] {
      assert s[..|FilenameAttr|] == FilenameAttr;
      assert s[|FilenameAttr|..] == after;
    } else {
      var t := before + FilenameAttr[..|FilenameAttr| - 1];
      assert s[..|FilenameAttr|] == t[..|FilenameAttr|];
      assert s[1..] == before[1..] + FilenameAttr + after;
      assert t[1..] == before[1..] + FilenameAttr[..|FilenameAttr| - 1];
      RewriteAttribute(before[1..], after, insert);
    }
  }

  /** After the rewrite every reference starts with the URDF's absolute
      directory, so resolve_ros_path hands it back unchanged: a package or
      file URI in the URDF reaches the mesh loader as a path below that
      directory. */
  lemma RewrittenReferenceUnresolved(parentDir: string, value: string, index: PackageIndex)
    requires parentDir != [] && parentDir[0] == '/'
    ensures ResolveRosPath(parentDir + "/" + value, index) == Ok(parentDir + "/" + value)
  {
    var p := parentDir + "/" + value;
    assert p[0] == '/';
    assert !StartsWith(p, PackageScheme) by { assert PackageScheme[0] == 'p'; }
    assert !StartsWith(p, FileScheme) by { assert FileScheme[0] == 'f'; }
  }

  // ---------------------------------------------------------------------
  // Entity paths
  // ---------------------------------------------------------------------

  /** xs[0::2]. */
  function Evens<T>(xs: seq<T>): (r: seq<T>)
  {
    if |xs| <= 2 then (if xs == [] then [] else [xs[0]]) else [xs[0]] + Evens(xs[2..])
  }

  /** xs[0::2] holds the items at even positions, in order. */
  lemma {:induction false} EvensAt<T>(xs: seq<T>)
    ensures |Evens(xs)| == (|xs| + 1) / 2
    ensures forall i | 0 <= i < |Evens(xs)| :: Evens(xs)[i] == xs[2 * i]
  {
    if |xs| > 2 {
      EvensAt(xs[2..]);
    }
  }

  /** The parsed robot model as the entity paths need it: its root link,
      and get_chain(root, name), the alternating link and joint names from
      the root down to a link. */
  datatype Urdf = Urdf(root: string, chain: string -> seq<string>)

  datatype Joint = Joint(name: string, child: string)

  /** link_entity_path: the links of the chain, joints skipped, joined by
      slashes. */
  function LinkEntityPath(urdf: Urdf, link: string): (r: string)
    ensures urdf.chain(link) == [] ==> r == ""
    ensures |urdf.chain(link)| <= 2 && urdf.chain(link) != [] ==> r == urdf.chain(link)[0]
  {
    Join(Evens(urdf.chain(link)), "/")
  }

  /** joint_entity_path: a joint is logged under its child link. */
  function JointEntityPath(urdf: Urdf, joint: Joint): (r: string)
    ensures r == LinkEntityPath(urdf, joint.child)
  {
    Join(Evens(urdf.chain(joint.child)), "/")
  }

  /** The entity path names exactly the links of the chain, root first and
      the link itself last, when no link name holds a slash. */
  lemma EntityPathSegments(urdf: Urdf, link: string)
    requires |urdf.chain(link)| >= 1
    requires forall i | 0 <= i < |urdf.chain(link)| :: '/' !in urdf.chain(link)[i]
    ensures var segs := Split(LinkEntityPath(urdf, link));
      var c := urdf.chain(link);
      && |segs| == (|c| + 1) / 2
      && (forall i | 0 <= i < |segs| :: segs[i] == c[2 * i])
  {
    var c := urdf.chain(link);
    EvensAt(c);
    SplitJoin(Evens(c));
  }
}
