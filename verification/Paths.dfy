// resolve_workspace_path of hermes/file_ops.py: which file a path written by a client names.

module Paths {
  // An absolute path, as the names from the root of the file system down.
  type Path = seq<string>

  function Split(s: string): (segments: seq<string>)
    ensures segments != []
  {
    if s == "" then [""]
    else
      var rest := Split(s[1..]);
      if s[0] == '/' then [""] + rest else [[s[0]] + rest[0]] + rest[1..]
  }

  function Join(segments: seq<string>): string {
    if segments == [] then ""
    else if |segments| == 1 then segments[0]
    else segments[0] + "/" + Join(segments[1..])
  }

  // A name that a directory entry can have.
  predicate Name(s: string) {
    s != "" && s != "." && s != ".." && '/' !in s
  }

  predicate Normal(p: Path) {
    forall i :: 0 <= i < |p| ==> Name(p[i])
  }

  // Following one segment from a directory.
  function Follow(base: Path, segment: string): Path {
    if segment == "" || segment == "." then base
    else if segment == ".." then (if base == [] then [] else base[..|base| - 1])
    else base + [segment]
  }

  function Walk(base: Path, segments: seq<string>): Path
    decreases |segments|
  {
    if segments == [] then base else Walk(Follow(base, segments[0]), segments[1..])
  }

  datatype PathError = PathRequired | OutsideWorkspace

  datatype Resolved = Target(path: Path) | Unresolved(error: PathError)

  // `inner` lies strictly below `outer`.
  predicate Below(outer: Path, inner: Path) {
    outer < inner
  }

  // (root / relative).resolve(), which an absolute second operand replaces altogether.
  function Candidate(root: Path, relative: string): Path {
    Walk(if relative != "" && relative[0] == '/' then [] else root, Split(relative))
  }

  function Resolve(root: Path, relative: string): Resolved {
    if relative == "" then Unresolved(PathRequired)
    else if Below(root, Candidate(root, relative)) then Target(Candidate(root, relative))
    else Unresolved(OutsideWorkspace)
  }

  // str(target.relative_to(root))
  function RelativeTo(root: Path, target: Path): string
    requires Below(root, target)
  {
    Join(target[|root|..])
  }

  lemma {:induction false} SplitHasNoSlash(s: string)
    ensures forall i :: 0 <= i < |Split(s)| ==> '/' !in Split(s)[i]
  {
    if s != "" {
      SplitHasNoSlash(s[1..]);
    }
  }

  lemma {:induction false} WalkStaysNormal(base: Path, segments: seq<string>)
    requires Normal(base) && forall i :: 0 <= i < |segments| ==> '/' !in segments[i]
    ensures Normal(Walk(base, segments))
    decreases |segments|
  {
    if segments != [] {
      WalkStaysNormal(Follow(base, segments[0]), segments[1..]);
    }
  }

  // Whatever `.`, `..` and leading slashes the path contains, the target lies strictly below the
  // root and is free of them.
  lemma TargetsAreConfined(root: Path, relative: string)
    requires Normal(root) && Resolve(root, relative).Target?
    ensures var p := Resolve(root, relative).path;
            && |root| < |p| && p[..|root|] == root
            && forall i :: 0 <= i < |p| ==> p[i] != "" && p[i] != "." && p[i] != ".." && '/' !in p[i]
  {
    SplitHasNoSlash(relative);
    WalkStaysNormal(if relative[0] == '/' then [] else root, Split(relative));
  }

  // The segments of a path are what stands between its slashes.
  lemma {:induction false} SplitIsExact(s: string)
    ensures Join(Split(s)) == s
  {
    if s != "" {
      var rest := Split(s[1..]);
      SplitIsExact(s[1..]);
      if s[0] == '/' {
        assert ([""] + rest)[1..] == rest;
      } else {
        assert ([[s[0]] + rest[0]] + rest[1..])[1..] == rest[1..];
      }
      assert [s[0]] + s[1..] == s;
    }
  }

  lemma {:induction false} SplitFirst(name: string, rest: string)
    requires '/' !in name
    ensures Split(name + "/" + rest) == [name] + Split(rest)
  {
    var s := name + "/" + rest;
    if name == "" {
      assert s[1..] == rest;
    } else {
      assert s[1..] == name[1..] + "/" + rest;
      SplitFirst(name[1..], rest);
      assert [name[0]] + name[1..] == name;
      assert Split(s) == [[s[0]] + Split(s[1..])[0]] + Split(s[1..])[1..];
    }
  }

  lemma {:induction false} SplitAlone(name: string)
    requires '/' !in name
    ensures Split(name) == [name]
  {
    if name != "" {
      SplitAlone(name[1..]);
      assert [name[0]] + name[1..] == name;
    }
  }

  lemma NormalRest(segments: seq<string>)
    requires segments != [] && Normal(segments)
    ensures Name(segments[0]) && Normal(segments[1..])
  {
    forall i | 0 <= i < |segments[1..]| ensures Name(segments[1..][i]) {
      assert segments[1..][i] == segments[i + 1];
    }
  }

  lemma {:induction false} SplitJoin(segments: seq<string>)
    requires segments != [] && Normal(segments)
    ensures Split(Join(segments)) == segments
  {
    hide Split, Normal;
    var first, rest := segments[0], segments[1..];
    NormalRest(segments);
    if |segments| == 1 {
      SplitAlone(first);
      assert segments == [first];
    } else {
      calc {
        Split(Join(segments));
        Split(first + "/" + Join(rest));
        { SplitFirst(first, Join(rest)); }
        [first] + Split(Join(rest));
        { SplitJoin(rest); }
        [first] + rest;
        segments;
      }
    }
  }

  lemma {:induction false} WalkNames(base: Path, names: seq<string>)
    requires Normal(names)
    ensures Walk(base, names) == base + names
    decreases |names|
  {
    if names != [] {
      WalkNames(base + [names[0]], names[1..]);
    }
  }

  // The path reported for a target resolves back to it.
  lemma ReportedPathsResolve(root: Path, target: Path)
    requires Normal(root) && Normal(target) && Below(root, target)
    ensures Resolve(root, RelativeTo(root, target)) == Target(target)
  {
    var names := target[|root|..];
    assert Name(names[0]);
    SplitJoin(names);
    WalkNames(root, names);
    assert Join(names)[0] == names[0][0];
  }

  lemma {:induction false} WalkConcat(base: Path, a: seq<string>, b: seq<string>)
    ensures Walk(base, a + b) == Walk(Walk(base, a), b)
    decreases |a|
  {
    if a == [] {
      assert a + b == b;
    } else {
      assert (a + b)[1..] == a[1..] + b;
      WalkConcat(Follow(base, a[0]), a[1..], b);
    }
  }

  // Going into a directory and back out is as good as not moving, anywhere in a path.
  lemma DetoursCancel(base: Path, before: seq<string>, name: string, after: seq<string>)
    requires Name(name)
    ensures Walk(base, before + [name, ".."] + after) == Walk(base, before + after)
  {
    var p := Walk(base, before);
    WalkConcat(base, before + [name, ".."], after);
    WalkConcat(base, before, [name, ".."]);
    WalkConcat(base, before, after);
    calc {
      Walk(p, [name, ".."]);
      { assert [name, ".."][1..] == [".."]; }
      Walk(Follow(p, name), [".."]);
      { assert [".."][1..] == []; }
      Walk(Follow(p + [name], ".."), []);
      { assert (p + [name])[..|p|] == p; }
      p;
    }
  }

  // `.` and an empty segment, as between two slashes, do not move, and nothing lies above the top.
  lemma NeutralSegments(base: Path, before: seq<string>, segment: string, after: seq<string>)
    requires segment == "" || segment == "." || (segment == ".." && Walk(base, before) == [])
    ensures Walk(base, before + [segment] + after) == Walk(base, before + after)
  {
    WalkConcat(base, before + [segment], after);
    WalkConcat(base, before, [segment]);
    WalkConcat(base, before, after);
    assert [segment][1..] == [];
  }

  // An absolute path leaves the workspace's directory out of account: it names a target exactly when
  // that lies strictly below the root all the same.
  lemma AbsolutePathsResolveIff(root: Path, names: Path)
    requires Normal(names) && names != []
    ensures Resolve(root, "/" + Join(names)) ==
            if |root| < |names| && names[..|root|] == root then Target(names) else Unresolved(OutsideWorkspace)
  {
    var s := "/" + Join(names);
    SplitJoin(names);
    SplitFirst("", Join(names));
    assert "" + "/" + Join(names) == s;
    assert ([""] + names)[1..] == names;
    WalkNames([], names);
    assert [] + names == names;
  }

  // A relative path of plain names is looked up from the root; an empty one is refused.
  lemma PlainPathsResolve(root: Path, names: Path)
    requires Normal(names)
    ensures Resolve(root, Join(names)) == if names == [] then Unresolved(PathRequired) else Target(root + names)
  {
    if names != [] {
      assert Name(names[0]);
      SplitJoin(names);
      WalkNames(root, names);
      assert Join(names)[0] == names[0][0];
    }
  }

  // A path that climbs out of the root resolves exactly when it comes back into it.
  lemma ClimbingPathsResolveIff(root: Path, names: Path)
    requires root != [] && names != [] && Normal(names)
    ensures var p := root[..|root| - 1] + names;
            Resolve(root, "../" + Join(names)) ==
            if |root| < |p| && p[..|root|] == root then Target(p) else Unresolved(OutsideWorkspace)
  {
    SplitJoin(names);
    SplitFirst("..", Join(names));
    assert ".." + "/" + Join(names) == "../" + Join(names);
    assert ([".."] + names)[1..] == names;
    WalkNames(root[..|root| - 1], names);
  }
}
