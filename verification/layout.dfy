/**
 The project-layout decisions of the file scaffolder: how a path is joined
 (POSIX `os.path.join`), where the project root is (`find_dir`, as written and
 corrected) and which path a scaffold file of a given type and name gets.
 */
module Layout {
  import opened Strings

  datatype Option<T> = None | Some(value: T)

  /** The working directory counts as inside a project when this occurs in it. */
  const SrcMarker: string := "src"
  /** `find_dir` cuts the working directory at this separator. */
  const SrcSeparator: string := "src/"

  predicate IsAbsolute(p: string) {
    |p| > 0 && p[0] == '/'
  }

  predicate EndsWith(s: string, suffix: string) {
    |suffix| <= |s| && s[|s| - |suffix|..] == suffix
  }

  /** What `os.path.join` puts before a relative component: nothing after an empty
      path or a trailing separator, a `/` otherwise. */
  function DirPrefix(a: string): string {
    if a == "" || a[|a| - 1] == '/' then a else a + "/"
  }

  /** POSIX `os.path.join(a, b)` for two components: an absolute `b` discards `a`. */
  function PathJoin(a: string, b: string): string {
    if IsAbsolute(b) then b else DirPrefix(a) + b
  }

  /** A joined path ends with its last component; a relative last component keeps the
      first one as a prefix; joining onto an absolute path stays absolute. */
  lemma PathJoinShape(a: string, b: string)
    ensures EndsWith(PathJoin(a, b), b)
    ensures !IsAbsolute(b) ==> |a| <= |PathJoin(a, b)| && PathJoin(a, b)[..|a|] == a
    ensures IsAbsolute(a) || IsAbsolute(b) ==> IsAbsolute(PathJoin(a, b))
  {
    var r := PathJoin(a, b);
    if !IsAbsolute(b) {
      assert r[|r| - |b|..] == b;
      assert r[..|a|] == DirPrefix(a)[..|a|] == a;
    }
  }

  /** The outcome of `find_dir` as written: the raw list from `split`, the empty
      prefix, or the process exiting. */
  datatype FindDirResult = Pieces(pieces: seq<string>) | EmptyPrefix | Exited(status: int)

  /** `find_dir`, given the working directory and the names listed in it. */
  function FindDir(cwd: string, entries: set<string>): (r: FindDirResult)
    ensures r.Pieces? <==> Contains(cwd, SrcMarker)
    ensures r.EmptyPrefix? <==> !Contains(cwd, SrcMarker) && SrcMarker in entries
    ensures r.Exited? <==> !Contains(cwd, SrcMarker) && SrcMarker !in entries
    ensures r.Exited? ==> r.status == 1
    ensures r.Pieces? ==> |r.pieces| >= 1 && Join(r.pieces, SrcSeparator) == cwd
    ensures r.Pieces? ==> PrefixBeforeFirst(cwd, SrcSeparator, r.pieces[0])
  {
    if Contains(cwd, SrcMarker) then
      JoinSplit(cwd, SrcSeparator);
      SplitFirstPiece(cwd, SrcSeparator);
      Pieces(Split(cwd, SrcSeparator))
    else if SrcMarker in entries then EmptyPrefix
    else Exited(1)
  }

  /** `find_dir` with its list return corrected to the first piece of the split. Where the
      working directory contains `src/`, that piece is the part before it, the root the
      function evidently means; where it contains `src` only otherwise (for example at
      `<project>/src` itself), the piece is the whole working directory. `None` is the
      not-in-a-project exit. */
  function ProjectRoot(cwd: string, entries: set<string>): (root: Option<string>)
    ensures root.None? <==> !Contains(cwd, SrcMarker) && SrcMarker !in entries
    ensures Contains(cwd, SrcMarker) ==> root.Some? && PrefixBeforeFirst(cwd, SrcSeparator, root.value)
    ensures !Contains(cwd, SrcMarker) && SrcMarker in entries ==> root == Some("")
  {
    match FindDir(cwd, entries)
    case Pieces(pieces) => Some(pieces[0])
    case EmptyPrefix => Some("")
    case Exited(_) => None
  }

  /** The path `create_file` builds: `<root>/src/api/<type>s/<name>.py`. */
  function TargetPath(root: string, kind: string, name: string): string {
    JoinPath([root, "src", "api", kind + "s", name + ".py"])
  }

  /** `os.path.join(first, *rest)`: the components joined pairwise from the left. */
  function JoinPath(components: seq<string>): string
    requires |components| >= 1
    decreases |components|
  {
    if |components| == 1 then components[0]
    else PathJoin(JoinPath(components[..|components| - 1]), components[|components| - 1])
  }

  /** The target path joins its five components one at a time. */
  lemma TargetPathSteps(root: string, kind: string, name: string)
    ensures TargetPath(root, kind, name)
         == PathJoin(PathJoin(PathJoin(PathJoin(root, "src"), "api"), kind + "s"), name + ".py")
  {
    var c5 := [root, "src", "api", kind + "s", name + ".py"];
    var c4 := c5[..4];
    assert c4 == [root, "src", "api", kind + "s"];
    var c3 := c4[..3];
    assert c3 == [root, "src", "api"];
    var c2 := c3[..2];
    assert c2 == [root, "src"];
    assert c2[..1] == [root];
    assert JoinPath(c2) == PathJoin(root, "src");
    assert JoinPath(c3) == PathJoin(JoinPath(c2), "api");
    assert JoinPath(c4) == PathJoin(JoinPath(c3), kind + "s");
  }

  /** With relative components the target is the root, then `src/api/<type>s/<name>.py`. */
  lemma TargetPathLayout(root: string, kind: string, name: string)
    requires !IsAbsolute(kind) && !IsAbsolute(name)
    ensures TargetPath(root, kind, name) == DirPrefix(root) + "src/api/" + kind + "s/" + name + ".py"
  {
    TargetPathSteps(root, kind, name);
    TypeDirLayout(root, kind);
    FileLayout(DirPrefix(root), kind, name, PathJoin(PathJoin(PathJoin(root, "src"), "api"), kind + "s"));
  }

  /** The empty root (a `src` entry in the working directory) gives the relative path
      `src/api/<type>s/<name>.py`. */
  lemma RelativeTarget(root: string, kind: string, name: string)
    requires root == "" && !IsAbsolute(kind) && !IsAbsolute(name)
    ensures TargetPath(root, kind, name) == "src/api/" + kind + "s/" + name + ".py"
  {
    TargetPathLayout(root, kind, name);
    var p := DirPrefix(root);
    assert p == [];
    assert p + "src/api/" == "src/api/";
  }

  /** The directory of a type is `<root>/src/api/<type>s`. */
  lemma TypeDirLayout(root: string, kind: string)
    requires !IsAbsolute(kind)
    ensures PathJoin(PathJoin(PathJoin(root, "src"), "api"), kind + "s") == DirPrefix(root) + "src/api/" + (kind + "s")
  {
    var p := DirPrefix(root);
    JoinBelow(root, "src");
    var a := PathJoin(root, "src");
    JoinBelow(a, "api");
    var b := PathJoin(a, "api");
    assert b == p + "src/api" by {
      assert b == p + "src" + "/" + "api";
    }
    var k := kind + "s";
    assert k[|k| - 1] == 's' && k[0] == (if kind == "" then 's' else kind[0]);
    JoinBelow(b, k);
  }

  /** The file `<name>.py` goes directly inside the type's directory. */
  lemma FileLayout(p: string, kind: string, name: string, dir: string)
    requires !IsAbsolute(name)
    requires dir == p + "src/api/" + (kind + "s")
    ensures PathJoin(dir, name + ".py") == p + "src/api/" + kind + "s/" + name + ".py"
  {
    var n := name + ".py";
    assert n[|n| - 1] == 'y' && n[0] == (if name == "" then '.' else name[0]);
    JoinBelow(dir, n);
    assert DirPrefix(dir) == dir + "/";
    assert dir + "/" == p + "src/api/" + kind + "s/";
  }

  /** Joining a relative, non-empty component that does not end in `/` onto `a`, and then
      anything relative onto that, puts exactly one separator between them. */
  lemma JoinBelow(a: string, b: string)
    requires !IsAbsolute(b) && b != "" && b[|b| - 1] != '/'
    ensures PathJoin(a, b) == DirPrefix(a) + b
    ensures DirPrefix(PathJoin(a, b)) == DirPrefix(a) + b + "/"
  {
  }

  /** An absolute name makes `os.path.join` drop everything before it. */
  lemma AbsoluteNameEscapes(root: string, kind: string, name: string)
    requires IsAbsolute(name)
    ensures TargetPath(root, kind, name) == name + ".py"
  {
    TargetPathSteps(root, kind, name);
  }

  /** A path joined with a non-empty component ends with that component's last character. */
  lemma PathJoinLast(a: string, b: string)
    requires b != ""
    ensures |PathJoin(a, b)| >= |b| && PathJoin(a, b)[|PathJoin(a, b)| - 1] == b[|b| - 1]
  {
  }

  /** Every target path ends in `.py`. */
  lemma TargetPathIsPython(root: string, kind: string, name: string)
    ensures EndsWith(TargetPath(root, kind, name), ".py")
  {
    var components := [root, "src", "api", kind + "s", name + ".py"];
    var dir := JoinPath(components[..4]);
    assert TargetPath(root, kind, name) == PathJoin(dir, name + ".py");
    PathJoinShape(dir, name + ".py");
    assert EndsWith(name + ".py", ".py") by {
      assert (name + ".py")[|name|..] == ".py";
    }
    EndsWithTransitive(TargetPath(root, kind, name), name + ".py", ".py");
  }

  /** A suffix of a suffix is a suffix. */
  lemma EndsWithTransitive(s: string, t: string, u: string)
    requires EndsWith(s, t) && EndsWith(t, u)
    ensures EndsWith(s, u)
  {
    assert s[|s| - |u|..] == s[|s| - |t|..][|t| - |u|..];
  }

  /** A working directory that contains `src` but not `src/` (for example one ending in
      `/src`, or `/opt/srcs/app`) splits into a single piece, the whole path. */
  lemma SrcWithoutSeparator(cwd: string, entries: set<string>)
    requires Contains(cwd, SrcMarker) && !Contains(cwd, SrcSeparator)
    ensures FindDir(cwd, entries) == Pieces([cwd])
    ensures ProjectRoot(cwd, entries) == Some(cwd)
  {
    var pieces := Split(cwd, SrcSeparator);
    SplitFirstPiece(cwd, SrcSeparator);
    assert pieces == [pieces[0]];
  }
}
