/**
 The two command flows on an abstract filesystem: creating scaffold files
 (`create_file`, `scaffold_type`) and creating a project (`scaffold_project`).
 Each operation is a function from the filesystem before to an outcome and the
 filesystem after; the `Workspace` class runs the same operations in place.
 */
module Scaffold {
  import opened Strings
  import opened Layout

  /** What a path names: a directory, or a file with its contents. */
  datatype Node = Directory | File(content: string)

  /** Every existing path, as the operating system resolves it, and what it names. */
  type FileSystem = map<string, Node>

  /** How the process stands after an operation: running on, exited with a status
      (`sys.exit`), or stopped by an uncaught exception. */
  datatype Outcome = Completed | Exit(code: int) | Crash

  datatype Step = Step(outcome: Outcome, fs: FileSystem)

  /** The file types `create` accepts besides `all`, in the order `all` creates them. */
  const FileKinds: seq<string> := ["route", "model", "schema"]
  const AllKinds: string := "all"
  const TemplateRepository: string := "https://github.com/DavidHotaran/flask-template.git"

  /** `git clone`: given the filesystem when it is called, the repository and the
      destination, whether the command succeeded. */
  type CloneOracle = (FileSystem, string, string) -> bool

  /** `os.listdir(dir)`: the last component of every path directly inside `dir`. */
  function Listing(dir: string, fs: FileSystem): (names: set<string>)
    ensures forall n :: n in names ==> n != "" && '/' !in n && DirPrefix(dir) + n in fs
  {
    var prefix := DirPrefix(dir);
    assert forall p :: p in fs && |prefix| < |p| && p[..|prefix|] == prefix ==> prefix + p[|prefix|..] == p by {
      forall p | p in fs && |prefix| < |p| && p[..|prefix|] == prefix ensures prefix + p[|prefix|..] == p {
        assert p == p[..|prefix|] + p[|prefix|..];
      }
    }
    set p | p in fs && |prefix| < |p| && p[..|prefix|] == prefix && '/' !in p[|prefix|..] :: p[|prefix|..]
  }

  /** `src` is listed in `dir` exactly when the path `dir/src` exists. */
  lemma SrcListed(dir: string, fs: FileSystem)
    ensures SrcMarker in Listing(dir, fs) <==> PathJoin(dir, SrcMarker) in fs
  {
    var prefix := DirPrefix(dir);
    var src := PathJoin(dir, SrcMarker);
    assert src == prefix + SrcMarker;
    if src in fs {
      assert src[..|prefix|] == prefix && src[|prefix|..] == SrcMarker;
    }
    if SrcMarker in Listing(dir, fs) {
      var p :| p in fs && |prefix| < |p| && p[..|prefix|] == prefix && p[|prefix|..] == SrcMarker;
      assert p == p[..|prefix|] + p[|prefix|..];
    }
  }

  /** The project root `create_file` works from, with `find_dir`'s list return corrected. */
  function Root(cwd: string, fs: FileSystem): (root: Option<string>)
    ensures root.None? <==> !Contains(cwd, SrcMarker) && PathJoin(cwd, SrcMarker) !in fs
  {
    SrcListed(cwd, fs);
    ProjectRoot(cwd, Listing(cwd, fs))
  }

  /** The resolved path of the scaffold file of type `kind` and name `name`. */
  function FileTarget(cwd: string, root: string, kind: string, name: string): string {
    PathJoin(cwd, TargetPath(root, kind, name))
  }

  /** A scaffold file is a `.py` file, so it is never the `src` entry of the working directory. */
  lemma TargetIsNotSrc(cwd: string, root: string, kind: string, name: string)
    ensures FileTarget(cwd, root, kind, name) != PathJoin(cwd, SrcMarker)
  {
    var path := TargetPath(root, kind, name);
    TargetPathIsPython(root, kind, name);
    assert path[|path| - 1] == 'y';
    PathJoinLast(cwd, path);
    PathJoinLast(cwd, SrcMarker);
  }

  /** Adding a path other than `cwd/src` leaves the project root where it was. */
  lemma RootStable(cwd: string, fs: FileSystem, path: string, node: Node)
    requires path != PathJoin(cwd, SrcMarker)
    ensures Root(cwd, fs[path := node]) == Root(cwd, fs)
  {
    SrcListed(cwd, fs);
    SrcListed(cwd, fs[path := node]);
  }

  /** Without `src` in the working directory's path, the root is the working directory
      itself when it has a `src` entry, and there is none otherwise. */
  lemma RootWithoutSrcInPath(cwd: string, fs: FileSystem)
    requires !Contains(cwd, SrcMarker)
    ensures Root(cwd, fs) == if PathJoin(cwd, SrcMarker) in fs then Some("") else None
  {
    SrcListed(cwd, fs);
  }

  /** Create one scaffold file below a resolved root: an existing path is skipped,
      otherwise exactly one empty file is added. */
  function PlaceFile(cwd: string, fs: FileSystem, root: string, kind: string, name: string): (r: Step)
    ensures r.outcome == Completed
    ensures FileTarget(cwd, root, kind, name) in fs ==> r.fs == fs
    ensures r.fs.Keys == fs.Keys + {FileTarget(cwd, root, kind, name)}
    ensures forall p :: p in fs ==> r.fs[p] == fs[p]
    ensures FileTarget(cwd, root, kind, name) !in fs ==> r.fs[FileTarget(cwd, root, kind, name)] == File("")
  {
    var path := FileTarget(cwd, root, kind, name);
    if path in fs then Step(Completed, fs) else Step(Completed, fs[path := File("")])
  }

  /** `create_file(kind, name)`, with the project root corrected: exits with status 1
      outside a project, otherwise places the file. */
  function CreateFileEffect(cwd: string, fs: FileSystem, kind: string, name: string): (r: Step)
    ensures r.outcome != Crash
    ensures r.outcome == Exit(1) <==> Root(cwd, fs).None?
    ensures r.outcome.Exit? ==> r.fs == fs
    ensures Root(cwd, fs).Some? ==> r == PlaceFile(cwd, fs, Root(cwd, fs).value, kind, name)
  {
    match Root(cwd, fs)
    case None => Step(Exit(1), fs)
    case Some(root) => PlaceFile(cwd, fs, root, kind, name)
  }

  /** `create_file(kind, name)` as written: `find_dir`'s list reaches `os.path.join`,
      which raises `TypeError` before anything is created. */
  function CreateFileAsWritten(cwd: string, fs: FileSystem, kind: string, name: string): (r: Step)
    ensures r.outcome == Crash <==> Contains(cwd, SrcMarker)
    ensures r.outcome != Completed ==> r.fs == fs
  {
    match FindDir(cwd, Listing(cwd, fs))
    case Pieces(_) => Step(Crash, fs)
    case EmptyPrefix => PlaceFile(cwd, fs, "", kind, name)
    case Exited(status) => Step(Exit(status), fs)
  }

  /** Inside a project, `create_file` for a missing target adds exactly that empty file. */
  lemma CreateFileAdds(cwd: string, fs: FileSystem, root: string, kind: string, name: string, path: string)
    requires Root(cwd, fs) == Some(root) && FileTarget(cwd, root, kind, name) == path && path !in fs
    ensures CreateFileEffect(cwd, fs, kind, name) == Step(Completed, fs[path := File("")])
  {
  }

  /** `create_file` for each kind in turn; a call that exits ends the process. */
  function CreateEach(cwd: string, fs: FileSystem, kinds: seq<string>, name: string): Step
    decreases |kinds|
  {
    if kinds == [] then Step(Completed, fs)
    else
      var first := CreateFileEffect(cwd, fs, kinds[0], name);
      if first.outcome == Completed then CreateEach(cwd, first.fs, kinds[1..], name) else first
  }

  /** `scaffold_type(kind, name)`: one file for `route`, `model` or `schema`, the three
      of them in that order for `all`, nothing for any other string. */
  function ScaffoldTypeEffect(cwd: string, fs: FileSystem, kind: string, name: string): Step {
    if kind in FileKinds then CreateFileEffect(cwd, fs, kind, name)
    else if kind == AllKinds then CreateEach(cwd, fs, FileKinds, name)
    else Step(Completed, fs)
  }

  /** `scaffold_project(name)`: refuses an existing path, otherwise creates the directory
      and then clones into it; a failed clone exits but keeps the directory. */
  function ScaffoldProjectEffect(cwd: string, fs: FileSystem, name: string, clone: CloneOracle): Step {
    var dir := PathJoin(cwd, name);
    if dir in fs then Step(Exit(1), fs)
    else
      var made := fs[dir := Directory];
      Step(if clone(made, TemplateRepository, name) then Completed else Exit(1), made)
  }

  /** The filesystem with an empty file added at every path of `paths` that does not exist yet. */
  function WithEmptyFiles(fs: FileSystem, paths: set<string>): (r: FileSystem)
    ensures r.Keys == fs.Keys + paths
    ensures forall p :: p in fs ==> r[p] == fs[p]
    ensures forall p :: p in paths && p !in fs ==> r[p] == File("")
  {
    map p | p in fs.Keys + paths :: if p in fs then fs[p] else File("")
  }

  /** The scaffold files of every kind in `kinds` below `root`. */
  function Targets(cwd: string, root: string, kinds: seq<string>, name: string): set<string>
    decreases |kinds|
  {
    if kinds == [] then {} else {FileTarget(cwd, root, kinds[0], name)} + Targets(cwd, root, kinds[1..], name)
  }

  /** A second `create_file` with the same arguments changes nothing and ends the same way. */
  lemma CreateFileIdempotent(cwd: string, fs: FileSystem, kind: string, name: string)
    ensures var once := CreateFileEffect(cwd, fs, kind, name);
      CreateFileEffect(cwd, once.fs, kind, name) == once
  {
    var once := CreateFileEffect(cwd, fs, kind, name);
    if root :| Root(cwd, fs) == Some(root) {
      var path := FileTarget(cwd, root, kind, name);
      TargetIsNotSrc(cwd, root, kind, name);
      RootStable(cwd, fs, path, File(""));
      assert once.fs == fs || once.fs == fs[path := File("")];
    }
  }

  /** Inside a project, creating each kind in turn adds an empty file at every target
      that was missing, keeps every existing path as it was, and never skips a kind
      because an earlier one was skipped. */
  lemma {:induction false} CreateEachInProject(cwd: string, fs: FileSystem, kinds: seq<string>, name: string)
    requires Root(cwd, fs).Some?
    ensures var r := CreateEach(cwd, fs, kinds, name);
      && r.outcome == Completed
      && r.fs == WithEmptyFiles(fs, Targets(cwd, Root(cwd, fs).value, kinds, name))
      && Root(cwd, r.fs) == Root(cwd, fs)
    decreases |kinds|
  {
    var root := Root(cwd, fs).value;
    if kinds == [] {
      assert Targets(cwd, root, kinds, name) == {};
      assert WithEmptyFiles(fs, {}) == fs;
    } else {
      var path := FileTarget(cwd, root, kinds[0], name);
      var first := CreateFileEffect(cwd, fs, kinds[0], name);
      assert first == PlaceFile(cwd, fs, root, kinds[0], name);
      TargetIsNotSrc(cwd, root, kinds[0], name);
      RootStable(cwd, fs, path, File(""));
      assert first.fs == fs || first.fs == fs[path := File("")];
      CreateEachInProject(cwd, first.fs, kinds[1..], name);
      var rest := Targets(cwd, root, kinds[1..], name);
      EmptyFilesStep(fs, first.fs, path, rest);
    }
  }

  /** Placing one empty file and then the rest is placing all of them at once. */
  lemma EmptyFilesStep(fs: FileSystem, next: FileSystem, path: string, rest: set<string>)
    requires next == if path in fs then fs else fs[path := File("")]
    ensures WithEmptyFiles(next, rest) == WithEmptyFiles(fs, {path} + rest)
  {
    var stepwise := WithEmptyFiles(next, rest);
    var atOnce := WithEmptyFiles(fs, {path} + rest);
    assert stepwise.Keys == atOnce.Keys;
    forall p | p in stepwise ensures stepwise[p] == atOnce[p] {
    }
  }

  /** Outside a project the first `create_file` exits with status 1 and nothing changes. */
  lemma CreateEachOutsideProject(cwd: string, fs: FileSystem, kinds: seq<string>, name: string)
    requires Root(cwd, fs).None? && kinds != []
    ensures CreateEach(cwd, fs, kinds, name) == Step(Exit(1), fs)
  {
  }

  /** `all` is route, then model, then schema: inside a project it adds exactly the
      missing ones of the three files; outside one it exits with status 1 unchanged. */
  lemma ScaffoldAll(cwd: string, fs: FileSystem, name: string)
    ensures var r := ScaffoldTypeEffect(cwd, fs, AllKinds, name);
      match Root(cwd, fs)
      case None => r == Step(Exit(1), fs)
      case Some(root) =>
        && r.outcome == Completed
        && r.fs == WithEmptyFiles(fs, {FileTarget(cwd, root, "route", name),
                                       FileTarget(cwd, root, "model", name),
                                       FileTarget(cwd, root, "schema", name)})
  {
    assert AllKinds !in FileKinds;
    assert ScaffoldTypeEffect(cwd, fs, AllKinds, name) == CreateEach(cwd, fs, FileKinds, name);
    if root :| Root(cwd, fs) == Some(root) {
      CreateEachInProject(cwd, fs, FileKinds, name);
      TargetsOfAllKinds(cwd, root, name);
    } else {
      CreateEachOutsideProject(cwd, fs, FileKinds, name);
    }
  }

  /** The targets of `all` are the route, the model and the schema file. */
  lemma TargetsOfAllKinds(cwd: string, root: string, name: string)
    ensures Targets(cwd, root, FileKinds, name) == {FileTarget(cwd, root, "route", name),
                                                   FileTarget(cwd, root, "model", name),
                                                   FileTarget(cwd, root, "schema", name)}
  {
    assert FileKinds[1..] == ["model", "schema"] && FileKinds[1..][1..] == ["schema"] && FileKinds[1..][1..][1..] == [];
  }

  /** A single type creates that one file; a string that is neither a type nor `all`
      does nothing. */
  lemma ScaffoldSingle(cwd: string, fs: FileSystem, kind: string, name: string)
    requires kind != AllKinds
    ensures kind in FileKinds ==> ScaffoldTypeEffect(cwd, fs, kind, name) == CreateFileEffect(cwd, fs, kind, name)
    ensures kind !in FileKinds ==> ScaffoldTypeEffect(cwd, fs, kind, name) == Step(Completed, fs)
  {
  }

  /** Running `scaffold_type` twice changes nothing the first run did not. */
  lemma ScaffoldTypeIdempotent(cwd: string, fs: FileSystem, kind: string, name: string)
    ensures var once := ScaffoldTypeEffect(cwd, fs, kind, name);
      ScaffoldTypeEffect(cwd, once.fs, kind, name) == once
  {
    var once := ScaffoldTypeEffect(cwd, fs, kind, name);
    if kind in FileKinds {
      CreateFileIdempotent(cwd, fs, kind, name);
    } else if kind == AllKinds {
      if root :| Root(cwd, fs) == Some(root) {
        var targets := Targets(cwd, root, FileKinds, name);
        CreateEachInProject(cwd, fs, FileKinds, name);
        CreateEachInProject(cwd, once.fs, FileKinds, name);
        assert WithEmptyFiles(once.fs, targets) == once.fs;
      }
    }
  }

  /** An existing project path makes `scaffold_project` exit with status 1, change
      nothing and never clone. */
  lemma ProjectExists(cwd: string, fs: FileSystem, name: string, clone: CloneOracle)
    requires PathJoin(cwd, name) in fs
    ensures ScaffoldProjectEffect(cwd, fs, name, clone) == Step(Exit(1), fs)
  {
  }

  /** Otherwise the directory is created first, the clone sees it, and it stays whether
      or not the clone succeeds; the process exits with status 1 when the clone fails. */
  lemma ProjectCreated(cwd: string, fs: FileSystem, name: string, clone: CloneOracle)
    requires PathJoin(cwd, name) !in fs
    ensures var r := ScaffoldProjectEffect(cwd, fs, name, clone);
      && r.fs == fs[PathJoin(cwd, name) := Directory]
      && r.fs.Keys == fs.Keys + {PathJoin(cwd, name)}
      && (r.outcome == Completed <==> clone(r.fs, TemplateRepository, name))
      && (r.outcome != Completed ==> r.outcome == Exit(1))
  {
  }

  /** As written, every working directory containing `src` crashes `create_file`
      before it touches the filesystem. */
  lemma AsWrittenCrashesUnderSrc(cwd: string, fs: FileSystem, kind: string, name: string)
    requires Contains(cwd, SrcMarker)
    ensures CreateFileAsWritten(cwd, fs, kind, name) == Step(Crash, fs)
  {
  }

  /** Outside the `src` case the corrected and the as-written `create_file` agree. */
  lemma AsWrittenAgreesOutsideSrc(cwd: string, fs: FileSystem, kind: string, name: string)
    requires !Contains(cwd, SrcMarker)
    ensures CreateFileAsWritten(cwd, fs, kind, name) == CreateFileEffect(cwd, fs, kind, name)
  {
  }

  /** Under `src` the corrected `create_file` places the file below the part of the
      working directory before the first `src/`. */
  lemma CorrectedUnderSrc(cwd: string, fs: FileSystem, kind: string, name: string)
    requires Contains(cwd, SrcMarker)
    ensures exists root ::
      && PrefixBeforeFirst(cwd, SrcSeparator, root)
      && CreateFileEffect(cwd, fs, kind, name) == PlaceFile(cwd, fs, root, kind, name)
  {
    var root := Root(cwd, fs).value;
    assert PrefixBeforeFirst(cwd, SrcSeparator, root);
  }

  /** The file system and working directory the command-line tool runs in. */
  class Workspace {
    const cwd: string
    var fs: FileSystem

    constructor (cwd: string, fs: FileSystem)
      ensures this.cwd == cwd && this.fs == fs
    {
      this.cwd := cwd;
      this.fs := fs;
    }

    /** `create_file(kind, name)`. */
    method CreateFile(kind: string, name: string) returns (outcome: Outcome)
      modifies this
      ensures Step(outcome, fs) == CreateFileEffect(cwd, old(fs), kind, name)
      ensures outcome == Exit(1) <==> Root(cwd, old(fs)).None?
      ensures outcome.Exit? ==> fs == old(fs)
    {
      var root := Root(cwd, fs);
      if root.None? {
        return Exit(1);
      }
      var path := TargetPath(root.value, kind, name);
      var resolved := PathJoin(cwd, path);
      if resolved !in fs {
        fs := fs[resolved := File("")];
      }
      outcome := Completed;
    }

    /** `scaffold_type(kind, name)`. */
    method ScaffoldType(kind: string, name: string) returns (outcome: Outcome)
      modifies this
      ensures Step(outcome, fs) == ScaffoldTypeEffect(cwd, old(fs), kind, name)
    {
      if kind == "route" || kind == "model" || kind == "schema" {
        outcome := CreateFile(kind, name);
      } else if kind == AllKinds {
        assert FileKinds[1..] == ["model", "schema"] && FileKinds[2..] == ["schema"] && FileKinds[3..] == [];
        outcome := CreateFile("route", name);
        if outcome == Completed {
          outcome := CreateFile("model", name);
          if outcome == Completed {
            outcome := CreateFile("schema", name);
          }
        }
      } else {
        outcome := Completed;
      }
    }

    /** `scaffold_project(name)`, with `git clone` as the oracle `clone`. */
    method ScaffoldProject(name: string, clone: CloneOracle) returns (outcome: Outcome)
      modifies this
      ensures Step(outcome, fs) == ScaffoldProjectEffect(cwd, old(fs), name, clone)
    {
      var dir := PathJoin(cwd, name);
      if dir in fs {
        return Exit(1);
      }
      fs := fs[dir := Directory];
      var cloned := clone(fs, TemplateRepository, name);
      if cloned {
        outcome := Completed;
      } else {
        outcome := Exit(1);
      }
    }
  }
}
