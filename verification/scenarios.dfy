/**
 The documented situations, worked through on concrete paths: running inside
 `src/api` of a project, at a project's root, and outside any project.
 */
module Scenarios {
  import opened Strings
  import opened Layout
  import opened Scaffold

  const ProjectDir: string := "/home/user/proj"
  const NestedDir: string := "/home/user/proj/src/api"
  const HomeDir: string := "/home/user"
  /** Where `create route -n orders` puts its file, below a project's root. */
  const OrdersBelowRoot: string := "src/api/routes/orders.py"
  const OrdersRoute: string := ProjectDir + "/" + OrdersBelowRoot

  /** In `/home/user/proj/src/api`, `src` occurs at index 16 and `/home/user/proj/` is
      the part before the first `src/`. */
  lemma NestedPositions(cwd: string)
    requires cwd == NestedDir
    ensures OccursAt(cwd, SrcMarker, 16)
    ensures PrefixBeforeFirst(cwd, SrcSeparator, "/home/user/proj/")
  {
    assert cwd[16..19] == SrcMarker;
    var expected := "/home/user/proj/";
    forall j | 0 <= j < |expected| ensures !OccursAt(cwd, SrcSeparator, j) {
      if j + 4 <= |cwd| {
        assert cwd[j..j + 4][1] == cwd[j + 1];
        assert cwd[j] != 's' || cwd[j + 1] != 'r';
      }
    }
    assert cwd[..16] == expected;
    assert cwd[16..20] == SrcSeparator;
  }

  /** `/home/user/proj/src/api` names a project: its root is `/home/user/proj/`. */
  lemma NestedRoot(cwd: string, fs: FileSystem)
    requires cwd == NestedDir
    ensures Contains(cwd, SrcMarker)
    ensures Root(cwd, fs) == Some("/home/user/proj/")
  {
    NestedPositions(cwd);
    ContainsOccurs(cwd, SrcMarker);
    PrefixBeforeFirstUnique(cwd, SrcSeparator, "/home/user/proj/", Root(cwd, fs).value);
  }

  /** The route `orders` below the root `/home/user/proj/`. */
  lemma NestedTarget(cwd: string, root: string, kind: string, name: string)
    requires cwd == NestedDir && root == "/home/user/proj/" && kind == "route" && name == "orders"
    ensures FileTarget(cwd, root, kind, name) == OrdersRoute
  {
    OrdersSuffix(kind, name);
    NestedRootPrefix(root);
    TargetPathLayout(root, kind, name);
  }

  /** The part of the route's path below the root. */
  lemma OrdersSuffix(kind: string, name: string)
    requires kind == "route" && name == "orders"
    ensures !IsAbsolute(kind) && !IsAbsolute(name)
    ensures "src/api/" + kind + "s/" + name + ".py" == OrdersBelowRoot
  {
  }

  /** `/home/user/proj/` is an absolute directory path, and the route lies below it. */
  lemma NestedRootPrefix(root: string)
    requires root == "/home/user/proj/"
    ensures IsAbsolute(root) && DirPrefix(root) == root
    ensures root + OrdersBelowRoot == OrdersRoute
  {
    assert root == ProjectDir + "/";
  }

  /** From `/home/user/proj/src/api`, `create route -n orders` crashes as written and,
      corrected, creates `/home/user/proj/src/api/routes/orders.py` when it is missing. */
  lemma NestedCreateRoute(cwd: string, fs: FileSystem, kind: string, name: string)
    requires cwd == NestedDir && kind == "route" && name == "orders" && OrdersRoute !in fs
    ensures CreateFileAsWritten(cwd, fs, kind, name) == Step(Crash, fs)
    ensures CreateFileEffect(cwd, fs, kind, name) == Step(Completed, fs[OrdersRoute := File("")])
  {
    NestedRoot(cwd, fs);
    var root := Root(cwd, fs).value;
    NestedTarget(cwd, root, kind, name);
    CreateFileAdds(cwd, fs, root, kind, name, OrdersRoute);
  }

  /** Neither `/home/user/proj` nor `/home/user` has `src` anywhere in it. */
  lemma NoSrcPositions(cwd: string)
    requires cwd == ProjectDir || cwd == HomeDir
    ensures forall j :: !OccursAt(cwd, SrcMarker, j)
  {
    forall j ensures !OccursAt(cwd, SrcMarker, j) {
      if 0 <= j && j + 3 <= |cwd| {
        assert cwd[j..j + 3][1] == cwd[j + 1];
        assert cwd[j] != 's' || cwd[j + 1] != 'r';
      }
    }
  }

  lemma NoSrc(cwd: string)
    requires cwd == ProjectDir || cwd == HomeDir
    ensures !Contains(cwd, SrcMarker)
  {
    NoSrcPositions(cwd);
    ContainsOccurs(cwd, SrcMarker);
  }

  /** The `src` entry of `/home/user/proj` and of `/home/user`. */
  lemma SrcEntryPath(cwd: string)
    requires cwd == ProjectDir || cwd == HomeDir
    ensures cwd == ProjectDir ==> PathJoin(cwd, SrcMarker) == "/home/user/proj/src"
    ensures cwd == HomeDir ==> PathJoin(cwd, SrcMarker) == "/home/user/src"
  {
  }

  /** The route `orders` below the empty root, seen from `/home/user/proj`. */
  lemma RootTarget(cwd: string, root: string, kind: string, name: string)
    requires cwd == ProjectDir && root == "" && kind == "route" && name == "orders"
    ensures FileTarget(cwd, root, kind, name) == OrdersRoute
  {
    OrdersSuffix(kind, name);
    ProjectDirPrefix(cwd);
    RelativeTarget(root, kind, name);
  }

  /** `/home/user/proj` gains a separator before a relative path, which then names the route. */
  lemma ProjectDirPrefix(cwd: string)
    requires cwd == ProjectDir
    ensures DirPrefix(cwd) == cwd + "/"
    ensures cwd + "/" + OrdersBelowRoot == OrdersRoute
  {
  }

  /** At the root of a project with a `src` directory, `create route -n orders` creates
      the empty file `src/api/routes/orders.py`; running it again changes nothing. */
  lemma RootCreateRoute(cwd: string, fs: FileSystem, kind: string, name: string)
    requires cwd == ProjectDir && kind == "route" && name == "orders"
    requires "/home/user/proj/src" in fs && OrdersRoute !in fs
    ensures var once := CreateFileEffect(cwd, fs, kind, name);
      && once == Step(Completed, fs[OrdersRoute := File("")])
      && CreateFileEffect(cwd, once.fs, kind, name) == once
  {
    NoSrc(cwd);
    SrcEntryPath(cwd);
    RootWithoutSrcInPath(cwd, fs);
    var root := Root(cwd, fs).value;
    RootTarget(cwd, root, kind, name);
    CreateFileAdds(cwd, fs, root, kind, name, OrdersRoute);
    CreateFileIdempotent(cwd, fs, kind, name);
  }

  /** In `/home/user`, with no `src` entry, creating a file exits with status 1 and
      changes nothing. */
  lemma OutsideProject(cwd: string, fs: FileSystem, kind: string, name: string)
    requires cwd == HomeDir && "/home/user/src" !in fs
    ensures CreateFileEffect(cwd, fs, kind, name) == Step(Exit(1), fs)
  {
    NoSrc(cwd);
    SrcEntryPath(cwd);
    RootWithoutSrcInPath(cwd, fs);
  }
}
