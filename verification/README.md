# flask-template-generator-cli: the project-layout layer, modelled in Dafny

The command-line tool has two flows. `scaffold <project>` creates a directory and clones
a fixed Flask template repository into it. `create <route|model|schema|all> -n <name>`
creates empty Python files at `src/api/<type>s/<name>.py` inside an existing project.
This project models the decision layer behind both flows in `template-generator.py`:

- `find_dir` decides where the project root is, from the working-directory string and the
  names listed in it.
- `create_file` builds the target path and creates the file only when it is missing.
- `scaffold_type` dispatches a type, or `all`, to `create_file`.
- `scaffold_project` refuses an existing path, creates the directory, then clones.

Files:

- `strings.dfy` (module `Strings`): Python's `sub in s`, `s.split(sep)` and `sep.join(pieces)`
  on strings, with the split/join round trip and the "first piece is the text before the
  first separator" characterisation.
- `layout.dfy` (module `Layout`): POSIX `os.path.join`; `find_dir` exactly as written
  (`FindDir`, whose `src` branch returns the raw list); the corrected root (`ProjectRoot`);
  the target path `<root>/src/api/<type>s/<name>.py`.
- `scaffold.dfy` (module `Scaffold`): the filesystem as a map from resolved path to
  directory or file contents. It holds `os.listdir` (`Listing`) and each operation as a
  function from the old filesystem to an outcome (completed, exit status, crash) and the
  new filesystem. It also holds the `Workspace` class, whose methods run the same
  operations in place on a `fs` field.
- `scenarios.dfy` (module `Scenarios`): the documented situations worked through on
  concrete paths.

The environment is abstracted as follows:

- `os.getcwd()` is the `cwd` argument or field.
- `os.listdir()`, `os.path.exists`, `Path.exists`, `os.mkdir` and `open(path, 'w+')` act
  on the map `fs`. A relative path is resolved as `os.path.join(cwd, path)`.
- `git clone` is an oracle `(FileSystem, url, destination) -> bool`. It receives the
  filesystem as it is when the clone runs, so the model shows that the directory exists
  before the clone is attempted.

Where the docstring of `find_dir` (template-generator.py:97-106) and its code disagree, the
model follows the code. The docstring promises everything before `src`, but the code returns the
whole list from `split`, which crashes the caller (see Findings). The `src` test is a substring
test in the code, and so it is in the model.

## Model

| member | source | states |
|---|---|---|
| Strings.Contains | template-generator.py:110 | Python's `sub in s`; no ensures of its own, see `Strings.ContainsOccurs` |
| Strings.Split | template-generator.py:111 | `s.split(sep)` always yields at least one piece, and exactly one when `sep` does not occur in `s` |
| Strings.JoinSplit | template-generator.py:105-111 | joining the pieces of `cwd.split("src/")` with `"src/"` gives back `cwd` exactly |
| Strings.SplitFirstPiece | template-generator.py:105-106 | the first piece is a prefix of the string with no occurrence of the separator starting inside it; it is followed by the separator, or it is the whole string when the split yields one piece |
| Strings.PrefixBeforeFirstUnique | template-generator.py:105-106 | only one string is "the part before the first separator", so that description pins the first piece down |
| Strings.ContainsOccurs | template-generator.py:110 | Python's `sub in s` holds exactly when `sub` occurs at some index of `s` |
| Layout.PathJoin | template-generator.py:86 | POSIX `os.path.join` of two components; no ensures of its own, see `Layout.PathJoinShape` |
| Layout.PathJoinShape | template-generator.py:86 | `os.path.join` ends with its last component, keeps the first component as a prefix when the last is relative, and stays absolute |
| Layout.FindDir | template-generator.py:96-116 | three outcomes: the split list exactly when `"src"` occurs in `cwd` (the pieces join back to `cwd`, the first is the part before the first `src/`); the empty prefix when it does not but `src` is listed; exit status 1 otherwise |
| Layout.ProjectRoot | template-generator.py:110-116 | the corrected resolver: with `"src"` in `cwd` the root is the part before the first `src/`; otherwise `""` when `src` is listed; no root (exit 1) exactly when neither holds |
| Layout.TargetPath | template-generator.py:86 | the path `create_file` builds; no ensures of its own, see `Layout.TargetPathLayout`, `Layout.RelativeTarget`, `Layout.AbsoluteNameEscapes` and `Layout.TargetPathIsPython` |
| Layout.JoinPath | template-generator.py:86 | `os.path.join` of several components, joined pairwise from the left; no ensures of its own, see `Layout.TargetPathLayout` |
| Layout.TargetPathLayout | template-generator.py:86 | with relative type and name the target is the root, one separator when needed, then `src/api/<type>s/<name>.py` |
| Layout.RelativeTarget | template-generator.py:113 | the empty root from a listed `src` gives the relative path `src/api/<type>s/<name>.py` |
| Layout.AbsoluteNameEscapes | template-generator.py:86 | an absolute name makes the target `<name>.py`, whatever the root and type |
| Layout.TargetPathIsPython | template-generator.py:86 | every target path ends in `.py` |
| Layout.SrcWithoutSeparator | template-generator.py:110-111 | a `cwd` containing `src` but not `src/` (for example one ending in `/src`) splits into the single piece `cwd`, which is then the root |
| Scaffold.Listing | template-generator.py:109 | `os.listdir()`: every listed name is non-empty, has no `/`, and names an existing path directly inside the directory |
| Scaffold.SrcListed | template-generator.py:109-112 | `src` is among the names listed in `cwd` exactly when the path `cwd/src` exists |
| Scaffold.Root | template-generator.py:108-116 | the corrected `find_dir` on the filesystem: there is no root (exit 1) exactly when `src` does not occur in `cwd` and `cwd/src` does not exist |
| Scaffold.RootWithoutSrcInPath | template-generator.py:112-116 | without `src` in the path the root is `""` when `cwd/src` exists, and there is none (exit 1) otherwise |
| Scaffold.TargetIsNotSrc | template-generator.py:86 | a scaffold file is never the `src` entry of the working directory |
| Scaffold.RootStable | template-generator.py:108-113 | adding any path other than `cwd/src` leaves the resolved root unchanged, so every call of `find_dir` in one run agrees |
| Scaffold.PlaceFile | template-generator.py:89-94 | an existing target leaves the filesystem unchanged and the run continues; a missing target gains exactly one empty file and every other path keeps its node |
| Scaffold.CreateFileEffect | template-generator.py:85-94 | `create_file` never crashes in the corrected model; it exits with status 1 exactly when there is no root, changing nothing; otherwise it places the file below the root |
| Scaffold.CreateFileAsWritten | template-generator.py:85-86 | as written, `create_file` crashes exactly when `"src"` occurs in `cwd`; whenever it does not complete, the filesystem is unchanged |
| Scaffold.CreateFileAdds | template-generator.py:91-94 | inside a project, a missing target is added as the one new empty file |
| Scaffold.CreateFileIdempotent | template-generator.py:89-94 | a second `create_file` with the same type, name and cwd ends the same way and changes nothing |
| Scaffold.CreateEach | template-generator.py:73-76 | the calls of `create_file` that `all` makes in turn; no ensures of its own, see `Scaffold.CreateEachInProject` and `Scaffold.CreateEachOutsideProject` |
| Scaffold.CreateEachInProject | template-generator.py:73-76 | inside a project, creating a list of types in turn completes; it adds an empty file at every missing target, keeps every existing path and leaves the root unchanged; no type is skipped because an earlier one was skipped |
| Scaffold.CreateEachOutsideProject | template-generator.py:73-76 | outside a project the first `create_file` exits with status 1 and nothing is created |
| Scaffold.ScaffoldTypeEffect | template-generator.py:60-76 | `scaffold_type`; no ensures of its own, see `Scaffold.ScaffoldAll`, `Scaffold.ScaffoldSingle` and `Scaffold.ScaffoldTypeIdempotent` |
| Scaffold.ScaffoldAll | template-generator.py:73-76 | `all` adds exactly the missing ones of the route, model and schema files, or exits with status 1 unchanged outside a project |
| Scaffold.ScaffoldSingle | template-generator.py:67-72 | `route`, `model` and `schema` each perform exactly one `create_file`; any other string that is not `all` does nothing |
| Scaffold.ScaffoldTypeIdempotent | template-generator.py:60-76 | running `scaffold_type` a second time with the same arguments changes nothing |
| Scaffold.ScaffoldProjectEffect | template-generator.py:38-58 | `scaffold_project`; no ensures of its own, see `Scaffold.ProjectExists` and `Scaffold.ProjectCreated` |
| Scaffold.ProjectExists | template-generator.py:48-50 | an existing `cwd/<name>` makes `scaffold_project` exit with status 1 with no change and no clone |
| Scaffold.ProjectCreated | template-generator.py:51-58 | otherwise exactly the directory `cwd/<name>` is added before the clone, which sees it; the outcome is success exactly when the clone succeeds, else exit 1 with the directory left in place |
| Scaffold.AsWrittenCrashesUnderSrc | template-generator.py:110-111 | as written, every `cwd` containing `src` ends `create_file` in a crash with the filesystem untouched |
| Scaffold.AsWrittenAgreesOutsideSrc | template-generator.py:112-116 | outside the `src` case, the corrected and the as-written `create_file` behave identically |
| Scaffold.CorrectedUnderSrc | template-generator.py:110-111 | with the correction, a `cwd` containing `src` places the file below the part of `cwd` before the first `src/` |
| Scaffold.Workspace.CreateFile | template-generator.py:78-94 | the in-place `create_file` leaves exactly the outcome and filesystem of `CreateFileEffect`, and exits with status 1 only when there is no root |
| Scaffold.Workspace.ScaffoldType | template-generator.py:60-76 | the in-place `scaffold_type`, with its three sequential calls for `all`, leaves exactly the outcome and filesystem of `ScaffoldTypeEffect` |
| Scaffold.Workspace.ScaffoldProject | template-generator.py:38-58 | the in-place `scaffold_project` leaves exactly the outcome and filesystem of `ScaffoldProjectEffect` |
| Scenarios.NestedRoot | template-generator.py:105-111 | in `/home/user/proj/src/api`, `src` occurs in the path and the corrected root is `/home/user/proj/` |
| Scenarios.NestedCreateRoute | template-generator.py:85-86 | from `/home/user/proj/src/api`, `create route -n orders` crashes as written; corrected, it creates `/home/user/proj/src/api/routes/orders.py` |
| Scenarios.RootCreateRoute | template-generator.py:89-94 | at `/home/user/proj` with a `src` directory, `create route -n orders` adds the empty `src/api/routes/orders.py`, and a second run changes nothing |
| Scenarios.OutsideProject | template-generator.py:114-116 | in `/home/user`, without a `src` entry, `create_file` exits with status 1 and changes nothing |

## Left out

- `main` and its `argparse` setup (template-generator.py:9-36) are not modelled. The parser limits the type to `route`, `model`, `schema` and `all`, and it requires a name. `scaffold_type` is modelled on any string: any other string does nothing, as its chain of `if` tests does.
- Printed messages and their colours are not modelled. The model keeps only whether a run continues, exits with a status, or crashes.
- The contents `git clone` writes are not modelled. Only the oracle's success or failure matters. With a list and `shell=True`, Python on POSIX hands only the first element, `git`, to the shell as the command, so the clone may fail there regardless; the oracle leaves this open.
- Host filesystem failures are not modelled. These are a missing `src/api/<type>s` parent for `open`, a missing parent or permission error for `os.mkdir`, and anything else the operating system raises.
- Path normalisation is not modelled (`.`, `..`, repeated or trailing `/`, symbolic links). Each path string is its own key, and files and directories share one namespace for existence checks.
- Layout.ProjectRoot: the correction keeps the first piece of the literal `split("src/")`. From a working directory that contains `src` but not `src/`, such as `<project>/src` itself, that piece is the whole working directory, so files go to `<project>/src/src/api/...`. The docstring's "everything before" `src` would give `<project>/` there; the model does not promise that case.
- The `Workspace` methods use the corrected `find_dir`. The crash of the code as written exists only in the functions `Layout.FindDir` and `Scaffold.CreateFileAsWritten`.

## Findings

| source | as written | input that shows it | evidently intended | confidence | as-written member | corrected member |
|---|---|---|---|---|---|---|
| template-generator.py:111 | `find_dir` returns `path.split("src/")`, a list. `create_file` passes that list to `os.path.join` at line 86, which raises `TypeError` before any file is created | working directory `/home/user/proj/src/api` with `create route -n orders` | return the part of the path before the first `src/` (`/home/user/proj/`) and create `/home/user/proj/src/api/routes/orders.py` | high; not executed | Scaffold.AsWrittenCrashesUnderSrc | Layout.ProjectRoot |
