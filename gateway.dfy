/**
 * The filesystem the commands act on, and the external tool runner.
 * Paths are the strings the commands build, relative to the process's working
 * directory; they are compared as strings, not normalised.
 */
module Gateway {
  import opened Wrappers
  import opened Manifest
  import opened Tools

  type Path = string

  /**
   * What a file holds: an opaque text (a template, or whatever a tool wrote),
   * or the serialisation of a JSON value.
   */
  datatype Content = Text(text: string) | JsonText(value: Json)

  /**
   * Files and directories. `dirs` holds the directories `createDir` or a tool
   * made; the parent directories `createFile` makes for a new file are not
   * recorded. Nothing here keeps one path from being both a file and a
   * directory: the file handler's own checks are not part of this model.
   */
  datatype Snapshot = Snapshot(files: map<Path, Content>, dirs: set<Path>)

  /** `${dir}/${name}`: an entry of a directory. */
  function Child(dir: Path, name: string): Path {
    dir + "/" + name
  }

  /** `path` is `root` itself or lies somewhere below it. */
  predicate Under(path: Path, root: Path) {
    path == root || root + "/" <= path
  }

  /** The state after a recursive, forced removal of `root`: every file and directory under it is gone. */
  function WithoutTree(s: Snapshot, root: Path): Snapshot {
    Snapshot(map p | p in s.files && !Under(p, root) :: s.files[p],
             set d | d in s.dirs && !Under(d, root))
  }

  /** `JSON.parse` of a file's text: only JSON serialisations parse. */
  function Parse(c: Content): Option<Json> {
    match c
    case JsonText(v) => Some(v)
    case Text(_) => None
  }

  /** What a synchronous tool run leaves behind, and whether the tool exited with status zero. */
  datatype ToolRun = ToolRun(after: Snapshot, exitedOk: bool)

  /** The external tools: the shell line handed to `execSync` and the filesystem before the run, to the run's result. */
  type Runner = (string, Snapshot) -> ToolRun

  /** Inside one directory, an entry named `a/...` lies under the entry named `a`. */
  lemma NestedChild(dir: Path, a: string, b: string)
    requires a + "/" <= b
    ensures Under(Child(dir, b), Child(dir, a))
  {
    assert Child(dir, a) + "/" == dir + "/" + (a + "/");
    assert Child(dir, b) == dir + "/" + b;
  }

  /** Inside one directory, an entry whose name is neither `a` nor `a/...` does not lie under the entry `a`. */
  lemma SeparateChild(dir: Path, a: string, b: string)
    requires b != a && !(a + "/" <= b)
    ensures !Under(Child(dir, b), Child(dir, a))
  {
    var k := |dir| + 1;
    assert Child(dir, b)[k..] == b;
    assert (Child(dir, a) + "/")[k..] == a + "/";
    assert Child(dir, a)[k..] == a;
  }

  /** Different entries of one directory have different paths. */
  lemma DistinctChildren(dir: Path, a: string, b: string)
    requires a != b
    ensures Child(dir, a) != Child(dir, b)
  {
    var k := |dir| + 1;
    assert Child(dir, a)[k..] == a;
    assert Child(dir, b)[k..] == b;
  }

  class FileSystem {
    var files: map<Path, Content>
    var dirs: set<Path>

    function State(): Snapshot
      reads this
    {
      Snapshot(files, dirs)
    }

    /** Adds a directory; no file changes. */
    method CreateDir(path: Path)
      modifies this
      ensures files == old(files) && dirs == old(dirs) + {path}
    {
      dirs := dirs + {path};
    }

    /** Creates or overwrites one file; nothing else changes. */
    method CreateFile(path: Path, content: Content)
      modifies this
      ensures files == old(files)[path := content] && dirs == old(dirs)
    {
      files := files[path := content];
    }

    /** Recursive, forced removal: a missing `root` is not an error. */
    method RemoveTree(root: Path)
      modifies this
      ensures State() == WithoutTree(old(State()), root)
    {
      files := map p | p in files && !Under(p, root) :: files[p];
      dirs := set d | d in dirs && !Under(d, root);
    }

    /** Reads a file; `None` when it does not exist. */
    method ReadFile(path: Path) returns (r: Option<Content>)
      ensures r.Some? <==> path in files
      ensures r.Some? ==> r.value == files[path]
    {
      r := if path in files then Some(files[path]) else None;
    }

    /** Hands `cd <dir> && <command>` to the shell and waits; the filesystem becomes whatever the tool left. */
    method RunTool(dir: Path, tool: Tool, runner: Runner) returns (exitedOk: bool)
      modifies this
      ensures State() == runner(ShellLine(dir, tool), old(State())).after
      ensures exitedOk == runner(ShellLine(dir, tool), old(State())).exitedOk
    {
      var run := runner(ShellLine(dir, tool), State());
      files := run.after.files;
      dirs := run.after.dirs;
      exitedOk := run.exitedOk;
    }
  }
}
