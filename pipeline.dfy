/**
 * The commands as ordered steps, and what running the steps does to the
 * filesystem. A step that throws ends the run; the steps already done are
 * not rolled back.
 */
module Pipeline {
  import opened Wrappers
  import opened Manifest
  import opened Gateway
  import opened Tools

  datatype Step =
    | MakeDir(path: Path)
    | WriteFile(path: Path, content: Content)
    | RemoveTree(path: Path)
    | RunTool(dir: Path, tool: Tool)
    | PatchManifest(path: Path)

  /** What a command throws: `execSync` on a non-zero exit, `readFileSync`, `JSON.parse`, or a property assignment. */
  datatype Error =
    | ToolFailed(dir: Path, tool: Tool)
    | ReadFailed(path: Path)
    | ParseFailed(path: Path)
    | PatchFailed(path: Path, reason: PatchError)

  /** A run that went through every step, or one that threw, with the filesystem it left behind. */
  datatype Run = Done(state: Snapshot) | Aborted(state: Snapshot, error: Error)

  /** The path a step creates, writes, removes, patches or runs in. */
  function Target(step: Step): Path {
    match step
    case MakeDir(d) => d
    case WriteFile(p, _) => p
    case RemoveTree(root) => root
    case RunTool(dir, _) => dir
    case PatchManifest(p) => p
  }

  /**
   * One step. Only a tool run or the manifest patch can throw; a write leaves
   * its content at its path, a removal leaves nothing under its root, and a
   * new directory changes no file.
   */
  function Apply(step: Step, s: Snapshot, runner: Runner): (r: Run)
    ensures r.Aborted? ==> step.RunTool? || step.PatchManifest?
    ensures step.WriteFile? ==> step.path in r.state.files && r.state.files[step.path] == step.content
    ensures step.RemoveTree? ==> forall q :: Under(q, step.path) ==> q !in r.state.files && q !in r.state.dirs
    ensures step.MakeDir? ==> step.path in r.state.dirs && r.state.files == s.files
  {
    match step
    case MakeDir(d) => Done(s.(dirs := s.dirs + {d}))
    case WriteFile(p, c) => Done(s.(files := s.files[p := c]))
    case RemoveTree(root) => Done(WithoutTree(s, root))
    case RunTool(dir, tool) =>
      var t := runner(ShellLine(dir, tool), s);
      if t.exitedOk then Done(t.after) else Aborted(t.after, ToolFailed(dir, tool))
    case PatchManifest(p) =>
      if p !in s.files then Aborted(s, ReadFailed(p))
      else match Parse(s.files[p]) {
        case None => Aborted(s, ParseFailed(p))
        case Some(data) =>
          match Patch(data) {
            case Success(v) => Done(s.(files := s.files[p := JsonText(v)]))
            case Failure(e) => Aborted(s, PatchFailed(p, e))
          }
      }
  }

  /** No step but a tool run changes a file outside its target. */
  lemma ApplyKeepsOtherFiles(step: Step, s: Snapshot, runner: Runner, q: Path)
    requires !step.RunTool? && q in s.files && !Under(q, Target(step))
    ensures var r := Apply(step, s, runner); q in r.state.files && r.state.files[q] == s.files[q]
  {
  }

  /** The steps in order, stopping at the first one that throws. */
  function Exec(steps: seq<Step>, s: Snapshot, runner: Runner): Run
    decreases |steps|
  {
    if steps == [] then Done(s)
    else match Apply(steps[0], s, runner)
      case Done(s') => Exec(steps[1..], s', runner)
      case Aborted(s', e) => Aborted(s', e)
  }

  /** The manifest patch can go through: the file exists, parses, and has a `scripts` object or array. */
  predicate PatchApplies(s: Snapshot, path: Path) {
    path in s.files && Parse(s.files[path]).Some? && HasScriptsContainer(Parse(s.files[path]).value)
  }

  /** Continues a run with further steps, unless it already threw. */
  function Then(r: Run, steps: seq<Step>, runner: Runner): Run {
    match r
    case Done(s) => Exec(steps, s, runner)
    case Aborted(_, _) => r
  }

  /** Running the steps from index `k` on is running step `k`, then the steps after it. */
  lemma ExecFrom(steps: seq<Step>, k: nat, s: Snapshot, runner: Runner)
    requires k < |steps|
    ensures Exec(steps[k..], s, runner) == Then(Apply(steps[k], s, runner), steps[k + 1..], runner)
  {
    assert steps[k..][0] == steps[k];
    assert steps[k..][1..] == steps[k + 1..];
  }

  /** Running two step lists one after the other is running their concatenation. */
  lemma {:induction false} ExecAppend(a: seq<Step>, b: seq<Step>, s: Snapshot, runner: Runner)
    ensures Exec(a + b, s, runner) == Then(Exec(a, s, runner), b, runner)
    decreases |a|
  {
    if a == [] {
      assert a + b == b;
    } else {
      assert (a + b)[0] == a[0];
      assert (a + b)[1..] == a[1..] + b;
      match Apply(a[0], s, runner)
      case Done(s') => ExecAppend(a[1..], b, s', runner);
      case Aborted(_, _) =>
    }
  }

  /** Once a run throws, no later step runs and nothing is rolled back. */
  lemma AbortSkipsRest(a: seq<Step>, b: seq<Step>, s: Snapshot, runner: Runner)
    requires Exec(a, s, runner).Aborted?
    ensures Exec(a + b, s, runner) == Exec(a, s, runner)
  {
    ExecAppend(a, b, s, runner);
  }

  /** Whether a step may change the file at `path`; a tool may change anything. */
  predicate Touches(step: Step, path: Path) {
    match step
    case MakeDir(_) => false
    case WriteFile(p, _) => p == path
    case RemoveTree(root) => Under(path, root)
    case RunTool(_, _) => true
    case PatchManifest(p) => p == path
  }

  /** Steps that do not touch `path` leave it as it was, whether or not the run throws. */
  lemma {:induction false} ExecKeepsUntouched(steps: seq<Step>, s: Snapshot, runner: Runner, path: Path)
    requires forall i :: 0 <= i < |steps| ==> !Touches(steps[i], path)
    ensures var f := Exec(steps, s, runner).state;
      && (path in f.files <==> path in s.files)
      && (path in s.files ==> f.files[path] == s.files[path])
    decreases |steps|
  {
    if steps != [] {
      assert !Touches(steps[0], path);
      match Apply(steps[0], s, runner)
      case Done(s') =>
        assert forall i :: 0 <= i < |steps[1..]| ==> steps[1..][i] == steps[i + 1];
        ExecKeepsUntouched(steps[1..], s', runner, path);
      case Aborted(_, _) =>
    }
  }

  /** In a completed run a file written by step `i` and touched by no later step holds what step `i` wrote. */
  lemma {:induction false} WriteSurvives(steps: seq<Step>, i: nat, s: Snapshot, runner: Runner)
    requires i < |steps| && steps[i].WriteFile?
    requires forall j :: i < j < |steps| ==> !Touches(steps[j], steps[i].path)
    requires Exec(steps, s, runner).Done?
    ensures var f := Exec(steps, s, runner).state;
      steps[i].path in f.files && f.files[steps[i].path] == steps[i].content
    decreases i
  {
    var s' := Apply(steps[0], s, runner).state;
    assert forall j :: 0 <= j < |steps[1..]| ==> steps[1..][j] == steps[j + 1];
    if i == 0 {
      ExecKeepsUntouched(steps[1..], s', runner, steps[0].path);
    } else {
      WriteSurvives(steps[1..], i - 1, s', runner);
    }
  }

  /**
   * The manifest patch step completes exactly when the file exists, parses, and
   * has a `scripts` object or array; it then holds the patched value and nothing
   * else changes. When it throws, nothing has changed.
   */
  lemma PatchStepOutcome(path: Path, s: Snapshot, runner: Runner)
    ensures var r := Apply(PatchManifest(path), s, runner);
      && (r.Done? <==> PatchApplies(s, path))
      && (r.Aborted? ==> r.error == (if path !in s.files then ReadFailed(path)
                                     else if Parse(s.files[path]).None? then ParseFailed(path)
                                     else PatchFailed(path, Patch(Parse(s.files[path]).value).error)))
      && (r.Aborted? ==> r.state == s)
      && (r.Done? ==>
            && r.state.dirs == s.dirs
            && r.state.files == s.files[path := JsonText(Patch(s.files[path].value).value)]
            && Patch(r.state.files[path].value) == Success(r.state.files[path].value))
  {
    var r := Apply(PatchManifest(path), s, runner);
    if r.Done? {
      PatchIdempotent(s.files[path].value);
    }
  }

  /** `path` exists in `files` and holds `c`. */
  predicate Holds(files: map<Path, Content>, path: Path, c: Content) {
    path in files && files[path] == c
  }

  /** A file of `before` is still there, with the same content, in `after`. */
  predicate Kept(before: map<Path, Content>, after: map<Path, Content>, path: Path) {
    path in before ==> Holds(after, path, before[path])
  }

  /** The state two writes, a recursive removal of `root` and two more writes leave behind. */
  function AfterWritesAroundRemoval(s: Snapshot, a: Path, x: Content, b: Path, y: Content, root: Path,
                                    c: Path, z: Content, d: Path, w: Content): Snapshot
  {
    var reset := WithoutTree(Snapshot(s.files[a := x][b := y], s.dirs), root);
    Snapshot(reset.files[c := z][d := w], reset.dirs)
  }

  /** Running two writes, a removal and two writes never throws. */
  lemma WritesAroundRemovalRun(steps: seq<Step>, a: Path, x: Content, b: Path, y: Content, root: Path,
                               c: Path, z: Content, d: Path, w: Content, s: Snapshot, runner: Runner)
    requires steps == [WriteFile(a, x), WriteFile(b, y), RemoveTree(root), WriteFile(c, z), WriteFile(d, w)]
    ensures Exec(steps, s, runner) == Done(AfterWritesAroundRemoval(s, a, x, b, y, root, c, z, d, w))
  {
    assert steps[0..] == steps;
    ExecFrom(steps, 0, s, runner);
    var s1 := Apply(steps[0], s, runner).state;
    ExecFrom(steps, 1, s1, runner);
    var s2 := Apply(steps[1], s1, runner).state;
    ExecFrom(steps, 2, s2, runner);
    var s3 := Apply(steps[2], s2, runner).state;
    ExecFrom(steps, 3, s3, runner);
    var s4 := Apply(steps[3], s3, runner).state;
    ExecFrom(steps, 4, s4, runner);
    assert steps[5..] == [];
  }

  /**
   * After two writes, a recursive removal of `root` and two writes under
   * `root`: the first two files survive when they lie outside `root`, the only
   * files left under `root` are the last two, and nothing else changes.
   */
  lemma WritesAroundRemoval(s: Snapshot, a: Path, x: Content, b: Path, y: Content, root: Path,
                            c: Path, z: Content, d: Path, w: Content)
    requires a != b && c != d && !Under(a, root) && !Under(b, root) && Under(c, root) && Under(d, root)
    ensures var f := AfterWritesAroundRemoval(s, a, x, b, y, root, c, z, d, w);
      && Holds(f.files, a, x) && Holds(f.files, b, y)
      && Holds(f.files, c, z) && Holds(f.files, d, w)
      && (forall q :: Under(q, root) ==> (q in f.files <==> q == c || q == d))
      && (forall q :: !Under(q, root) && q != a && q != b ==> Kept(s.files, f.files, q))
      && (forall q :: q in f.dirs <==> q in s.dirs && !Under(q, root))
  {
  }
}
