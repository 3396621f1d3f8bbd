/**
 * The two commands: `init <project-name>` scaffolds a frontend and a backend
 * under a new project directory, and `create:feature <feature-name>` writes a
 * model, a controller and a router for one feature of a backend.
 *
 * Both are methods over the filesystem; each is proved to do exactly what
 * running its ordered step list does.
 */
module CommandController {
  import opened Wrappers
  import opened Names
  import opened Manifest
  import opened Gateway
  import opened Pipeline
  import opened Tools

  /** The template texts, whose wording is not part of this model; the feature templates depend on the feature name. */
  datatype Templates = Templates(
    dotenv: string,
    viteConfig: string,
    serverEntry: string,
    backendRoutes: string,
    mainJsx: string,
    indexJsx: string,
    tailwindConfig: string,
    mainCss: string,
    apiFrontend: string,
    gitignoreProject: string,
    gitignoreBackend: string,
    indexDts: string,
    responseMiddleware: string,
    paginationMiddleware: string,
    featureModel: string -> string,
    featureController: string -> string,
    featureRouter: string -> string)

  /** How a command ends: the guard refused the name, every step ran, or a step threw. */
  datatype Outcome = Rejected | Completed | Threw(error: Error)

  function OutcomeOf(run: Run): Outcome {
    match run
    case Done(_) => Completed
    case Aborted(_, e) => Threw(e)
  }

  // ---------------------------------------------------------------- init

  // Paths are spelled as `init` builds them: `${projectName}/<path inside the project>`.
  function FrontendDir(p: string): Path { Child(p, "frontend") }
  function FrontendSrc(p: string): Path { Child(p, "frontend/src") }
  function BackendDir(p: string): Path { Child(p, "backend") }
  function ManifestPath(p: string): Path { Child(p, "backend/package.json") }
  function MainJsxPath(p: string): Path { Child(p, "frontend/src/main.jsx") }
  function IndexScreenPath(p: string): Path { Child(p, "frontend/src/screens/index_screen.jsx") }

  /** The backend's TypeScript configuration, written as a JSON document. */
  const TsConfig := JObject(map[
    "compilerOptions" := JObject(map[
      "target" := JString("ES6"),
      "rootDir" := JString("./src"),
      "outDir" := JString("./dist"),
      "module" := JString("commonjs"),
      "esModuleInterop" := JBool(true),
      "forceConsistentCasingInFileNames" := JBool(true),
      "skipLibCheck" := JBool(true)])])

  /** The frontend's editor configuration, written as a JSON document. */
  const JsConfig := JObject(map[
    "compilerOptions" := JObject(map[
      "checkJs" := JBool(true),
      "jsx" := JString("react-jsx")])])

  /** The project directory, then the frontend scaffolded and its packages installed. */
  function InitFrontendSteps(p: string): seq<Step> {
    [ MakeDir(p),
      RunTool(p, CreateVite),
      RunTool(FrontendDir(p), InstallFrontend),
      RunTool(FrontendDir(p), InstallRouterAndAxios) ]
  }

  /** The backend directory, its manifest, packages, environment file, TypeScript and its configuration. */
  function InitBackendSteps(p: string, t: Templates): seq<Step> {
    [ MakeDir(BackendDir(p)),
      RunTool(BackendDir(p), InitManifest),
      RunTool(BackendDir(p), InstallServerPackages),
      WriteFile(Child(p, "backend/.env"), Text(t.dotenv)),
      RunTool(BackendDir(p), InstallTypeScript),
      WriteFile(Child(p, "backend/tsconfig.json"), JsonText(TsConfig)) ]
  }

  function UpdateManifestSteps(p: string): seq<Step> {
    [ PatchManifest(ManifestPath(p)) ]
  }

  function ConfigureFrontendSteps(p: string, t: Templates): seq<Step> {
    [ WriteFile(Child(p, "frontend/jsconfig.json"), JsonText(JsConfig)),
      WriteFile(Child(p, "frontend/vite.config.js"), Text(t.viteConfig)) ]
  }

  /** The backend entry and routes, then the frontend sources replaced by an entry file and one screen. */
  function WriteCodeSteps(p: string, t: Templates): seq<Step> {
    [ WriteFile(Child(p, "backend/src/server.ts"), Text(t.serverEntry)),
      WriteFile(Child(p, "backend/src/routes.ts"), Text(t.backendRoutes)),
      RemoveTree(FrontendSrc(p)),
      WriteFile(MainJsxPath(p), Text(t.mainJsx)),
      WriteFile(IndexScreenPath(p), Text(t.indexJsx)) ]
  }

  function InitTailwindSteps(p: string, t: Templates): seq<Step> {
    [ RunTool(FrontendDir(p), InstallTailwind),
      WriteFile(Child(p, "frontend/tailwind.config.js"), Text(t.tailwindConfig)),
      WriteFile(Child(p, "frontend/src/main.css"), Text(t.mainCss)),
      WriteFile(Child(p, "frontend/src/config/api.js"), Text(t.apiFrontend)) ]
  }

  /** The ignore files, the shared type declarations and the two middlewares. */
  function SupportFileSteps(p: string, t: Templates): seq<Step> {
    [ WriteFile(Child(p, ".gitignore"), Text(t.gitignoreProject)),
      WriteFile(Child(p, "backend/.gitignore"), Text(t.gitignoreBackend)),
      WriteFile(Child(p, "backend/src/types/index.d.ts"), Text(t.indexDts)),
      WriteFile(Child(p, "backend/src/middlewares/response.ts"), Text(t.responseMiddleware)),
      WriteFile(Child(p, "backend/src/middlewares/pagination.ts"), Text(t.paginationMiddleware)) ]
  }

  /**
   * Everything `init` does after the guard, in order: 27 steps, the project
   * directory first. The manifest patch comes after `npm init -y` creates the
   * manifest; the only removal is of `frontend/src`, after the Vite scaffold
   * and before the tailwind install; the only patched file is the backend
   * manifest; every tool runs in the project, frontend or backend directory.
   */
  function InitSteps(p: string, t: Templates): (r: seq<Step>)
    ensures |r| == 27 && r[0] == MakeDir(p) && r[1] == RunTool(p, CreateVite)
    ensures r[5] == RunTool(BackendDir(p), InitManifest) && r[10] == PatchManifest(ManifestPath(p))
    ensures r[15] == RemoveTree(FrontendSrc(p)) && r[18] == RunTool(FrontendDir(p), InstallTailwind)
  {
    InitFrontendSteps(p) + InitBackendSteps(p, t) + UpdateManifestSteps(p)
      + ConfigureFrontendSteps(p, t) + WriteCodeSteps(p, t) + InitTailwindSteps(p, t)
      + SupportFileSteps(p, t)
  }

  /** The seven phases run one after another, each starting from where the previous one stopped. */
  lemma InitStepsInPhases(p: string, t: Templates, s: Snapshot, runner: Runner)
    ensures Exec(InitSteps(p, t), s, runner) ==
      Then(Then(Then(Then(Then(Then(Exec(InitFrontendSteps(p), s, runner),
        InitBackendSteps(p, t), runner), UpdateManifestSteps(p), runner),
        ConfigureFrontendSteps(p, t), runner), WriteCodeSteps(p, t), runner),
        InitTailwindSteps(p, t), runner), SupportFileSteps(p, t), runner)
  {
    var a, b, c, d := InitFrontendSteps(p), InitBackendSteps(p, t), UpdateManifestSteps(p), ConfigureFrontendSteps(p, t);
    var e, f, g := WriteCodeSteps(p, t), InitTailwindSteps(p, t), SupportFileSteps(p, t);
    ExecAppend(a + b + c + d + e + f, g, s, runner);
    ExecAppend(a + b + c + d + e, f, s, runner);
    ExecAppend(a + b + c + d, e, s, runner);
    ExecAppend(a + b + c, d, s, runner);
    ExecAppend(a + b, c, s, runner);
    ExecAppend(a, b, s, runner);
  }

  /** A phase method left the filesystem where the run of its steps stops, and reports the error if it threw. */
  predicate Reports(run: Run, after: Snapshot, err: Option<Error>) {
    after == run.state && err == (if run.Done? then None else Some(run.error))
  }

  /** A phase that starts where a completed run stopped continues that run. */
  lemma ContinueRun(run: Run, steps: seq<Step>, runner: Runner, after: Snapshot, err: Option<Error>)
    requires run.Done? && Reports(Exec(steps, run.state, runner), after, err)
    ensures Reports(Then(run, steps, runner), after, err)
  {
  }

  method InitFrontend(fs: FileSystem, p: string, runner: Runner) returns (err: Option<Error>)
    modifies fs
    ensures Reports(Exec(InitFrontendSteps(p), old(fs.State()), runner), fs.State(), err)
  {
    ghost var steps := InitFrontendSteps(p);
    assert steps[0..] == steps;
    var ok: bool;
    ExecFrom(steps, 0, fs.State(), runner);
    fs.CreateDir(p);
    ExecFrom(steps, 1, fs.State(), runner);
    ok := fs.RunTool(p, CreateVite, runner);
    if !ok { return Some(ToolFailed(p, CreateVite)); }
    ExecFrom(steps, 2, fs.State(), runner);
    ok := fs.RunTool(FrontendDir(p), InstallFrontend, runner);
    if !ok { return Some(ToolFailed(FrontendDir(p), InstallFrontend)); }
    ExecFrom(steps, 3, fs.State(), runner);
    ok := fs.RunTool(FrontendDir(p), InstallRouterAndAxios, runner);
    if !ok { return Some(ToolFailed(FrontendDir(p), InstallRouterAndAxios)); }
    assert steps[4..] == [];
    err := None;
  }

  method InitBackend(fs: FileSystem, p: string, t: Templates, runner: Runner) returns (err: Option<Error>)
    modifies fs
    ensures Reports(Exec(InitBackendSteps(p, t), old(fs.State()), runner), fs.State(), err)
  {
    ghost var steps := InitBackendSteps(p, t);
    ghost var run := Exec(steps, fs.State(), runner);
    assert steps[0..] == steps;
    var ok: bool;
    ExecFrom(steps, 0, fs.State(), runner);
    fs.CreateDir(BackendDir(p));
    assert run == Exec(steps[1..], fs.State(), runner);
    ExecFrom(steps, 1, fs.State(), runner);
    ok := fs.RunTool(BackendDir(p), InitManifest, runner);
    if !ok { return Some(ToolFailed(BackendDir(p), InitManifest)); }
    assert run == Exec(steps[2..], fs.State(), runner);
    ExecFrom(steps, 2, fs.State(), runner);
    ok := fs.RunTool(BackendDir(p), InstallServerPackages, runner);
    if !ok { return Some(ToolFailed(BackendDir(p), InstallServerPackages)); }
    assert run == Exec(steps[3..], fs.State(), runner);
    ExecFrom(steps, 3, fs.State(), runner);
    fs.CreateFile(Child(p, "backend/.env"), Text(t.dotenv));
    assert run == Exec(steps[4..], fs.State(), runner);
    ExecFrom(steps, 4, fs.State(), runner);
    ok := fs.RunTool(BackendDir(p), InstallTypeScript, runner);
    if !ok { return Some(ToolFailed(BackendDir(p), InstallTypeScript)); }
    assert run == Exec(steps[5..], fs.State(), runner);
    ExecFrom(steps, 5, fs.State(), runner);
    fs.CreateFile(Child(p, "backend/tsconfig.json"), JsonText(TsConfig));
    assert steps[6..] == [];
    err := None;
  }

  /** Reads the manifest, assigns into the parsed value, and writes it back. */
  method UpdateManifest(fs: FileSystem, p: string, runner: Runner) returns (err: Option<Error>)
    modifies fs
    ensures Reports(Exec(UpdateManifestSteps(p), old(fs.State()), runner), fs.State(), err)
  {
    ExecFrom(UpdateManifestSteps(p), 0, fs.State(), runner);
    assert UpdateManifestSteps(p)[0..] == UpdateManifestSteps(p) && UpdateManifestSteps(p)[1..] == [];
    var path := ManifestPath(p);
    var buf := fs.ReadFile(path);
    if buf.None? { return Some(ReadFailed(path)); }
    var data := Parse(buf.value);
    if data.None? { return Some(ParseFailed(path)); }
    var members: map<string, Json>;
    match data.value {
      case JObject(m) => members := m;
      // `main` lands on the array as a property; `scripts` is then undefined
      case JArray(_) => return Some(PatchFailed(path, CannotSetScripts));
      case _ => return Some(PatchFailed(path, CannotSetMain));
    }
    members := members["main" := JString(EntryPoint)];
    if "scripts" !in members { return Some(PatchFailed(path, CannotSetScripts)); }
    match members["scripts"] {
      case JObject(scripts) =>
        scripts := scripts["watch" := JString(WatchScript)];
        scripts := scripts["start" := JString(StartScript)];
        scripts := scripts["dev" := JString(DevScript)];
        members := members["scripts" := JObject(scripts)];
      case JArray(_) =>
        // the three assignments become array properties, which serialisation leaves out
      case _ => return Some(PatchFailed(path, CannotSetScripts));
    }
    fs.CreateFile(path, JsonText(JObject(members)));
    err := None;
  }

  method ConfigureFrontend(fs: FileSystem, p: string, t: Templates, runner: Runner) returns (err: Option<Error>)
    modifies fs
    ensures Reports(Exec(ConfigureFrontendSteps(p, t), old(fs.State()), runner), fs.State(), err)
  {
    ghost var steps := ConfigureFrontendSteps(p, t);
    assert steps[0..] == steps;
    ExecFrom(steps, 0, fs.State(), runner);
    fs.CreateFile(Child(p, "frontend/jsconfig.json"), JsonText(JsConfig));
    ExecFrom(steps, 1, fs.State(), runner);
    fs.CreateFile(Child(p, "frontend/vite.config.js"), Text(t.viteConfig));
    assert steps[2..] == [];
    err := None;
  }

  method WriteCode(fs: FileSystem, p: string, t: Templates, runner: Runner) returns (err: Option<Error>)
    modifies fs
    ensures Reports(Exec(WriteCodeSteps(p, t), old(fs.State()), runner), fs.State(), err)
  {
    ghost var steps := WriteCodeSteps(p, t);
    assert steps[0..] == steps;
    ExecFrom(steps, 0, fs.State(), runner);
    fs.CreateFile(Child(p, "backend/src/server.ts"), Text(t.serverEntry));
    ExecFrom(steps, 1, fs.State(), runner);
    fs.CreateFile(Child(p, "backend/src/routes.ts"), Text(t.backendRoutes));
    ExecFrom(steps, 2, fs.State(), runner);
    fs.RemoveTree(FrontendSrc(p));
    ExecFrom(steps, 3, fs.State(), runner);
    fs.CreateFile(MainJsxPath(p), Text(t.mainJsx));
    ExecFrom(steps, 4, fs.State(), runner);
    fs.CreateFile(IndexScreenPath(p), Text(t.indexJsx));
    assert steps[5..] == [];
    err := None;
  }

  method InitTailwind(fs: FileSystem, p: string, t: Templates, runner: Runner) returns (err: Option<Error>)
    modifies fs
    ensures Reports(Exec(InitTailwindSteps(p, t), old(fs.State()), runner), fs.State(), err)
  {
    ghost var steps := InitTailwindSteps(p, t);
    assert steps[0..] == steps;
    ExecFrom(steps, 0, fs.State(), runner);
    var ok := fs.RunTool(FrontendDir(p), InstallTailwind, runner);
    if !ok { return Some(ToolFailed(FrontendDir(p), InstallTailwind)); }
    ExecFrom(steps, 1, fs.State(), runner);
    fs.CreateFile(Child(p, "frontend/tailwind.config.js"), Text(t.tailwindConfig));
    ExecFrom(steps, 2, fs.State(), runner);
    fs.CreateFile(Child(p, "frontend/src/main.css"), Text(t.mainCss));
    ExecFrom(steps, 3, fs.State(), runner);
    fs.CreateFile(Child(p, "frontend/src/config/api.js"), Text(t.apiFrontend));
    assert steps[4..] == [];
    err := None;
  }

  method WriteSupportFiles(fs: FileSystem, p: string, t: Templates, runner: Runner) returns (err: Option<Error>)
    modifies fs
    ensures Reports(Exec(SupportFileSteps(p, t), old(fs.State()), runner), fs.State(), err)
  {
    ghost var steps := SupportFileSteps(p, t);
    assert steps[0..] == steps;
    ExecFrom(steps, 0, fs.State(), runner);
    fs.CreateFile(Child(p, ".gitignore"), Text(t.gitignoreProject));
    ExecFrom(steps, 1, fs.State(), runner);
    fs.CreateFile(Child(p, "backend/.gitignore"), Text(t.gitignoreBackend));
    ExecFrom(steps, 2, fs.State(), runner);
    fs.CreateFile(Child(p, "backend/src/types/index.d.ts"), Text(t.indexDts));
    ExecFrom(steps, 3, fs.State(), runner);
    fs.CreateFile(Child(p, "backend/src/middlewares/response.ts"), Text(t.responseMiddleware));
    ExecFrom(steps, 4, fs.State(), runner);
    fs.CreateFile(Child(p, "backend/src/middlewares/pagination.ts"), Text(t.paginationMiddleware));
    assert steps[5..] == [];
    err := None;
  }

  /**
   * `init <project-name>`: refuses a missing or blank name without touching the
   * filesystem; otherwise does exactly what running `InitSteps` does, stopping
   * at the first step that throws and keeping what was already done.
   */
  method Init(fs: FileSystem, projectName: Option<string>, t: Templates, runner: Runner) returns (outcome: Outcome)
    modifies fs
    ensures IsMissingOrBlank(projectName) ==> outcome == Rejected && fs.State() == old(fs.State())
    ensures !IsMissingOrBlank(projectName) ==>
      var run := Exec(InitSteps(projectName.value, t), old(fs.State()), runner);
      fs.State() == run.state && outcome == OutcomeOf(run)
  {
    if projectName.None? || projectName.value == "" || Trim(projectName.value) == "" {
      return Rejected;
    }
    var p := projectName.value;
    InitStepsInPhases(p, t, fs.State(), runner);
    ghost var run := Exec(InitFrontendSteps(p), fs.State(), runner);
    var err := InitFrontend(fs, p, runner);
    if err.Some? { return Threw(err.value); }
    ghost var next := Then(run, InitBackendSteps(p, t), runner);
    err := InitBackend(fs, p, t, runner);
    ContinueRun(run, InitBackendSteps(p, t), runner, fs.State(), err);
    run := next;
    if err.Some? { return Threw(err.value); }
    next := Then(run, UpdateManifestSteps(p), runner);
    err := UpdateManifest(fs, p, runner);
    ContinueRun(run, UpdateManifestSteps(p), runner, fs.State(), err);
    run := next;
    if err.Some? { return Threw(err.value); }
    next := Then(run, ConfigureFrontendSteps(p, t), runner);
    err := ConfigureFrontend(fs, p, t, runner);
    ContinueRun(run, ConfigureFrontendSteps(p, t), runner, fs.State(), err);
    run := next;
    if err.Some? { return Threw(err.value); }
    next := Then(run, WriteCodeSteps(p, t), runner);
    err := WriteCode(fs, p, t, runner);
    ContinueRun(run, WriteCodeSteps(p, t), runner, fs.State(), err);
    run := next;
    if err.Some? { return Threw(err.value); }
    next := Then(run, InitTailwindSteps(p, t), runner);
    err := InitTailwind(fs, p, t, runner);
    ContinueRun(run, InitTailwindSteps(p, t), runner, fs.State(), err);
    run := next;
    if err.Some? { return Threw(err.value); }
    next := Then(run, SupportFileSteps(p, t), runner);
    err := WriteSupportFiles(fs, p, t, runner);
    ContinueRun(run, SupportFileSteps(p, t), runner, fs.State(), err);
    run := next;
    if err.Some? { return Threw(err.value); }
    return Completed;
  }

  /** The two backend sources are distinct and lie outside `frontend/src`. */
  lemma BackendSourcePaths(p: string)
    ensures Child(p, "backend/src/server.ts") != Child(p, "backend/src/routes.ts")
    ensures !Under(Child(p, "backend/src/server.ts"), FrontendSrc(p))
    ensures !Under(Child(p, "backend/src/routes.ts"), FrontendSrc(p))
  {
    assert "backend/src/server.ts"[12] != "backend/src/routes.ts"[12];
    DistinctChildren(p, "backend/src/server.ts", "backend/src/routes.ts");
    assert "frontend/src/"[0] != "backend/src/server.ts"[0] && "frontend/src/"[0] != "backend/src/routes.ts"[0];
    SeparateChild(p, "frontend/src", "backend/src/server.ts");
    SeparateChild(p, "frontend/src", "backend/src/routes.ts");
  }

  /** The two frontend sources are distinct and lie under `frontend/src`. */
  lemma FrontendSourcePaths(p: string)
    ensures MainJsxPath(p) != IndexScreenPath(p)
    ensures Under(MainJsxPath(p), FrontendSrc(p)) && Under(IndexScreenPath(p), FrontendSrc(p))
  {
    assert |"frontend/src/main.jsx"| != |"frontend/src/screens/index_screen.jsx"|;
    DistinctChildren(p, "frontend/src/main.jsx", "frontend/src/screens/index_screen.jsx");
    NestedChild(p, "frontend/src", "frontend/src/main.jsx");
    NestedChild(p, "frontend/src", "frontend/src/screens/index_screen.jsx");
  }

  /**
   * Resetting the frontend sources: the write-code phase never throws, and
   * afterwards the only files under `frontend/src` are the two written after
   * the removal, holding their templates, and every directory under it that
   * `createDir` or a tool made is gone (parents `createFile` makes are not tracked).
   */
  lemma WriteCodeResetsSources(p: string, t: Templates, s: Snapshot, runner: Runner)
    ensures var r := Exec(WriteCodeSteps(p, t), s, runner);
      && r.Done?
      && (forall q :: Under(q, FrontendSrc(p)) ==> (q in r.state.files <==> q == MainJsxPath(p) || q == IndexScreenPath(p)))
      && Holds(r.state.files, MainJsxPath(p), Text(t.mainJsx))
      && Holds(r.state.files, IndexScreenPath(p), Text(t.indexJsx))
      && (forall d :: d in r.state.dirs <==> d in s.dirs && !Under(d, FrontendSrc(p)))
  {
    BackendSourcePaths(p);
    FrontendSourcePaths(p);
    var server, routes := Child(p, "backend/src/server.ts"), Child(p, "backend/src/routes.ts");
    WritesAroundRemovalRun(WriteCodeSteps(p, t), server, Text(t.serverEntry), routes, Text(t.backendRoutes), FrontendSrc(p),
                           MainJsxPath(p), Text(t.mainJsx), IndexScreenPath(p), Text(t.indexJsx), s, runner);
    WritesAroundRemoval(s, server, Text(t.serverEntry), routes, Text(t.backendRoutes), FrontendSrc(p),
                        MainJsxPath(p), Text(t.mainJsx), IndexScreenPath(p), Text(t.indexJsx));
  }

  /**
   * Outside `frontend/src` the write-code phase writes only the two backend
   * sources, which hold their templates; every other file is as before.
   */
  lemma WriteCodeKeepsOtherFiles(p: string, t: Templates, s: Snapshot, runner: Runner)
    ensures var f := Exec(WriteCodeSteps(p, t), s, runner).state.files;
      && Holds(f, Child(p, "backend/src/server.ts"), Text(t.serverEntry))
      && Holds(f, Child(p, "backend/src/routes.ts"), Text(t.backendRoutes))
      && forall q :: !Under(q, FrontendSrc(p)) && q != Child(p, "backend/src/server.ts") && q != Child(p, "backend/src/routes.ts")
                     ==> Kept(s.files, f, q)
  {
    BackendSourcePaths(p);
    FrontendSourcePaths(p);
    var server, routes := Child(p, "backend/src/server.ts"), Child(p, "backend/src/routes.ts");
    WritesAroundRemovalRun(WriteCodeSteps(p, t), server, Text(t.serverEntry), routes, Text(t.backendRoutes), FrontendSrc(p),
                           MainJsxPath(p), Text(t.mainJsx), IndexScreenPath(p), Text(t.indexJsx), s, runner);
    WritesAroundRemoval(s, server, Text(t.serverEntry), routes, Text(t.backendRoutes), FrontendSrc(p),
                        MainJsxPath(p), Text(t.mainJsx), IndexScreenPath(p), Text(t.indexJsx));
  }

  /** When the tailwind phase completes, the three files it writes after its tool hold their templates. */
  lemma InitTailwindWrites(p: string, t: Templates, s: Snapshot, runner: Runner)
    requires Exec(InitTailwindSteps(p, t), s, runner).Done?
    ensures var f := Exec(InitTailwindSteps(p, t), s, runner).state.files;
      && Holds(f, Child(p, "frontend/tailwind.config.js"), Text(t.tailwindConfig))
      && Holds(f, Child(p, "frontend/src/main.css"), Text(t.mainCss))
      && Holds(f, Child(p, "frontend/src/config/api.js"), Text(t.apiFrontend))
  {
    var steps := InitTailwindSteps(p, t);
    WriteSurvives(steps, 1, s, runner);
    WriteSurvives(steps, 2, s, runner);
    WriteSurvives(steps, 3, s, runner);
  }

  /** When the support-file phase completes, its five files hold their templates. */
  lemma SupportFilesWrites(p: string, t: Templates, s: Snapshot, runner: Runner)
    requires Exec(SupportFileSteps(p, t), s, runner).Done?
    ensures var f := Exec(SupportFileSteps(p, t), s, runner).state.files;
      && Holds(f, Child(p, ".gitignore"), Text(t.gitignoreProject))
      && Holds(f, Child(p, "backend/.gitignore"), Text(t.gitignoreBackend))
      && Holds(f, Child(p, "backend/src/types/index.d.ts"), Text(t.indexDts))
      && Holds(f, Child(p, "backend/src/middlewares/response.ts"), Text(t.responseMiddleware))
      && Holds(f, Child(p, "backend/src/middlewares/pagination.ts"), Text(t.paginationMiddleware))
  {
    var steps := SupportFileSteps(p, t);
    WriteSurvives(steps, 0, s, runner);
    WriteSurvives(steps, 1, s, runner);
    WriteSurvives(steps, 2, s, runner);
    WriteSurvives(steps, 3, s, runner);
    WriteSurvives(steps, 4, s, runner);
  }

  /** The support-file phase leaves the files the tailwind phase wrote as they were, whether or not it completes. */
  lemma SupportFilesKeepTailwindFiles(p: string, t: Templates, s: Snapshot, runner: Runner)
    ensures var f := Exec(SupportFileSteps(p, t), s, runner).state.files;
      && Kept(s.files, f, Child(p, "frontend/tailwind.config.js"))
      && Kept(s.files, f, Child(p, "frontend/src/main.css"))
      && Kept(s.files, f, Child(p, "frontend/src/config/api.js"))
  {
    var steps := SupportFileSteps(p, t);
    ExecKeepsUntouched(steps, s, runner, Child(p, "frontend/tailwind.config.js"));
    ExecKeepsUntouched(steps, s, runner, Child(p, "frontend/src/main.css"));
    ExecKeepsUntouched(steps, s, runner, Child(p, "frontend/src/config/api.js"));
  }

  /**
   * When `init` completes, the eight files it writes after its last tool run
   * hold their templates: nothing later overwrites or removes them.
   */
  lemma InitCompletedWritesLastFiles(p: string, t: Templates, s: Snapshot, runner: Runner)
    requires Exec(InitSteps(p, t), s, runner).Done?
    ensures var f := Exec(InitSteps(p, t), s, runner).state.files;
      && Holds(f, Child(p, "frontend/tailwind.config.js"), Text(t.tailwindConfig))
      && Holds(f, Child(p, "frontend/src/main.css"), Text(t.mainCss))
      && Holds(f, Child(p, "frontend/src/config/api.js"), Text(t.apiFrontend))
      && Holds(f, Child(p, ".gitignore"), Text(t.gitignoreProject))
      && Holds(f, Child(p, "backend/.gitignore"), Text(t.gitignoreBackend))
      && Holds(f, Child(p, "backend/src/types/index.d.ts"), Text(t.indexDts))
      && Holds(f, Child(p, "backend/src/middlewares/response.ts"), Text(t.responseMiddleware))
      && Holds(f, Child(p, "backend/src/middlewares/pagination.ts"), Text(t.paginationMiddleware))
  {
    var before := InitFrontendSteps(p) + InitBackendSteps(p, t) + UpdateManifestSteps(p)
                  + ConfigureFrontendSteps(p, t) + WriteCodeSteps(p, t);
    var tailwind := InitTailwindSteps(p, t);
    ExecAppend(before + tailwind, SupportFileSteps(p, t), s, runner);
    ExecAppend(before, tailwind, s, runner);
    var s5 := Exec(before, s, runner).state;
    var s6 := Exec(tailwind, s5, runner).state;
    InitTailwindWrites(p, t, s5, runner);
    SupportFilesWrites(p, t, s6, runner);
    SupportFilesKeepTailwindFiles(p, t, s6, runner);
  }

  /**
   * When the frontend and backend phases complete but the manifest cannot be
   * patched, `init` throws at the patch: the filesystem is what those phases
   * left, the error names the manifest, and no later step runs.
   */
  lemma InitStopsAtManifest(p: string, t: Templates, s: Snapshot, runner: Runner)
    requires Exec(InitFrontendSteps(p) + InitBackendSteps(p, t), s, runner).Done?
    requires !PatchApplies(Exec(InitFrontendSteps(p) + InitBackendSteps(p, t), s, runner).state, ManifestPath(p))
    ensures var r := Exec(InitSteps(p, t), s, runner);
      && r.Aborted?
      && r.state == Exec(InitFrontendSteps(p) + InitBackendSteps(p, t), s, runner).state
      && !r.error.ToolFailed? && r.error.path == ManifestPath(p)
  {
    var built := InitFrontendSteps(p) + InitBackendSteps(p, t);
    var s2 := Exec(built, s, runner).state;
    PatchStepOutcome(ManifestPath(p), s2, runner);
    ExecAppend(built, UpdateManifestSteps(p), s, runner);
    var acc := built + UpdateManifestSteps(p);
    assert Exec(acc, s, runner) == Apply(PatchManifest(ManifestPath(p)), s2, runner);
    AbortSkipsRest(acc, ConfigureFrontendSteps(p, t), s, runner);
    acc := acc + ConfigureFrontendSteps(p, t);
    AbortSkipsRest(acc, WriteCodeSteps(p, t), s, runner);
    acc := acc + WriteCodeSteps(p, t);
    AbortSkipsRest(acc, InitTailwindSteps(p, t), s, runner);
    acc := acc + InitTailwindSteps(p, t);
    AbortSkipsRest(acc, SupportFileSteps(p, t), s, runner);
  }

  // ------------------------------------------------------------- feature

  // Paths relative to the working directory, with the name spliced in as given.
  function ModelPath(n: string): Path { "src/models/" + n + "_model.ts" }
  function ControllerPath(n: string): Path { "src/controllers/" + n + "_controller.ts" }
  function RouterPath(n: string): Path { "src/routers/" + n + "_router.ts" }

  /**
   * What `create:feature <n>` does: three writes, in the order model,
   * controller, router, to three distinct `.ts` files under `src/`, each path
   * spliced from `n` as given.
   */
  function FeatureSteps(n: string, t: Templates): (r: seq<Step>)
    ensures |r| == 3 && forall i :: 0 <= i < |r| ==> r[i].WriteFile? && "src/" <= r[i].path && ".ts" == r[i].path[|r[i].path| - 3..]
    ensures r[0].path != r[1].path && r[1].path != r[2].path && r[0].path != r[2].path
  {
    [ WriteFile(ModelPath(n), Text(t.featureModel(n))),
      WriteFile(ControllerPath(n), Text(t.featureController(n))),
      WriteFile(RouterPath(n), Text(t.featureRouter(n))) ]
  }

  /** The filesystem after the three feature writes. */
  function AfterFeature(s: Snapshot, n: string, t: Templates): Snapshot {
    Snapshot(s.files[ModelPath(n) := Text(t.featureModel(n))]
                    [ControllerPath(n) := Text(t.featureController(n))]
                    [RouterPath(n) := Text(t.featureRouter(n))], s.dirs)
  }

  /**
   * `create:feature <feature>`: refuses a missing or blank name without touching
   * the filesystem; otherwise writes the three feature files and completes.
   */
  method CreateFeature(fs: FileSystem, featureName: Option<string>, t: Templates) returns (outcome: Outcome)
    modifies fs
    ensures IsMissingOrBlank(featureName) ==> outcome == Rejected && fs.State() == old(fs.State())
    ensures !IsMissingOrBlank(featureName) ==>
      outcome == Completed && fs.State() == AfterFeature(old(fs.State()), featureName.value, t)
  {
    if featureName.None? || featureName.value == "" || Trim(featureName.value) == "" {
      return Rejected;
    }
    var n := featureName.value;
    fs.CreateFile(ModelPath(n), Text(t.featureModel(n)));
    fs.CreateFile(ControllerPath(n), Text(t.featureController(n)));
    fs.CreateFile(RouterPath(n), Text(t.featureRouter(n)));
    return Completed;
  }

  /**
   * A feature run writes exactly its three distinct paths, each with its role's
   * template applied to the name, and changes nothing else.
   */
  lemma FeatureWritesExactlyThree(n: string, t: Templates, s: Snapshot, runner: Runner)
    ensures ModelPath(n) != ControllerPath(n) && ControllerPath(n) != RouterPath(n) && ModelPath(n) != RouterPath(n)
    ensures var r := Exec(FeatureSteps(n, t), s, runner);
      && r.Done?
      && r.state.dirs == s.dirs
      && r.state.files.Keys == s.files.Keys + {ModelPath(n), ControllerPath(n), RouterPath(n)}
      && r.state.files[ModelPath(n)] == Text(t.featureModel(n))
      && r.state.files[ControllerPath(n)] == Text(t.featureController(n))
      && r.state.files[RouterPath(n)] == Text(t.featureRouter(n))
      && forall q :: q in s.files && q !in {ModelPath(n), ControllerPath(n), RouterPath(n)} ==> r.state.files[q] == s.files[q]
  {
    FeatureRun(n, t, s, runner);
  }

  /** A feature run is the three writes, one after the other; it never throws. */
  lemma FeatureRun(n: string, t: Templates, s: Snapshot, runner: Runner)
    ensures Exec(FeatureSteps(n, t), s, runner) == Done(AfterFeature(s, n, t))
  {
    var steps := FeatureSteps(n, t);
    assert steps[0..] == steps;
    ExecFrom(steps, 0, s, runner);
    var s1 := Apply(steps[0], s, runner).state;
    ExecFrom(steps, 1, s1, runner);
    var s2 := Apply(steps[1], s1, runner).state;
    ExecFrom(steps, 2, s2, runner);
    assert steps[3..] == [];
  }

  /** Every step of `steps` targets `p` or a path under it. */
  predicate InProject(steps: seq<Step>, p: string) {
    forall i :: 0 <= i < |steps| ==> Under(Target(steps[i]), p)
  }

  lemma InProjectAppend(a: seq<Step>, b: seq<Step>, p: string)
    requires InProject(a, p) && InProject(b, p)
    ensures InProject(a + b, p)
  {
    forall i | 0 <= i < |a + b| ensures Under(Target((a + b)[i]), p) {
      if i >= |a| {
        assert (a + b)[i] == b[i - |a|];
      }
    }
  }

  lemma InitFrontendInProject(p: string)
    ensures InProject(InitFrontendSteps(p), p)
  {
  }

  lemma InitBackendInProject(p: string, t: Templates)
    ensures InProject(InitBackendSteps(p, t), p)
  {
  }

  lemma UpdateManifestInProject(p: string)
    ensures InProject(UpdateManifestSteps(p), p)
  {
  }

  lemma ConfigureFrontendInProject(p: string, t: Templates)
    ensures InProject(ConfigureFrontendSteps(p, t), p)
  {
  }

  lemma WriteCodeInProject(p: string, t: Templates)
    ensures InProject(WriteCodeSteps(p, t), p)
  {
  }

  lemma InitTailwindInProject(p: string, t: Templates)
    ensures InProject(InitTailwindSteps(p, t), p)
  {
  }

  lemma SupportFilesInProject(p: string, t: Templates)
    ensures InProject(SupportFileSteps(p, t), p)
  {
  }

  /**
   * The step kinds `init` uses sparingly: a removal only of `frontend/src`, a
   * patch only of the backend manifest, tool runs only in the project,
   * frontend or backend directory.
   */
  predicate Expected(step: Step, p: string) {
    && (step.RemoveTree? ==> step.path == FrontendSrc(p))
    && (step.PatchManifest? ==> step.path == ManifestPath(p))
    && (step.RunTool? ==> step.dir == p || step.dir == FrontendDir(p) || step.dir == BackendDir(p))
  }

  /** `init` removes nothing but `frontend/src`, patches nothing but the backend manifest, and runs tools only in its three directories. */
  lemma InitEffectsAreExpected(p: string, t: Templates)
    ensures forall step :: step in InitSteps(p, t) ==> Expected(step, p)
  {
    SetupEffectsAreExpected(p, t);
    CodeEffectsAreExpected(p, t);
    FinishEffectsAreExpected(p, t);
  }

  lemma SetupEffectsAreExpected(p: string, t: Templates)
    ensures forall step :: step in InitFrontendSteps(p) + InitBackendSteps(p, t) + UpdateManifestSteps(p) ==> Expected(step, p)
  {
    assert forall step :: step in InitFrontendSteps(p) ==> Expected(step, p);
    assert forall step :: step in InitBackendSteps(p, t) ==> Expected(step, p);
  }

  lemma CodeEffectsAreExpected(p: string, t: Templates)
    ensures forall step :: step in ConfigureFrontendSteps(p, t) + WriteCodeSteps(p, t) ==> Expected(step, p)
  {
    assert forall step :: step in WriteCodeSteps(p, t) ==> Expected(step, p);
  }

  lemma FinishEffectsAreExpected(p: string, t: Templates)
    ensures forall step :: step in InitTailwindSteps(p, t) + SupportFileSteps(p, t) ==> Expected(step, p)
  {
    assert forall step :: step in InitTailwindSteps(p, t) ==> Expected(step, p);
  }

  /** Every directory, file and tool working directory of `init` is the project directory or lies under it. */
  lemma InitStaysInProject(p: string, t: Templates)
    ensures forall step :: step in InitSteps(p, t) ==> Under(Target(step), p)
    ensures forall step :: step in InitSteps(p, t) && step.RunTool? ==> "cd " + p <= ShellLine(step.dir, step.tool)
  {
    InitFrontendInProject(p);
    InitBackendInProject(p, t);
    UpdateManifestInProject(p);
    ConfigureFrontendInProject(p, t);
    WriteCodeInProject(p, t);
    InitTailwindInProject(p, t);
    SupportFilesInProject(p, t);
    InProjectAppend(InitFrontendSteps(p), InitBackendSteps(p, t), p);
    var acc := InitFrontendSteps(p) + InitBackendSteps(p, t);
    InProjectAppend(acc, UpdateManifestSteps(p), p);
    acc := acc + UpdateManifestSteps(p);
    InProjectAppend(acc, ConfigureFrontendSteps(p, t), p);
    acc := acc + ConfigureFrontendSteps(p, t);
    InProjectAppend(acc, WriteCodeSteps(p, t), p);
    acc := acc + WriteCodeSteps(p, t);
    InProjectAppend(acc, InitTailwindSteps(p, t), p);
    acc := acc + InitTailwindSteps(p, t);
    InProjectAppend(acc, SupportFileSteps(p, t), p);
    acc := acc + SupportFileSteps(p, t);
    assert acc == InitSteps(p, t);
    forall step | step in InitSteps(p, t) && step.RunTool?
      ensures "cd " + p <= ShellLine(step.dir, step.tool)
    {
      ShellLineStartsInProject(step.dir, step.tool, p);
    }
  }
}
