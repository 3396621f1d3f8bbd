# rsmern command controller, modelled in Dafny

`rsmern` is a command-line scaffolder for MERN projects. Its command
controller has two commands:

- `init <project-name>` lays out a Vite/React frontend and an
  Express/TypeScript backend under a new project directory;
- `create:feature <feature>` writes a model, a controller and a router for
  one backend feature.

This project models both commands over an abstract filesystem. The filesystem
is a map from path strings to contents plus a set of directories. The project
proves what the commands guarantee about it.

Modules:

- `Wrappers`: `Option` and `Result`.
- `Names`: the name guard both commands run first, `!name || name.trim() == ""`,
  with ECMAScript's `trim` written out character by character.
- `Manifest`: JSON values, and the patch `init` applies to
  `backend/package.json`. The patch sets `main` and the `watch`, `start` and
  `dev` scripts. It is stated on values, and proved to change nothing else and
  to be idempotent.
- `Tools`: the external commands `init` runs, and the shell line each one
  becomes (`cd <dir> && <command>`).
- `Gateway`: the filesystem. Its class `FileSystem` holds `files` and `dirs`
  and has the operations the controller calls:
  - `createDir` and `createFile` (create or overwrite);
  - `rmSync` with `recursive` and `force`;
  - `readFileSync`;
  - `execSync`.

  The effect of a tool run is a parameter, `Runner`, because it is arbitrary.
  It receives the exact shell line handed to `execSync`, so what the shell does
  with an unquoted project name is part of that arbitrary effect.
  A tool that fails may already have changed files.
- `Pipeline`: a step language (directory, write, subtree removal, tool run,
  manifest patch) and its interpreter `Exec`. `Exec` runs steps in order and
  stops at the first step that throws, keeping whatever was already done.
  General lemmas about it:
  - appending step lists;
  - a failure skips the rest;
  - untouched files survive;
  - a write that nothing later touches is what the file finally holds.
- `CommandController`:
  - `init` is split into seven sections of this model's own grouping (the
    source marks eleven commented blocks; the model joins neighbouring blocks
    that belong together, such as the backend's installs and configuration
    files). Each section is a
    module-level method that takes the `FileSystem` and is proved to do
    exactly what its step list does, and `Init` is proved to do exactly what `InitSteps` does.
  - `CreateFeature` is proved to do exactly what `FeatureSteps` does.
  - Lemmas about the step lists cover the properties the commands promise.

Behaviour of the code that the model keeps:

- **A failing tool aborts `init`.** `execSync` is synchronous and throws on a
  non-zero exit. Its second argument is taken as options and never called, so
  the `if(err)` branches are dead. In the model a failed tool ends `init` with
  `Threw(ToolFailed(dir, tool))`, and nothing after it runs.
- **Names are used untrimmed.** The guard trims the name only to test it.
  Every path uses the raw argument, so `" app"` creates `" app/..."`.
- **The manifest patch runs in strict mode.** The controller is an ES module,
  so assigning a property on a primitive throws.
  - `data["main"] = ...` fails when the parsed manifest is not an object
    (`CannotSetMain`).
  - `data["scripts"]["watch"] = ...` fails when `scripts` is missing or is not
    an object (`CannotSetScripts`). A top-level array also fails here, since
    its `scripts` is undefined.
  - A `scripts` array accepts the three assignments as array properties, which
    `JSON.stringify` drops. So the written manifest has `main` set and
    `scripts` unchanged.

## Model

| member | source | states |
|---|---|---|
| Names.TrimStart | src/controllers/command_controller.js:9 | the result is a suffix of the name, every dropped character is whitespace or a line terminator, and a non-empty result starts with a kept character |
| Names.TrimEnd | src/controllers/command_controller.js:9 | the result is a prefix of its input, every dropped character is whitespace or a line terminator, and a non-empty result ends with a kept character |
| Names.Trim | src/controllers/command_controller.js:9 | `trim` never lengthens a name, and a non-empty trimmed name starts and ends with a kept character |
| Names.IsMissingOrBlank | src/controllers/command_controller.js:9 | the guard refuses a missing name, and refuses a present name exactly when every one of its characters is whitespace or a line terminator (the same test guards `createFeature` at line 143) |
| Manifest.Patch | src/controllers/command_controller.js:89-92 | the patch succeeds exactly when the manifest is an object whose `scripts` is an object or an array; otherwise it fails at the `main` assignment (not an object or array) or at the `scripts` assignments |
| Manifest.PatchSetsEntryAndScripts | src/controllers/command_controller.js:89-92 | after the patch `main` is `dist/server.js`, and an object `scripts` maps `watch`, `start` and `dev` to their three command lines |
| Manifest.PatchChangesNothingElse | src/controllers/command_controller.js:86-94 | the patch adds only `main` at the top level and keeps every other member; an array `scripts` is unchanged; an object `scripts` gains only `watch`, `start` and `dev` and keeps its other entries |
| Manifest.PatchIdempotent | src/controllers/command_controller.js:89-92 | patching a patched manifest gives the same manifest |
| Tools.ShellLineStartsInProject | src/controllers/command_controller.js:18-118 | for a tool run in the project directory or below it, the shell line handed to `Runner` begins with `cd ` followed by the project name, unquoted |
| Gateway.FileSystem.CreateDir | src/controllers/command_controller.js:14 | adds one directory and changes no file |
| Gateway.FileSystem.CreateFile | src/controllers/command_controller.js:62 | creates or overwrites exactly one file and changes no directory |
| Gateway.FileSystem.RemoveTree | src/controllers/command_controller.js:113 | removes every file and directory at or under the root, keeps everything else, and is not an error when nothing is there |
| Gateway.FileSystem.ReadFile | src/controllers/command_controller.js:86 | returns a file's content exactly when it exists |
| Gateway.FileSystem.RunTool | src/controllers/command_controller.js:18-23 | the runner gets the shell line `cd <dir> && <command>`; the filesystem becomes whatever the tool left, and the tool's exit status is reported |
| Pipeline.Apply | src/controllers/command_controller.js:14-137 | one step: only a tool run or the manifest patch (read, parse, assign, write of lines 86-94) can throw; a write leaves its content at its path; a removal leaves no file or directory under its root; a directory step adds the directory and changes no file |
| Pipeline.ApplyKeepsOtherFiles | src/controllers/command_controller.js:14-137 | no step but a tool run changes a file outside the path it targets |
| Pipeline.ExecAppend | src/controllers/command_controller.js:14-137 | running two step lists one after the other is running the second from where the first ended, unless the first threw |
| Pipeline.AbortSkipsRest | src/controllers/command_controller.js:14-137 | once a step throws, no later step runs and nothing is rolled back |
| Pipeline.ExecKeepsUntouched | src/controllers/command_controller.js:14-137 | a file no step touches is still there with the same content, whether or not the run throws |
| Pipeline.WriteSurvives | src/controllers/command_controller.js:14-137 | in a completed run, a file written by a step that no later step touches holds what that step wrote |
| Pipeline.PatchStepOutcome | src/controllers/command_controller.js:86-94 | the manifest step completes exactly when the file exists, parses and has a `scripts` object or array; when it completes, only the manifest changes and holds a patched, patch-stable value; when it throws, nothing changed and the error says whether the read, the parse or the patch failed |
| Pipeline.WritesAroundRemovalRun | src/controllers/command_controller.js:110-115 | two writes, a forced recursive removal and two more writes never throw, and leave the state `AfterWritesAroundRemoval` describes |
| Pipeline.WritesAroundRemoval | src/controllers/command_controller.js:110-115 | after two writes outside a removed tree and two writes inside it, all four files hold what was written, the only files left in the tree are the last two, no recorded directory in the tree remains (parents the writes make are not recorded), and every other file is unchanged |
| CommandController.InitSteps | src/controllers/command_controller.js:14-137 | `init`'s 27 steps in source order: the project directory first, then the Vite scaffold; `npm init -y` at position 5 before the manifest patch at 10; the removal of `frontend/src` at 15, before the tailwind install at 18 |
| CommandController.InitEffectsAreExpected | src/controllers/command_controller.js:14-137 | the only removal in `init` is of `frontend/src`, the only patched file is the backend manifest, and every tool runs in the project, frontend or backend directory |
| CommandController.InitStepsInPhases | src/controllers/command_controller.js:14-137 | running all of `init` is running its seven sections in order, each from where the previous one ended |
| CommandController.InitFrontend | src/controllers/command_controller.js:14-39 | the frontend section leaves the filesystem and reports the error exactly as running its steps does |
| CommandController.InitBackend | src/controllers/command_controller.js:42-82 | the backend section leaves the filesystem and reports the error exactly as running its steps does |
| CommandController.UpdateManifest | src/controllers/command_controller.js:84-94 | the in-place manifest update leaves the filesystem and reports the error exactly as the manifest patch step does |
| CommandController.ConfigureFrontend | src/controllers/command_controller.js:96-106 | writes `jsconfig.json` and `vite.config.js` exactly as its steps do |
| CommandController.WriteCode | src/controllers/command_controller.js:108-115 | the code section, including the removal of `frontend/src`, does exactly what its steps do |
| CommandController.InitTailwind | src/controllers/command_controller.js:117-126 | the tailwind section leaves the filesystem and reports the error exactly as running its steps does |
| CommandController.WriteSupportFiles | src/controllers/command_controller.js:128-137 | writes the two `.gitignore` files and the three backend support files exactly as its steps do |
| CommandController.Init | src/controllers/command_controller.js:8-137 | a missing or blank name is refused and nothing changes; otherwise the filesystem and the outcome are those of running `InitSteps`, stopping at the first step that throws |
| CommandController.WriteCodeResetsSources | src/controllers/command_controller.js:108-115 | the code section never throws; afterwards the only files under `frontend/src` are `main.jsx` and `screens/index_screen.jsx`, which hold their templates, and no directory under `frontend/src` that `createDir` or a tool made remains; line 114 recreates `frontend/src` and line 115 `frontend/src/screens` as parents, which the model does not record |
| CommandController.WriteCodeKeepsOtherFiles | src/controllers/command_controller.js:110-115 | outside `frontend/src` the code section writes only `server.ts` and `routes.ts`, which hold their templates, and every other file keeps its content |
| CommandController.InitTailwindWrites | src/controllers/command_controller.js:117-126 | when the tailwind section completes, `tailwind.config.js`, `main.css` and `config/api.js` hold their templates |
| CommandController.SupportFilesWrites | src/controllers/command_controller.js:128-137 | when the support section completes, its five files hold their templates |
| CommandController.SupportFilesKeepTailwindFiles | src/controllers/command_controller.js:128-137 | the support section leaves the three tailwind-section files as they were |
| CommandController.InitCompletedWritesLastFiles | src/controllers/command_controller.js:117-137 | when `init` completes, the eight files written after its last tool run hold their templates, including `main.css` and `config/api.js` under the reset `frontend/src` |
| CommandController.InitStopsAtManifest | src/controllers/command_controller.js:84-94 | when the manifest cannot be patched, `init` throws there with an error naming the manifest, and the filesystem is what the frontend and backend sections left |
| CommandController.FeatureSteps | src/controllers/command_controller.js:150-158 | `createFeature`'s three steps are writes, model then controller then router, to three distinct `.ts` paths under `src/` |
| CommandController.CreateFeature | src/controllers/command_controller.js:142-161 | a missing or blank name is refused and nothing changes; otherwise the command completes and the filesystem is `AfterFeature`: the three feature files written over the old state, and the directories made by `createDir` or a tool unchanged (the `src/models`, `src/controllers` and `src/routers` parents a write may create are not recorded) |
| CommandController.FeatureRun | src/controllers/command_controller.js:150-158 | running `FeatureSteps` never throws and leaves exactly the state `CreateFeature` produces |
| CommandController.FeatureWritesExactlyThree | src/controllers/command_controller.js:150-158 | the three feature paths are distinct; after the run each holds its role template applied to the raw name, the set of files is the old set plus those three, every other file is unchanged, and so is every directory made by `createDir` or a tool (parents the writes create are not recorded) |
| CommandController.InitFrontendInProject | src/controllers/command_controller.js:14-39 | every step of the frontend section targets the project directory or a path under it |
| CommandController.InitBackendInProject | src/controllers/command_controller.js:42-82 | every step of the backend section targets a path under the project directory |
| CommandController.UpdateManifestInProject | src/controllers/command_controller.js:86-94 | the manifest patch targets a path under the project directory |
| CommandController.ConfigureFrontendInProject | src/controllers/command_controller.js:96-106 | both frontend configuration files lie under the project directory |
| CommandController.WriteCodeInProject | src/controllers/command_controller.js:108-115 | every write and the removal of the code section target paths under the project directory |
| CommandController.InitTailwindInProject | src/controllers/command_controller.js:117-126 | every step of the tailwind section targets a path under the project directory |
| CommandController.SupportFilesInProject | src/controllers/command_controller.js:128-137 | every support file lies under the project directory |
| CommandController.InitStaysInProject | src/controllers/command_controller.js:14-137 | every directory, file, removal and manifest that `init` touches is the project directory or lies under it, and the text of every tool's shell line begins with `cd ` followed by the unquoted project name |

## Left out

- Console output (progress messages and the two usage messages): it is not part of the filesystem state.
- JSON text: `JSON.parse`, `JSON.stringify`, tab indentation, key order and number formatting. Manifests and configuration files are JSON values. A file whose content is not a JSON value does not parse. Byte-level idempotence of the manifest is not modelled.
- Template text: the `Templates` module is not part of this model. Its strings and its three feature functions are an uninterpreted parameter.
- `FileHandler` internals: the file handler service is not part of this model. `createFile` is taken to create or overwrite a file, and `createDir` to add a directory. Implicit creation of parent directories, and errors the service itself may raise (permissions, full disk, an existing path), are not modelled. A `Snapshot` may hold one path both as a file and as a directory; nothing in the model rules that out.
- Pipeline.WritesAroundRemoval, CommandController.WriteCodeResetsSources, CommandController.CreateFeature, CommandController.FeatureWritesExactlyThree: their directory clauses speak only of directories made by `createDir` or a tool. A `createFile` that succeeds must make its missing parents: `backend/src` (line 110, which no step of `init` creates), `frontend/src` and `frontend/src/screens` again after the removal (lines 114-115), and `src/models`, `src/controllers` and `src/routers` on a first `create:feature`. The model does not record those directories, so "no directory under `frontend/src` remains" and "directories unchanged" do not hold of the real directory tree.
- Gateway.FileSystem.RemoveTree, Gateway.FileSystem.ReadFile: permission and I/O errors of `rmSync` (line 113) and `readFileSync` (line 86), such as EACCES, EPERM or EBUSY, are not modelled. The removal never fails and the read fails only on a missing file, so the claims that the code section and `createFeature` never throw hold only for a filesystem that raises no such errors.
- Tools.ShellLineStartsInProject: the project name is spliced into a `/bin/sh` command line without quoting. A name with whitespace or shell metacharacters makes the shell change into another directory (`cd my app` goes to `my`) or run other commands (`a;b`). The lemma states only the text of the line. `Runner` receives that line, so where the shell really goes is part of the tool's arbitrary effect, and nothing is proved about it.
- The effects of the external tools (`npm`, `npx`): each run's effect on the filesystem and its exit status are whatever the `Runner` parameter says. So nothing is proved about files a tool writes. That includes the manifest's existence after `npm init -y` and the survival of files written before a later tool run, such as `main.jsx` after the tailwind install.
- Path normalisation: paths are compared as strings. A name containing `..`, a leading `/` or repeated slashes is not resolved the way the operating system would resolve it.
- Concurrency and interference from other processes between steps.
- A strict/lenient policy for tool failures, and a policy for running `init` on an existing directory: neither exists in the code.
- Names.Trim: its contract says only that the result is no longer than the name and starts and ends with a kept character. The exact characters kept follow from the contracts of `TrimStart` and `TrimEnd`, of which it is the composition.
