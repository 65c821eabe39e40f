# go_workspace: the workspace Config, modelled in Dafny

The `workspace` package keeps the on-disk layout of a user's workspace in a
`Config` record:

- a name;
- a configuration directory (`ConfDir`, HOME by default) holding
  `.<name>/workspace.conf`;
- a base directory (`Basedir`) with six derived directories: download,
  scratch, install, build, src and run.

`Load` finds the configuration file. If the file is missing, `Load`
bootstraps it and the workspace (`createDefaultConfigFile`, then `Init`) and
returns an error that asks the user to review the new file. If the file
exists, `Load` parses it (`ParseCfg`). `Init` checks the base directory,
derives the six paths and creates the missing ones.

The project has these parts:

- `wrappers.dfy`: `Option`.
- `paths.dfy` (module `Paths`): `filepath.Join` of two elements and the set
  of ancestor directories of a path.
- `fs.dfy` (module `Fs`): the filesystem the package drives through `os`.
  - As a value, `Disk` holds a set of directories, a map from regular files
    to their contents, and a set of paths the system refuses to create. The
    refused paths stand for permission, quota and I/O failures.
  - `Mkdir`, `MkdirAll`, `Create` and `Write` are functions on `Disk`. Each
    failure is one of the kinds of error `os` reports: ENOENT, EEXIST,
    ENOTDIR, EISDIR, or a refusal.
  - `FileSystem` is a class whose methods perform one `os` call each, on
    mutable fields.
- `workspace_spec.dfy` (module `WorkspaceSpec`): a reference function for
  each operation of `Config`, mapping the fields and the disk before a call
  to its result and the fields and disk after it. This module also holds the
  properties the package promises, as lemmas about those functions.
- `workspace.dfy` (module `Workspace`): `class Config` with the package's
  fields.
  - Its methods update the fields and the `FileSystem` in place, as the Go
    methods do.
  - Each method's postcondition says that its result and the new state are
    exactly what the matching reference function gives for the old state.
  - `InitBlock`, `EnsureSubdir` and `EnsureDirAll` are the blocks of `Init`.
    Each is a method of its own, and `Init`'s six blocks are split over
    `CreateDownloadScratchInstall` and `CreateBuildSrcRun`. This keeps each
    proof small.
  - Ghost traces (`Trace`, `Running` in `WorkspaceSpec`) record the disk
    after each block.
- `workspace_test.dfy` (module `WorkspaceTest`): the scenario of
  `TestCreate` as a verified client of `Config`.

Inputs the Go code reads from its environment are parameters here.
`os.Getenv("HOME")` is the argument `home`. `kv.LoadKeyValueConfig` is the
argument `load` (a `Loader`, from file contents to key/value pairs or none),
applied to the contents of the configuration file, so a missing file makes
the load fail.

Notes on the code, which the model follows as written:

- `Init` does not create a missing base directory. It fails with
  `BaseDirMissing` (workspace.go:66-68), although the comment at
  workspace.go:78 expects the download directory's `MkdirAll` to create it.
- `Load` with an existing configuration file only parses it. It does not
  call `Init` afterwards (workspace.go:223-229).
- Only the errors of the first four directories are wrapped with the
  directory's purpose. The errors of src and run are returned as they are
  (workspace.go:109, 116); see `CreationError`.
- `createDefaultConfigFile` appends `<name>_ws` to `Basedir` even when
  `Basedir` was already set (workspace.go:157), not only when it defaults to
  HOME.

## Model

| member | source | states |
|---|---|---|
| Paths.Join | pkg/workspace/workspace.go:70-75 | an empty element is dropped (the result is the other element); joining a non-empty element gives a non-empty path; two non-empty elements give a path one character longer than both together |
| Paths.JoinShape | pkg/workspace/workspace.go:70-75 | two non-empty elements are joined as the first, then one '/', then the second |
| Paths.PrefixesOfJoin | pkg/workspace/workspace.go:70-75 | joining one component without '/' to a directory adds exactly one new ancestor-or-self path, the joined one |
| Paths.JoinInjective | pkg/workspace/workspace.go:70-75 | different non-empty components joined to the same directory give different paths |
| Paths.PrefixesClosed | pkg/workspace/workspace.go:79 | the ancestors of an ancestor of p are ancestors of p, so creating all of p's ancestors needs nothing else |
| Fs.MkdirAllKeepsWellFormed | pkg/workspace/workspace.go:79 | os.MkdirAll never leaves a directory or file without its parent directories |
| Fs.MkdirKeepsWellFormed | pkg/workspace/workspace.go:86 | os.Mkdir keeps the filesystem well-formed |
| Fs.CreateKeepsWellFormed | pkg/workspace/workspace.go:166 | os.Create keeps the filesystem well-formed |
| Fs.WriteKeepsWellFormed | pkg/workspace/workspace.go:171 | WriteString to an existing file keeps the filesystem well-formed |
| Fs.FileSystem.Mkdir | pkg/workspace/workspace.go:86 | the error returned and the new filesystem are those of os.Mkdir on the old filesystem; well-formedness is kept |
| Fs.FileSystem.MkdirAll | pkg/workspace/workspace.go:79 | the error and new filesystem are those of os.MkdirAll on the old one |
| Fs.FileSystem.Create | pkg/workspace/workspace.go:166 | the error and new filesystem are those of os.Create on the old one |
| Fs.FileSystem.WriteString | pkg/workspace/workspace.go:171 | the file's contents become the old contents followed by the string, nothing else changes |
| Fs.Disk.PathExists | pkg/workspace/workspace.go:77 | util.PathExists: a directory or a regular file is at p |
| Fs.Disk.IsDir | pkg/workspace/workspace.go:66 | util.IsDir: a directory is at p |
| Fs.Disk.FileExists | pkg/workspace/workspace.go:210 | util.FileExists: a regular file is at p |
| Fs.Disk.Mkdir | pkg/workspace/workspace.go:86 | os.Mkdir: EEXIST if p exists, ENOTDIR if a regular file is above p, ENOENT if another directory above p is missing, a refusal, or else p is added as a directory |
| Fs.Disk.MkdirAll | pkg/workspace/workspace.go:79 | os.MkdirAll: nothing to do if p is a directory; ENOTDIR if p or a path above it is a regular file; a refusal if one of the missing directories is refused; otherwise p and every directory above it exist |
| Fs.Disk.Create | pkg/workspace/workspace.go:166 | os.Create: ENOTDIR or ENOENT when a directory above p is missing, as for Mkdir; EISDIR if p is a directory; a refusal; otherwise p becomes an empty regular file, truncating any old one |
| Fs.Disk.Write | pkg/workspace/workspace.go:171 | WriteString on an open file: the string is appended to the file's contents |
| WorkspaceSpec.CreationError | pkg/workspace/workspace.go:77-118 | the error of a failed block: wrapped with the directory's purpose and path for download, scratch, install and build (lines 81, 88, 95, 102), the os error itself for src and run (lines 109, 116) |
| WorkspaceSpec.MkdirAllIfAbsent | pkg/workspace/workspace.go:77-83 | `if !util.PathExists(p) { os.MkdirAll(p) }`, also at lines 145-151 and 158-163 |
| WorkspaceSpec.SubdirEffect | pkg/workspace/workspace.go:77-118 | one block of Init: skipped if the path exists, otherwise MkdirAll for download and Mkdir for the five others |
| WorkspaceSpec.InitSpec | pkg/workspace/workspace.go:65-121 | Init: BaseDirMissing with nothing changed if Basedir is not a directory; otherwise the six fields become LayoutOf(Basedir) and the six blocks run in the order download, scratch, install, build, src, run, stopping at the first error |
| WorkspaceSpec.PathToConfigDir | pkg/workspace/workspace.go:123-125 | getPathToConfigDir: Join(ConfDir, "." + Name) |
| WorkspaceSpec.ConfigFilePath | pkg/workspace/workspace.go:127-132 | the path getConfigFilePath returns: workspace.conf inside the configuration directory |
| WorkspaceSpec.DefaultBasedir | pkg/workspace/workspace.go:154-157 | the new Basedir: Join(Basedir, Name + "_ws"), with HOME in place of an unset Basedir |
| WorkspaceSpec.DefaultContent | pkg/workspace/workspace.go:164 | the configuration file's content: "dir=" + Basedir + "\n" |
| WorkspaceSpec.BootstrapSpec | pkg/workspace/workspace.go:134-182 | createDefaultConfigFile: refuse an unset ConfDir, then an unset ConfigFile; create the configuration directory unless something exists there, returning its error; then MakeBase |
| WorkspaceSpec.MakeBase | pkg/workspace/workspace.go:153-163 | set Basedir to DefaultBasedir, create it unless something exists there, returning its error; then WriteConfig |
| WorkspaceSpec.WriteConfig | pkg/workspace/workspace.go:164-181 | os.Create on ConfigFile, returning its error, then append DefaultContent(Basedir) to the new empty file |
| WorkspaceSpec.BootstrapConfigDirIsAFile | pkg/workspace/workspace.go:143-168 | when a regular file sits where the configuration directory belongs, the bootstrap skips MkdirAll and fails with ENOTDIR from os.Create on the configuration file |
| WorkspaceSpec.LoadKeyValueConfig | pkg/workspace/workspace.go:189-192 | kv.LoadKeyValueConfig on a path: the loader applied to the file's contents, or a failure if no regular file is there |
| WorkspaceSpec.ParseSpec | pkg/workspace/workspace.go:184-203 | ParseCfg: refuse an unset ConfigFile; a failed load is LoaderFailed; otherwise the pairs update Basedir through ApplyPairs, which may stop at an invalid key |
| WorkspaceSpec.LoadSpec | pkg/workspace/workspace.go:205-230 | Load: settle ConfigFile; if no regular file is there, take the first-run branch, otherwise ParseCfg |
| WorkspaceSpec.FirstRun | pkg/workspace/workspace.go:210-221 | the first-run branch: the bootstrap's error, else Init's error, else NeedsReview of ConfigFile |
| WorkspaceSpec.LayoutOf | pkg/workspace/workspace.go:70-75 | each derived directory is the base directory joined with that directory's fixed name |
| WorkspaceSpec.LayoutDirsDistinct | pkg/workspace/workspace.go:70-75 | the six derived directories of one base are six different paths |
| WorkspaceSpec.Materialise | pkg/workspace/workspace.go:77-118 | the blocks never change the fields or any file, never remove a directory, and fail only with a directory-creation error |
| WorkspaceSpec.InitRejectsMissingBase | pkg/workspace/workspace.go:66-68 | if the base directory is not a directory, Init fails with BaseDirMissing and changes neither the fields nor the filesystem |
| WorkspaceSpec.InitSetsLayout | pkg/workspace/workspace.go:70-75 | past the base check, the six fields are Join(Basedir, name) whatever happens afterwards |
| WorkspaceSpec.InitCreatesOnlyMissing | pkg/workspace/workspace.go:77-118 | Init keeps every directory, adds only derived directories that were missing, touches no file and leaves the filesystem well-formed |
| WorkspaceSpec.InitSucceedsIff | pkg/workspace/workspace.go:65-121 | Init succeeds if and only if the base directory exists and no missing derived directory is refused; on success exactly the missing ones were added and all six exist |
| WorkspaceSpec.InitFailsAtFirstRefused | pkg/workspace/workspace.go:77-118 | when the k-th directory in the order download, scratch, install, build, src, run is the first one missing and refused, Init returns that directory's error (wrapped for the first four, raw for src and run) after creating the missing directories before it |
| WorkspaceSpec.InitIdempotent | pkg/workspace/workspace.go:65-121 | after a successful Init, a second Init succeeds and changes nothing |
| WorkspaceSpec.MaterialiseSucceedsIff | pkg/workspace/workspace.go:77-118 | a run of the blocks succeeds if and only if every missing directory among them can be created, and then adds exactly the missing ones |
| WorkspaceSpec.MaterialiseFailsAt | pkg/workspace/workspace.go:77-118 | a run of the blocks stops at the first refused missing directory, with that directory's error, having added the missing ones before it |
| WorkspaceSpec.MaterialiseCreatesOnlyMissing | pkg/workspace/workspace.go:77-118 | a run of the blocks adds only missing derived directories |
| WorkspaceSpec.MaterialiseKeepsWellFormed | pkg/workspace/workspace.go:77-118 | a run of the blocks keeps the filesystem well-formed |
| WorkspaceSpec.MaterialiseTrace | pkg/workspace/workspace.go:77-118 | after the first k blocks have succeeded along a trace, what is left of Init is the remaining blocks on the trace's k-th disk |
| WorkspaceSpec.TraceExtend | pkg/workspace/workspace.go:77-118 | a block that succeeds on the last disk of a trace extends the trace |
| WorkspaceSpec.InitFailsAfterTrace | pkg/workspace/workspace.go:77-118 | if a block fails after the earlier ones succeeded, Init returns that block's error with the filesystem the block left |
| WorkspaceSpec.InitSucceedsAfterTrace | pkg/workspace/workspace.go:120 | when all six blocks have succeeded, Init returns nil with the last disk of the trace |
| WorkspaceSpec.ConfigFileInsideConfigDir | pkg/workspace/workspace.go:123-132 | the configuration file is `<config dir>/workspace.conf` with a non-empty config dir, and its ancestors are exactly the config dir and the config dir's own ancestors |
| WorkspaceSpec.WithConfigFile | pkg/workspace/workspace.go:127-132 | an unset ConfigFile becomes Join(Join(ConfDir, "." + Name), "workspace.conf"), with HOME replacing an unset ConfDir; a set one leaves every field alone; either way ConfigFile ends up set |
| WorkspaceSpec.BootstrapChecksFields | pkg/workspace/workspace.go:136-141 | an unset ConfDir and then an unset ConfigFile are refused with their own errors, before anything changes |
| WorkspaceSpec.MkdirAllIfAbsentOutcome | pkg/workspace/workspace.go:145-151 | `if !PathExists(p) { MkdirAll(p) }` adds only p and its ancestors, leaves the files alone, changes nothing when it fails and makes p exist when it succeeds |
| WorkspaceSpec.CreateOutcome | pkg/workspace/workspace.go:166-169 | os.Create leaves the directories alone and on success leaves an empty file at p |
| WorkspaceSpec.WriteConfigOutcome | pkg/workspace/workspace.go:164-181 | the end of the bootstrap leaves the fields and the directories alone, and on success the configuration file holds exactly "dir=<Basedir>\n" |
| WorkspaceSpec.MakeBaseOutcome | pkg/workspace/workspace.go:153-181 | the new Basedir is Join(old Basedir or HOME, Name + "_ws"), which exists on success; new directories are ancestors of it; a failure writes no file |
| WorkspaceSpec.BootstrapOutcome | pkg/workspace/workspace.go:134-182 | on success Basedir has become Join(old Basedir or HOME, Name + "_ws"), the config dir and the base dir exist, and the only file change is the configuration file with content "dir=<Basedir>\n"; in every case only Basedir may change, new directories are ancestors of those two, and a failure writes no file |
| WorkspaceSpec.BootstrapSucceedsWhenUnobstructed | pkg/workspace/workspace.go:134-182 | the bootstrap succeeds when the system refuses nothing, no file lies on the way to the configuration file or to the new base directory, and the configuration file is neither a directory nor an ancestor of the base directory |
| WorkspaceSpec.MakeBaseSucceeds | pkg/workspace/workspace.go:153-181 | once the config dir exists, the rest of the bootstrap succeeds under the same absence of obstacles |
| WorkspaceSpec.MkdirAllIfAbsentSucceeds | pkg/workspace/workspace.go:145-151 | when nothing is refused and no file lies on p's way, the guarded MkdirAll succeeds and adds exactly p's ancestors |
| WorkspaceSpec.ApplyPairs | pkg/workspace/workspace.go:194-200 | the loop over the pairs fails only with an invalid-key error |
| WorkspaceSpec.LastDirWins | pkg/workspace/workspace.go:194-202 | the pairs are accepted if and only if every key is "dir"; then the last pair's value is the new Basedir, and with no pairs Basedir is unchanged |
| WorkspaceSpec.FirstInvalidKeyRejected | pkg/workspace/workspace.go:194-200 | the first key that is not "dir" is reported, as that key, with Basedir set by the "dir" pairs before it |
| WorkspaceSpec.ParseChecksConfigFile | pkg/workspace/workspace.go:184-192 | ParseCfg never touches the filesystem and changes no field but Basedir; an unset ConfigFile and a failed load are errors that change nothing |
| WorkspaceSpec.FirstRunOutcome | pkg/workspace/workspace.go:210-221 | the first-run branch of Load never succeeds; when it asks for review, the configuration file holds "dir=<Basedir>\n", the layout is derived from the new Basedir and all six directories exist |
| WorkspaceSpec.ReviewAfterInit | pkg/workspace/workspace.go:215-220 | Init keeps ConfigFile, Basedir and every file, and on success all six derived directories exist |
| WorkspaceSpec.LoadWithoutConfigFileFails | pkg/workspace/workspace.go:205-221 | without a configuration file Load never succeeds; when it asks for review, the file now exists with content "dir=<Basedir>\n" and the workspace is materialised |
| WorkspaceSpec.LoadWithConfigFileParses | pkg/workspace/workspace.go:223-229 | with a configuration file, Load's result and new state are exactly ParseCfg's after the path is settled |
| WorkspaceSpec.ReloadAfterBootstrapSucceeds | pkg/workspace/workspace.go:205-230 | after a Load that asked for review, a second Load succeeds and changes nothing, given a loader that reads the written line back as one "dir" pair |
| WorkspaceSpec.FirstLoadNeedsReview | pkg/workspace/workspace.go:205-221 | on an unobstructed first run, Load asks for review of Join(Join(ConfDir or HOME, "." + Name), "workspace.conf") and moves Basedir to its `_ws` directory |
| Workspace.Config.constructor | pkg/workspace/workspace_test.go:19-28 | a new Config has the given Name, ConfDir and Basedir and every other field unset |
| Workspace.Config.Init | pkg/workspace/workspace.go:65-121 | the status returned and the new fields and filesystem are exactly InitSpec of the old ones, and the filesystem stays well-formed |
| Workspace.Config.CreateDownloadScratchInstall | pkg/workspace/workspace.go:77-97 | the first three blocks either fail with Init's own result or leave a three-step trace |
| Workspace.Config.CreateBuildSrcRun | pkg/workspace/workspace.go:99-120 | after a three-step trace, the last three blocks finish with Init's result |
| Workspace.InitBlock | pkg/workspace/workspace.go:77-118 | one block returns Init's own failure or extends the trace by what it did to the disk |
| Workspace.EnsureSubdir | pkg/workspace/workspace.go:85-90 | one block's error and new filesystem are those of SubdirEffect: MkdirAll for download, Mkdir for the others, nothing if the path exists |
| Workspace.EnsureDirAll | pkg/workspace/workspace.go:77-83 | the error and new filesystem are those of the guarded MkdirAll |
| Workspace.Config.GetPathToConfigDir | pkg/workspace/workspace.go:123-125 | returns Join(ConfDir, "." + Name) |
| Workspace.Config.GetConfigFilePath | pkg/workspace/workspace.go:127-132 | an unset ConfDir becomes HOME, and the path returned is the configuration file inside the settled ConfDir |
| Workspace.Config.CreateDefaultConfigFile | pkg/workspace/workspace.go:134-182 | the status and the new fields and filesystem are exactly BootstrapSpec of the old ones |
| Workspace.Config.MakeBasedir | pkg/workspace/workspace.go:153-181 | the status and new state are exactly MakeBase of the old ones |
| Workspace.Config.WriteConfigFile | pkg/workspace/workspace.go:164-181 | the status and new state are exactly WriteConfig of the old ones |
| Workspace.Config.ParseCfg | pkg/workspace/workspace.go:184-203 | the status and new Basedir are exactly ParseSpec of the old state; the loop keeps the invariant that the pairs not yet read would take the current Basedir to the same result |
| Workspace.Config.Load | pkg/workspace/workspace.go:205-230 | the status and the new fields and filesystem are exactly LoadSpec of the old ones |
| WorkspaceTest.FreshDirUnobstructed | pkg/workspace/workspace_test.go:21-28 | in a fresh directory used as both ConfDir and Basedir, nothing stands in the way of the first run |
| WorkspaceTest.CreateThenReload | pkg/workspace/workspace_test.go:17-46 | the first Load fails asking for review of ConfDir/.name/workspace.conf, that file then exists, and the second Load succeeds |

## Left out

- `InstallSoftware` (workspace.go:232-256) is not modelled. It hands the
  workspace's paths to the external `builder` package, which is not part of
  this model.
- The key/value file format is not modelled. `kv.LoadKeyValueConfig` is not
  part of this model and is the `Loader` parameter.
- `util.PathExists`, `util.IsDir` and `util.FileExists` are not part of this
  model. They are read as "something is there", "a directory is there" and
  "a regular file is there".
- `os.Getenv("HOME")` is the parameter `home`.
- Permission bits (0755) are not modelled. Whatever makes the system refuse
  to create a path is one abstract `refused` set.
- Fs.FileSystem.MkdirAll: it is all-or-nothing. Go's `os.MkdirAll` may leave
  some ancestor directories behind when it fails part way.
- Fs.Disk.MkdirAll: its ENOTDIR error names p. Go's error names the regular
  file above p that is in the way. The other errors' paths likewise name
  the path of the call rather than the component that failed.
- Workspace.Config.WriteConfigFile: failures of `WriteString` and `Sync`, and
  the deferred `Close`, are not modelled. Once `os.Create` succeeds, the
  write succeeds.
- Paths.Join: it does not perform `filepath.Join`'s lexical cleaning (`.`,
  `..`, repeated or trailing separators).
- The error messages' text and the debug `Printf` output are not modelled.
  Each error is a variant of `Error` carrying the values the message
  mentions.
- The fields `MpiDir` and `MpirunArgs` are not read or written by the
  modelled code, so they are not modelled.
- WorkspaceTest.CreateThenReload: it is stated for any name without '/' and
  any fresh directory, with a filesystem that refuses nothing, rather than
  for the test's real temporary directory. `os.RemoveAll` at the end of the
  test is not modelled.
