/**
 * The workspace Config of pkg/workspace: a record of paths that its methods
 * fill in and update in place while they create directories and the
 * configuration file on the filesystem. Each method is proved to leave the
 * fields and the filesystem exactly as the matching function of WorkspaceSpec
 * describes; the properties of those functions are proved there.
 */
module Workspace {
  import opened Wrappers
  import opened Paths
  import opened Fs
  import opened WorkspaceSpec

  class Config {
    var name: string
    var configFile: Path
    var confDir: Path
    var basedir: Path
    var scratchDir: Path
    var downloadDir: Path
    var srcDir: Path
    var buildDir: Path
    var installDir: Path
    var runDir: Path

    /** The fields the package reads and writes, as a value. */
    function Snapshot(): Fields
      reads this
    {
      Fields(name, configFile, confDir, basedir,
             Layout(scratchDir, downloadDir, srcDir, buildDir, installDir, runDir))
    }

    /** `new(Config)` followed by setting Name, ConfDir and Basedir, as a caller does before Load. */
    constructor (name0: string, confDir0: Path, basedir0: Path)
      ensures Snapshot() == Fields(name0, "", confDir0, basedir0, Layout("", "", "", "", "", ""))
    {
      name, configFile, confDir, basedir := name0, "", confDir0, basedir0;
      scratchDir, downloadDir, srcDir, buildDir, installDir, runDir := "", "", "", "", "", "";
    }

    /** Init: check the base directory, derive the six directories, create those that are missing. */
    method Init(fs: FileSystem) returns (r: Status)
      requires fs.Valid()
      modifies this`scratchDir, this`downloadDir, this`srcDir, this`buildDir, this`installDir, this`runDir, fs
      ensures fs.Valid()
      ensures Step(r, State(Snapshot(), fs.State())) == InitSpec(old(State(Snapshot(), fs.State())))
    {
      ghost var s0 := State(Snapshot(), fs.State());
      if !fs.IsDir(basedir) {
        return Failure(BaseDirMissing(basedir));
      }

      scratchDir := Join(basedir, "scratch");
      downloadDir := Join(basedir, "download");
      srcDir := Join(basedir, "src");
      buildDir := Join(basedir, "build");
      installDir := Join(basedir, "install");
      runDir := Join(basedir, "run");
      // ds records the disk before each block and after the last; each block runs on the last one.
      ghost var cfg := Snapshot();
      assert Running(s0, cfg, [fs.State()]);
      ghost var ds: seq<Disk>;

      // MkdirAll for the first one, Mkdir for the others, as the source does;
      // CreationError wraps the first four errors and returns those of src and run as they are.
      r, ds := CreateDownloadScratchInstall(fs, s0, cfg);
      if r.Failure? {
        return;
      }
      r := CreateBuildSrcRun(fs, s0, cfg, ds);
    }

    /** The download, scratch and install blocks of Init, on the disk Init found. */
    method CreateDownloadScratchInstall(fs: FileSystem, ghost s0: State, ghost cfg: Fields)
        returns (r: Status, ghost ds: seq<Disk>)
      requires fs.Valid() && cfg == Snapshot() && Running(s0, cfg, [fs.State()])
      modifies fs
      ensures fs.Valid()
      ensures r.Failure? ==> InitSpec(s0) == Step(r, State(cfg, fs.State()))
      ensures r.Success? ==> Running(s0, cfg, ds) && |ds| == 4 && ds[3] == fs.State()
    {
      ds := [fs.State()];
      r, ds := InitBlock(fs, Download, downloadDir, s0, cfg, ds, 0);
      if r.Failure? {
        return;
      }

      r, ds := InitBlock(fs, Scratch, scratchDir, s0, cfg, ds, 1);
      if r.Failure? {
        return;
      }

      r, ds := InitBlock(fs, Install, installDir, s0, cfg, ds, 2);
    }

    /** The build, src and run blocks of Init, once the first three have succeeded and left the trace ds. */
    method CreateBuildSrcRun(fs: FileSystem, ghost s0: State, ghost cfg: Fields, ghost ds: seq<Disk>)
        returns (r: Status)
      requires fs.Valid() && cfg == Snapshot() && Running(s0, cfg, ds) && |ds| == 4 && ds[3] == fs.State()
      modifies fs
      ensures fs.Valid()
      ensures InitSpec(s0) == Step(r, State(cfg, fs.State()))
    {
      ghost var ds' := ds;
      r, ds' := InitBlock(fs, Build, buildDir, s0, cfg, ds', 3);
      if r.Failure? {
        return;
      }

      r, ds' := InitBlock(fs, Src, srcDir, s0, cfg, ds', 4);
      if r.Failure? {
        return;
      }

      r, ds' := InitBlock(fs, Run, runDir, s0, cfg, ds', 5);
      if r.Failure? {
        return;
      }

      InitSucceedsAfterTrace(s0, cfg, ds');
    }

    /** getPathToConfigDir */
    method GetPathToConfigDir() returns (p: Path)
      ensures p == PathToConfigDir(confDir, name)
    {
      p := Join(confDir, "." + name);
    }

    /** getConfigFilePath: an unset ConfDir becomes HOME, given here as home. */
    method GetConfigFilePath(home: Path) returns (p: Path)
      modifies this`confDir
      ensures confDir == if old(confDir) == "" then home else old(confDir)
      ensures p == ConfigFilePath(confDir, name)
    {
      if confDir == "" {
        confDir := home;
      }
      var dir := GetPathToConfigDir();
      p := Join(dir, CONFIG_FILE_NAME);
    }

    /** createDefaultConfigFile: make the configuration directory and the base directory, write "dir=<base>\n". */
    method CreateDefaultConfigFile(fs: FileSystem, home: Path) returns (r: Status)
      requires fs.Valid()
      modifies this`basedir, fs
      ensures fs.Valid()
      ensures Step(r, State(Snapshot(), fs.State())) == BootstrapSpec(old(State(Snapshot(), fs.State())), home)
    {
      if confDir == "" {
        return Failure(ConfDirUndefined);
      }
      if configFile == "" {
        return Failure(ConfigFileUndefined);
      }

      var configDir := GetPathToConfigDir();
      if !fs.PathExists(configDir) {
        var err := fs.MkdirAll(configDir);
        if err.Some? {
          return Failure(FsFailure(err.value));
        }
      }
      r := MakeBasedir(fs, home);
    }

    /** The rest of createDefaultConfigFile once the configuration directory exists: settle Basedir and make sure it exists. */
    method MakeBasedir(fs: FileSystem, home: Path) returns (r: Status)
      requires fs.Valid()
      modifies this`basedir, fs
      ensures fs.Valid()
      ensures Step(r, State(Snapshot(), fs.State())) == MakeBase(old(State(Snapshot(), fs.State())), home)
    {
      if basedir == "" {
        basedir := home;
      }
      basedir := Join(basedir, name + "_ws");
      if !fs.PathExists(basedir) {
        var err := fs.MkdirAll(basedir);
        if err.Some? {
          return Failure(FsFailure(err.value));
        }
      }
      r := WriteConfigFile(fs);
    }

    /** The end of createDefaultConfigFile: create the configuration file and write "dir=<Basedir>\n" to it. */
    method WriteConfigFile(fs: FileSystem) returns (r: Status)
      requires fs.Valid()
      modifies fs
      ensures fs.Valid()
      ensures Step(r, State(Snapshot(), fs.State())) == WriteConfig(old(State(Snapshot(), fs.State())))
    {
      var content := "dir=" + basedir + "\n";
      var err := fs.Create(configFile);
      if err.Some? {
        return Failure(FsFailure(err.value));
      }
      fs.WriteString(configFile, content);
      return Success;
    }

    /** ParseCfg: read the pairs of the configuration file; every "dir" sets the base directory, any other key is an error. */
    method ParseCfg(fs: FileSystem, load: Loader) returns (r: Status)
      modifies this`basedir
      ensures Step(r, State(Snapshot(), fs.State())) == ParseSpec(old(State(Snapshot(), fs.State())), load)
    {
      if configFile == "" {
        return Failure(ConfigFileUndefined);
      }

      var kvs := LoadKeyValueConfig(fs.State(), configFile, load);
      if kvs.None? {
        return Failure(LoaderFailed(configFile));
      }

      var pairs := kvs.value;
      for i := 0 to |pairs|
        invariant ApplyPairs(old(basedir), pairs) == ApplyPairs(basedir, pairs[i..])
      {
        assert pairs[i..][0] == pairs[i] && pairs[i..][1..] == pairs[i + 1..];
        if pairs[i].key == "dir" {
          basedir := pairs[i].value;
        } else {
          return Failure(InvalidKey(pairs[i].key));
        }
      }
      assert pairs[|pairs|..] == [];
      return Success;
    }

    /**
     * Load: settle the configuration file's path; without a file, bootstrap
     * the workspace and ask for review; with one, parse it.
     */
    method Load(fs: FileSystem, home: Path, load: Loader) returns (r: Status)
      requires fs.Valid()
      modifies this`configFile, this`confDir, this`basedir
      modifies this`scratchDir, this`downloadDir, this`srcDir, this`buildDir, this`installDir, this`runDir, fs
      ensures fs.Valid()
      ensures Step(r, State(Snapshot(), fs.State())) == LoadSpec(old(State(Snapshot(), fs.State())), home, load)
    {
      if configFile == "" {
        configFile := GetConfigFilePath(home);
      }
      assert Snapshot() == WithConfigFile(old(Snapshot()), home);

      if !fs.FileExists(configFile) {
        r := CreateDefaultConfigFile(fs, home);
        if r.Failure? {
          return r;
        }
        r := Init(fs);
        if r.Failure? {
          return r;
        }
        return Failure(NeedsReview(configFile));
      }

      r := ParseCfg(fs, load);
    }
  }

  /** `if !util.PathExists(p) { os.MkdirAll(p) }` */
  method EnsureDirAll(fs: FileSystem, p: Path) returns (err: Option<FsError>)
    requires fs.Valid()
    modifies fs
    ensures fs.Valid()
    ensures Effect(err, fs.State()) == MkdirAllIfAbsent(old(fs.State()), p)
  {
    err := None;
    if !fs.PathExists(p) {
      err := fs.MkdirAll(p);
    }
  }

  /** One block of Init: create the directory of role at p unless something exists there. */
  method EnsureSubdir(fs: FileSystem, role: Role, p: Path) returns (err: Option<FsError>)
    requires fs.Valid()
    modifies fs
    ensures fs.Valid()
    ensures Effect(err, fs.State()) == SubdirEffect(old(fs.State()), role, p)
  {
    if role == Download {
      err := EnsureDirAll(fs, p);
    } else {
      err := None;
      if !fs.PathExists(p) {
        err := fs.Mkdir(p);
      }
    }
  }

  /**
   * One block of Init: create the directory of role at p unless something
   * exists there, and return nil or this block's error. The blocks before it
   * have left the trace ds; if this one fails, so does Init, with that error.
   */
  method InitBlock(fs: FileSystem, role: Role, p: Path, ghost s0: State, ghost cfg: Fields, ghost ds: seq<Disk>, ghost k: nat)
      returns (r: Status, ghost ds': seq<Disk>)
    requires fs.Valid() && Running(s0, cfg, ds) && |ds| == k + 1 && k < |CREATION_ORDER|
    requires ds[k] == fs.State() && role == CREATION_ORDER[k] && p == cfg.layout.Dir(role)
    modifies fs
    ensures fs.Valid()
    ensures r.Failure? ==> InitSpec(s0) == Step(r, State(cfg, fs.State()))
    ensures r.Success? ==> Running(s0, cfg, ds') && |ds'| == k + 2 && ds'[k + 1] == fs.State()
  {
    var err := EnsureSubdir(fs, role, p);
    ds' := ds + [fs.State()];
    if err.Some? {
      InitFailsAfterTrace(s0, cfg, ds, err, fs.State());
      r := Failure(CreationError(role, p, err.value));
    } else {
      TraceExtend(s0, cfg, ds, fs.State());
      r := Success;
    }
  }
}
