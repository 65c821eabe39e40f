/**
 * TestCreate of pkg/workspace: in a fresh temporary directory used both as
 * ConfDir and as Basedir, a first Load creates the configuration file and
 * fails asking for review, and a second Load succeeds.
 */
module WorkspaceTest {
  import opened Wrappers
  import opened Paths
  import opened Fs
  import opened WorkspaceSpec
  import opened Workspace

  /**
   * A fresh directory tmp, in which neither the hidden configuration
   * directory nor the name_ws base directory exists yet, leaves nothing in
   * the way of the first run.
   */
  lemma FreshDirUnobstructed(d: Disk, tmp: Path, home: Path, name: string)
    requires d.WellFormed() && d.IsDir(tmp) && '/' !in name
    requires !d.PathExists(PathToConfigDir(tmp, name)) && !d.PathExists(Join(tmp, name + "_ws"))
    ensures var f := ConfigFilePath(tmp, name); var nb := DefaultBasedir(tmp, home, name);
      && Prefixes(f) * d.files.Keys == {}
      && Prefixes(nb) * d.files.Keys == {}
      && f !in d.dirs
      && f !in Prefixes(nb)
  {
    var cd := PathToConfigDir(tmp, name);
    var f := ConfigFilePath(tmp, name);
    var nb := DefaultBasedir(tmp, home, name);
    assert tmp != "";
    assert "." + name != "" && '/' !in "." + name;
    assert name + "_ws" != "" && '/' !in name + "_ws";
    PrefixesOfJoin(tmp, "." + name);
    PrefixesOfJoin(tmp, name + "_ws");
    ConfigFileInsideConfigDir(tmp, name);
    assert Prefixes(tmp) <= d.dirs;
    assert Prefixes(f) == Prefixes(tmp) + {cd, f};
    assert Prefixes(nb) == Prefixes(tmp) + {nb};
    assert |f| != |nb|;
  }

  /**
   * TestCreate: with a fresh temporary directory as ConfDir and Basedir and
   * a loader that reads back the line Load writes, the first Load asks for
   * review of ConfDir/.name/workspace.conf, which then exists, and the second
   * Load succeeds.
   */
  method CreateThenReload(fs: FileSystem, tmp: Path, home: Path, name: string, load: Loader)
      returns (first: Status, second: Status)
    requires fs.Valid() && fs.refused == {} && fs.IsDir(tmp) && '/' !in name
    requires !fs.PathExists(Join(tmp, "." + name)) && !fs.PathExists(Join(tmp, name + "_ws"))
    requires var b := Join(tmp, name + "_ws"); load("dir=" + b + "\n") == Some([KeyValue("dir", b)])
    modifies fs
    ensures first == Failure(NeedsReview(Join(Join(tmp, "." + name), "workspace.conf")))
    ensures Join(Join(tmp, "." + name), "workspace.conf") in fs.files
    ensures second == Success
  {
    var w := new Config(name, tmp, tmp);
    ghost var s0 := State(w.Snapshot(), fs.State());
    FreshDirUnobstructed(fs.State(), tmp, home, name);
    FirstLoadNeedsReview(s0, home, load);
    LoadWithoutConfigFileFails(s0, home, load);
    first := w.Load(fs, home, load);
    ReloadAfterBootstrapSucceeds(s0, home, load);
    second := w.Load(fs, home, load);
  }
}
