/**
 * The operating-system filesystem the workspace package drives through the os
 * package: a set of directories, a map from regular files to their contents,
 * and a set of paths at which the system refuses to create anything (standing
 * for permission, quota and I/O failures). Permission bits are not modelled.
 */
module Fs {
  import opened Wrappers
  import opened Paths

  /** Why an os call failed (the kinds of error Go's os package reports). */
  datatype FsError =
    | MissingParent(path: Path)   // ENOENT: a directory above path does not exist
    | AlreadyExists(path: Path)   // EEXIST
    | NotADirectory(path: Path)   // ENOTDIR: a regular file stands where a directory is needed
    | IsADirectory(path: Path)    // EISDIR: a directory stands where a file is created
    | Refused(path: Path)         // the system refuses to create path

  /** The result of one os call: the error it returned, or none, and the filesystem afterwards. */
  datatype Effect = Effect(err: Option<FsError>, disk: Disk)

  datatype Disk = Disk(dirs: set<Path>, files: map<Path, string>, refused: set<Path>)
  {
    /** util.PathExists: a directory or a file is there. */
    predicate PathExists(p: Path) { p in dirs || p in files }

    /** util.IsDir */
    predicate IsDir(p: Path) { p in dirs }

    /** util.FileExists: a regular file is there. */
    predicate FileExists(p: Path) { p in files }

    /** Every directory above p exists. */
    predicate ParentExists(p: Path) { Prefixes(p) - {p} <= dirs }

    /**
     * What every real filesystem satisfies: the empty path names nothing, no
     * path is both a file and a directory, the directories above a directory
     * or a file exist.
     */
    ghost predicate WellFormed() {
      && "" !in dirs
      && "" !in files
      && (forall p :: p in dirs ==> p !in files)
      && (forall p {:trigger Prefixes(p)} :: p in dirs ==> Prefixes(p) <= dirs)
      && (forall p {:trigger Prefixes(p)} :: p in files ==> Prefixes(p) - {p} <= dirs)
    }

    /** A regular file stands where a directory above p should be. */
    predicate FileAbove(p: Path) { (Prefixes(p) - {p}) * files.Keys != {} }

    /** The error of a call on p when a directory above p is missing: ENOTDIR if a regular file is in the way, ENOENT otherwise. */
    function ParentError(p: Path): FsError {
      if FileAbove(p) then NotADirectory(p) else MissingParent(p)
    }

    /** os.Mkdir: creates one directory whose parent exists. */
    function Mkdir(p: Path): Effect {
      if p == "" then Effect(Some(MissingParent(p)), this)
      else if PathExists(p) then Effect(Some(AlreadyExists(p)), this)
      else if !ParentExists(p) then Effect(Some(ParentError(p)), this)
      else if p in refused then Effect(Some(Refused(p)), this)
      else Effect(None, this.(dirs := dirs + {p}))
    }

    /** os.MkdirAll: creates p and every missing directory above it; nothing to do if p is a directory. */
    function MkdirAll(p: Path): Effect {
      if p == "" then Effect(Some(MissingParent(p)), this)
      else if p in dirs then Effect(None, this)
      else if Prefixes(p) * files.Keys != {} then Effect(Some(NotADirectory(p)), this)
      else if (Prefixes(p) - dirs) * refused != {} then Effect(Some(Refused(p)), this)
      else Effect(None, this.(dirs := dirs + Prefixes(p)))
    }

    /** os.Create: creates, or truncates, the regular file p. */
    function Create(p: Path): Effect {
      if p == "" then Effect(Some(MissingParent(p)), this)
      else if !ParentExists(p) then Effect(Some(ParentError(p)), this)
      else if p in dirs then Effect(Some(IsADirectory(p)), this)
      else if p in refused then Effect(Some(Refused(p)), this)
      else Effect(None, this.(files := files[p := ""]))
    }

    /** (*os.File).WriteString on the file p: appends s. */
    function Write(p: Path, s: string): Disk
      requires p in files
    {
      this.(files := files[p := files[p] + s])
    }
  }

  lemma MkdirKeepsWellFormed(d: Disk, p: Path)
    requires d.WellFormed()
    ensures d.Mkdir(p).disk.WellFormed()
  {
  }

  lemma MkdirAllKeepsWellFormed(d: Disk, p: Path)
    requires d.WellFormed()
    ensures d.MkdirAll(p).disk.WellFormed()
  {
    var e := d.MkdirAll(p);
    if e.disk != d {
      forall q | q in Prefixes(p)
        ensures Prefixes(q) <= e.disk.dirs
      {
        PrefixesClosed(p, q);
      }
    }
  }

  lemma CreateKeepsWellFormed(d: Disk, p: Path)
    requires d.WellFormed()
    ensures d.Create(p).disk.WellFormed()
  {
  }

  lemma WriteKeepsWellFormed(d: Disk, p: Path, s: string)
    requires d.WellFormed() && p in d.files
    ensures d.Write(p, s).WellFormed()
  {
  }

  /** The filesystem as mutable state; each method is one os call. */
  class FileSystem {
    var dirs: set<Path>
    var files: map<Path, string>
    const refused: set<Path>

    function State(): Disk
      reads this
    {
      Disk(dirs, files, refused)
    }

    ghost predicate Valid()
      reads this
    {
      State().WellFormed()
    }

    predicate PathExists(p: Path)
      reads this
    {
      State().PathExists(p)
    }

    predicate IsDir(p: Path)
      reads this
    {
      State().IsDir(p)
    }

    predicate FileExists(p: Path)
      reads this
    {
      State().FileExists(p)
    }

    constructor (dirs0: set<Path>, files0: map<Path, string>, refused0: set<Path>)
      requires Disk(dirs0, files0, refused0).WellFormed()
      ensures State() == Disk(dirs0, files0, refused0) && Valid()
    {
      dirs, files, refused := dirs0, files0, refused0;
    }

    method Mkdir(p: Path) returns (err: Option<FsError>)
      requires Valid()
      modifies this
      ensures Valid()
      ensures Effect(err, State()) == old(State()).Mkdir(p)
    {
      var e := State().Mkdir(p);
      MkdirKeepsWellFormed(State(), p);
      err, dirs, files := e.err, e.disk.dirs, e.disk.files;
    }

    method MkdirAll(p: Path) returns (err: Option<FsError>)
      requires Valid()
      modifies this
      ensures Valid()
      ensures Effect(err, State()) == old(State()).MkdirAll(p)
    {
      var e := State().MkdirAll(p);
      MkdirAllKeepsWellFormed(State(), p);
      err, dirs, files := e.err, e.disk.dirs, e.disk.files;
    }

    method Create(p: Path) returns (err: Option<FsError>)
      requires Valid()
      modifies this
      ensures Valid()
      ensures Effect(err, State()) == old(State()).Create(p)
    {
      var e := State().Create(p);
      CreateKeepsWellFormed(State(), p);
      err, dirs, files := e.err, e.disk.dirs, e.disk.files;
    }

    method WriteString(p: Path, s: string)
      requires Valid() && p in files
      modifies this
      ensures Valid()
      ensures State() == old(State()).Write(p, s)
    {
      WriteKeepsWellFormed(State(), p, s);
      files := files[p := files[p] + s];
    }
  }
}
