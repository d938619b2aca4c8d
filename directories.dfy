/** The part of the filesystem the report strategy touches: which directories
    exist, the `File.directory?` query and `FileUtils.mkdir_p`. A directory is
    its absolute path string; the root always exists and is never added to the
    recorded set. */
module Directories {
  import opened Paths

  /** The proper ancestors of `p` other than the root: its parent directory
      and the parent's ancestors, the chain `mkdir_p` walks up. */
  function Ancestors(p: string): set<string>
    decreases |p|
  {
    var i := LastIndexOf(p, '/');
    if i > 0 then {p[..i]} + Ancestors(p[..i]) else {}
  }

  /** An ancestor of an ancestor is an ancestor. */
  lemma {:induction false} AncestorsTransitive(p: string, d: string, a: string)
    requires d in Ancestors(p) && a in Ancestors(d)
    ensures a in Ancestors(p)
    decreases |p|
  {
    var i := LastIndexOf(p, '/');
    var parent := p[..i];
    if d != parent {
      AncestorsTransitive(parent, d, a);
    }
  }

  /** Every recorded directory's ancestors are recorded too, as on a real
      filesystem. */
  ghost predicate AncestorClosed(ds: set<string>) {
    forall d, a :: d in ds && a in Ancestors(d) ==> a in ds
  }

  /** Whether `d` is a directory when `ds` are the recorded ones: the root
      always is, any other directory when it is recorded. */
  predicate Exists(ds: set<string>, d: string) {
    IsRoot(d) || d in ds
  }

  /** The directories after `mkdir_p(p)`: `p` and all of its ancestors; the root
      already exists, so `mkdir_p("/")` changes nothing. */
  function MkdirAll(ds: set<string>, p: string): set<string> {
    if IsRoot(p) then ds else ds + {p} + Ancestors(p)
  }

  /** "Create the directory unless it exists": the directories after the
      strategy has made sure `dir` is present. */
  function Materialize(ds: set<string>, dir: string): set<string> {
    if Exists(ds, dir) then ds else MkdirAll(ds, dir)
  }

  /** `mkdir_p` keeps the filesystem ancestor-closed. */
  lemma MkdirAllKeepsClosed(ds: set<string>, p: string)
    requires AncestorClosed(ds)
    ensures AncestorClosed(MkdirAll(ds, p))
  {
    var r := MkdirAll(ds, p);
    forall d, a | d in r && a in Ancestors(d)
      ensures a in r
    {
      if d in Ancestors(p) {
        AncestorsTransitive(p, d, a);
      }
    }
  }

  /** Making sure a directory is present: afterwards it exists, nothing that
      existed is lost, the filesystem stays ancestor-closed, the only additions
      are the directory and its ancestors, and nothing changes exactly when it
      already existed. */
  lemma MaterializeSpec(ds: set<string>, dir: string)
    requires AncestorClosed(ds)
    ensures Exists(Materialize(ds, dir), dir)
    ensures ds <= Materialize(ds, dir)
    ensures AncestorClosed(Materialize(ds, dir))
    ensures Materialize(ds, dir) == ds <==> Exists(ds, dir)
    ensures forall d :: d in Materialize(ds, dir) && d !in ds ==> d == dir || d in Ancestors(dir)
  {
    MkdirAllKeepsClosed(ds, dir);
  }

  /** Making sure twice is the same as making sure once. */
  lemma MaterializeIdempotent(ds: set<string>, dir: string)
    requires AncestorClosed(ds)
    ensures Materialize(Materialize(ds, dir), dir) == Materialize(ds, dir)
  {
    MaterializeSpec(ds, dir);
  }

  /** On an ancestor-closed filesystem `mkdir_p` of an existing directory
      creates nothing. */
  lemma {:induction false} MkdirAllOfExisting(ds: set<string>, p: string)
    requires AncestorClosed(ds) && Exists(ds, p)
    ensures MkdirAll(ds, p) == ds
  {
    if !IsRoot(p) {
      assert Ancestors(p) <= ds;
    }
  }

  /** The directories that exist, updated in place by `mkdir_p`. */
  class FileSystem {
    var dirs: set<string>

    ghost predicate Valid()
      reads this
    {
      AncestorClosed(dirs)
    }

    constructor (existing: set<string>)
      requires AncestorClosed(existing)
      ensures Valid() && dirs == existing
    {
      dirs := existing;
    }

    /** `File.directory?(path)`. */
    method IsDirectory(path: string) returns (b: bool)
      ensures b <==> Exists(dirs, path)
      ensures !IsRoot(path) ==> (b <==> path in dirs)
    {
      b := IsRoot(path) || path in dirs;
    }

    /** `FileUtils.mkdir_p(path)`: creates `path` and every missing ancestor. */
    method MkdirP(path: string)
      requires Valid()
      modifies this
      ensures Valid()
      ensures dirs == MkdirAll(old(dirs), path)
    {
      MkdirAllKeepsClosed(dirs, path);
      dirs := MkdirAll(dirs, path);
    }
  }
}
