/** The file system that a resource installation changes, with its failures and other writers. */
module FileTree {
  import opened Wrappers

  type Path = seq<string>

  /** What a file holds.  Digests are injective, so content stands for its digest.  The install
      state document maps every file of an installed package to the digest it was shipped with. */
  datatype Content = Data(bytes: string) | InstallState(files: map<Path, Content>)

  type Files = map<Path, Content>

  function Parent(p: Path): Path
    requires p != []
  {
    p[..|p| - 1]
  }

  function Name(p: Path): string
    requires p != []
  {
    p[|p| - 1]
  }

  /** `a` is a directory on the way to `p`. */
  predicate Above(a: Path, p: Path) {
    |a| < |p| && a == p[..|a|]
  }

  /** Every file and directory has its parent directory, and no path is both. */
  ghost predicate WellFormed(files: Files, dirs: set<Path>) {
    && [] in dirs
    && (forall p | p in files :: p != [] && p !in dirs && Parent(p) in dirs)
    && (forall d | d in dirs :: d == [] || Parent(d) in dirs)
  }

  /** One completed write: the files before and after it. */
  datatype Write = Write(path: Path, before: Files, after: Files)

  class Tree {
    var files: Files
    var dirs: set<Path>
    // What this process did, oldest first: its writes, the directories it made and those it removed.
    ghost var writes: seq<Write>
    ghost var made: seq<Path>
    ghost var removed: seq<Path>

    /** `os.replace`: it needs the parent directory and refuses to replace a directory. */
    method Replace(p: Path, c: Content, mayFail: bool) returns (ok: bool)
      requires p != []
      modifies this`files, this`writes
      ensures ok ==> Parent(p) in old(dirs) && p !in old(dirs)
      ensures !mayFail && Parent(p) in old(dirs) && p !in old(dirs) ==> ok
      ensures files == if ok then old(files)[p := c] else old(files)
      ensures writes == if ok then old(writes) + [Write(p, old(files), files)] else old(writes)
    {
      var fault: bool := *;
      ok := Parent(p) in dirs && p !in dirs && !(mayFail && fault);
      if ok {
        writes := writes + [Write(p, files, files[p := c])];
        files := files[p := c];
      }
    }

    method Unlink(p: Path, mayFail: bool) returns (ok: bool)
      modifies this`files, this`writes
      ensures ok ==> p in old(files)
      ensures !mayFail && p in old(files) ==> ok
      ensures files == if ok then old(files) - {p} else old(files)
      ensures writes == if ok then old(writes) + [Write(p, old(files), files)] else old(writes)
    {
      var fault: bool := *;
      ok := p in files && !(mayFail && fault);
      if ok {
        writes := writes + [Write(p, files, files - {p})];
        files := files - {p};
      }
    }

    method Mkdir(d: Path, mayFail: bool) returns (ok: bool)
      modifies this`dirs, this`made
      ensures ok ==> d != [] && Parent(d) in old(dirs) && d !in old(dirs) && d !in files
      ensures !mayFail && d != [] && Parent(d) in old(dirs) && d !in old(dirs) && d !in files ==> ok
      ensures dirs == if ok then old(dirs) + {d} else old(dirs)
      ensures made == if ok then old(made) + [d] else old(made)
    {
      var fault: bool := *;
      ok := d != [] && Parent(d) in dirs && d !in dirs && d !in files && !(mayFail && fault);
      if ok { dirs, made := dirs + {d}, made + [d]; }
    }

    ghost predicate Empty(d: Path)
      reads this
    {
      && (forall p | p in files :: p != [] ==> Parent(p) != d)
      && (forall e | e in dirs :: e != [] ==> Parent(e) != d)
    }

    /** `rmdir` never removes a directory that still holds something. */
    method Rmdir(d: Path, mayFail: bool) returns (ok: bool)
      modifies this`dirs, this`removed
      ensures ok ==> old(Empty(d)) && d in old(dirs)
      ensures !mayFail && old(Empty(d)) && d in old(dirs) ==> ok
      ensures dirs == if ok then old(dirs) - {d} else old(dirs)
      ensures removed == if ok then old(removed) + [d] else old(removed)
    {
      var fault: bool := *;
      ok := && d in dirs
            && (forall p | p in files :: p != [] ==> Parent(p) != d)
            && (forall e | e in dirs :: e != [] ==> Parent(e) != d)
            && !(mayFail && fault);
      if ok { dirs, removed := dirs - {d}, removed + [d]; }
    }

    /** Whatever other processes do to the file system between two steps. */
    method OtherWriters(active: bool)
      modifies this`files, this`dirs
      ensures !active ==> files == old(files) && dirs == old(dirs)
    {
      if active {
        files := *;
        dirs := *;
      }
    }
  }
}
