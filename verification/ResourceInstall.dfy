/** The resource installation transaction: apply a plan file by file with backups, and compensate
    in reverse order when anything fails. */
module ResourceInstall {
  import opened Wrappers
  import opened FileTree
  import Lists

  /** One planned replacement: the content seen when planning (None if absent) and the new one. */
  datatype Change = Change(path: Path, before: Option<Content>, after: Content)

  datatype Entry = Entry(change: Change, applied: bool)

  datatype Outcome =
    | Installed
    | RolledBack
    | Blocked(conflicts: seq<Path>)  // the error that names what could not be undone
    | JournalLost                    // writing the final journal record failed instead

  const VERSION: string := "__version__"

  /** The files that publish a version; everything else is payload.  `state` is where the install
      state document of the target lies. */
  predicate IsMarker(p: Path, state: Path) {
    p == state || (p != [] && Name(p) == VERSION)
  }

  ghost predicate MarkersLast(plan: seq<Change>, state: Path) {
    forall i, j :: 0 <= i < j < |plan| && IsMarker(plan[i].path, state) ==> IsMarker(plan[j].path, state)
  }

  /** The plan still describes the files: nothing was edited since it was made. */
  ghost predicate Describes(plan: seq<Change>, files: Files) {
    && (forall i :: 0 <= i < |plan| ==> plan[i].path != [] && Get(files, plan[i].path) == plan[i].before != Some(plan[i].after))
    && (forall i, j :: 0 <= i < j < |plan| ==> plan[i].path != plan[j].path)
  }

  /** The files once every change of the plan is in place. */
  function After(files: Files, plan: seq<Change>): Files {
    if plan == [] then files
    else After(files, plan[..|plan| - 1])[plan[|plan| - 1].path := plan[|plan| - 1].after]
  }

  lemma {:induction false} AfterAt(files: Files, plan: seq<Change>, n: nat, p: Path)
    requires n <= |plan|
    requires forall i, j :: 0 <= i < j < |plan| ==> plan[i].path != plan[j].path
    ensures (forall i :: 0 <= i < n ==> plan[i].path != p) ==> Get(After(files, plan[..n]), p) == Get(files, p)
    ensures forall i :: 0 <= i < n && plan[i].path == p ==> Get(After(files, plan[..n]), p) == Some(plan[i].after)
  {
    if n > 0 {
      assert plan[..n][..n - 1] == plan[..n - 1];
      AfterAt(files, plan, n - 1, p);
    }
  }

  lemma AfterStep(files: Files, plan: seq<Change>, n: nat)
    requires n < |plan|
    ensures After(files, plan[..n + 1]) == After(files, plan[..n])[plan[n].path := plan[n].after]
  {
    assert plan[..n + 1][..n] == plan[..n];
  }

  /** A marker shows its new content only while all payload shows its new content. */
  ghost predicate MarkersFollowPayload(plan: seq<Change>, files: Files, state: Path) {
    forall i, j :: 0 <= i < |plan| && 0 <= j < |plan| && IsMarker(plan[i].path, state) && !IsMarker(plan[j].path, state)
                   && Get(files, plan[i].path) == Some(plan[i].after)
                   ==> Get(files, plan[j].path) == Some(plan[j].after)
  }

  lemma PrefixKeepsMarkersBehind(files: Files, plan: seq<Change>, n: nat, state: Path)
    requires n <= |plan| && Describes(plan, files) && MarkersLast(plan, state)
    ensures MarkersFollowPayload(plan, After(files, plan[..n]), state)
  {
    forall i, j | 0 <= i < |plan| && 0 <= j < |plan| && IsMarker(plan[i].path, state) && !IsMarker(plan[j].path, state)
                  && Get(After(files, plan[..n]), plan[i].path) == Some(plan[i].after)
      ensures Get(After(files, plan[..n]), plan[j].path) == Some(plan[j].after)
    {
      AfterAt(files, plan, n, plan[i].path);
      AfterAt(files, plan, n, plan[j].path);
      assert i < n;
      assert j < i;
    }
  }

  /** Directories created one by one, each below one that existed at the time. */
  ghost predicate Created(before: set<Path>, made: seq<Path>, now: set<Path>) {
    && now == before + (set d | d in made)
    && (forall k :: 0 <= k < |made| ==> made[k] != [] && made[k] !in before)
    && (forall k :: 0 <= k < |made| ==> Parent(made[k]) in before || Parent(made[k]) in made[..k])
    && (forall j, k :: 0 <= j < k < |made| ==> made[j] != made[k])
  }

  /** Undoing newest first, the last directory made is empty once the files are back. */
  lemma LastMadeIsEmpty(files: Files, before: set<Path>, made: seq<Path>, now: set<Path>)
    requires WellFormed(files, before) && Created(before, made, now) && made != []
    ensures forall p | p in files :: p != [] ==> Parent(p) != made[|made| - 1]
    ensures forall e | e in now :: e != [] ==> Parent(e) != made[|made| - 1]
    ensures Created(before, made[..|made| - 1], now - {made[|made| - 1]})
  {
    var n := |made| - 1;
    forall e | e in now && e != [] ensures Parent(e) != made[n] {
      if e !in before {
        var k :| 0 <= k < |made| && made[k] == e;
        assert made[n] !in made[..k];
      }
    }
    LastMadeGoes(before, made, now);
  }

  lemma LastMadeGoes(before: set<Path>, made: seq<Path>, now: set<Path>)
    requires Created(before, made, now) && made != []
    ensures Created(before, made[..|made| - 1], now - {made[|made| - 1]})
  {
    var n := |made| - 1;
    assert forall k :: 0 <= k < n ==> made[..n][..k] == made[..k];
    forall d ensures d in made[..n] <==> d in made && d != made[n] { Lists.InitOrLast(made, d); }
  }

  /** What one compensation did: only a path that held exactly what the transaction wrote. */
  ghost predicate Undoes(w: Write, c: Change) {
    && w.path == c.path
    && Get(w.before, c.path) == Some(c.after)
    && w.after == match c.before case None => w.before - {c.path} case Some(b) => w.before[c.path := b]
  }

  /** What one application did: only a path that held exactly what the plan saw. */
  ghost predicate Applies(w: Write, c: Change) {
    && w.path == c.path
    && Get(w.before, c.path) == c.before
    && w.after == w.before[c.path := c.after]
  }

  /** The writes are exactly the first `done` changes, in order. */
  ghost predicate WritesPlan(ws: seq<Write>, plan: seq<Change>, done: nat) {
    |ws| == done <= |plan| && forall k :: 0 <= k < done ==> Applies(ws[k], plan[k])
  }

  lemma PlanGrows(ws: seq<Write>, more: seq<Write>, plan: seq<Change>, done: nat)
    requires WritesPlan(ws, plan, done) && (more == [] || (|more| == 1 && done < |plan| && Applies(more[0], plan[done])))
    ensures WritesPlan(ws + more, plan, done + |more|)
  {
  }

  lemma ParentIsAbove(p: Path)
    requires p != []
    ensures forall d :: d == Parent(p) || Above(d, Parent(p)) ==> Above(d, p)
  {
  }

  /** Every state left by these writes is some prefix of the plan over `files`. */
  ghost predicate Stages(ws: seq<Write>, files: Files, plan: seq<Change>) {
    forall w | w in ws :: Stage(w.after, files, plan)
  }

  ghost predicate Stage(now: Files, files: Files, plan: seq<Change>) {
    exists n :: 0 <= n <= |plan| && now == After(files, plan[..n])
  }

  lemma StagesGrow(ws: seq<Write>, more: seq<Write>, files: Files, plan: seq<Change>, n: nat)
    requires Stages(ws, files, plan) && n <= |plan|
    requires more == [] || (|more| == 1 && more[0].after == After(files, plan[..n]))
    ensures Stages(ws + more, files, plan)
  {
    forall w | w in ws + more ensures Stage(w.after, files, plan) {
      if w !in ws { assert w == more[0]; }
    }
  }

  /** A directory that some planned path needs. */
  ghost predicate OnTheWay(d: Path, plan: seq<Change>) {
    exists k :: 0 <= k < |plan| && Above(d, plan[k].path)
  }

  ghost predicate Staged(overlay: Files, plan: seq<Change>) {
    forall c | c in plan :: Get(overlay, c.path) == Some(c.after)
  }

  /** Putting back the newest change leads to the state before it. */
  lemma UndoStep(files: Files, plan: seq<Change>, n: nat, w: Write, dirs: set<Path>)
    requires n < |plan| && Describes(plan, files)
    requires Undoes(w, plan[n]) && w.before == After(files, plan[..n + 1])
    ensures w.after == After(files, plan[..n])
    ensures WellFormed(w.before, dirs) ==> WellFormed(w.after, dirs)
  {
    AfterStep(files, plan, n);
    AfterAt(files, plan, n, plan[n].path);
  }

  function Fewer(a: nat, b: nat): nat { if a < b then a else b }

  /** Putting the change back is sound: its path holds what was put there, and the backup what was there. */
  ghost predicate Sound(c: Change, files: Files, backup: Files) {
    Get(files, c.path) == Some(c.after) && (c.before.Some? ==> Get(backup, c.path) == c.before)
  }

  ghost function Restored(c: Change, files: Files): Files {
    match c.before case None => files - {c.path} case Some(b) => files[c.path := b]
  }

  ghost predicate OnePathEach(plan: seq<Change>) {
    forall i, j :: 0 <= i < j < |plan| ==> plan[i].path != plan[j].path
  }

  class Transaction {
    const tree: Tree
    const planned: seq<Change>
    ghost const madeBefore: seq<Path>
    var overlay: Files           // the candidate content, by destination
    var backup: Files
    var entries: seq<Entry>
    var directories: seq<Path>

    constructor (tree: Tree, planned: seq<Change>, overlay: Files)
      requires forall c | c in planned :: c.path != []
      ensures this.tree == tree && this.planned == planned && this.overlay == overlay
      ensures entries == [] && directories == [] && Fits() && Listed()
    {
      this.tree, this.planned, this.overlay := tree, planned, overlay;
      madeBefore := tree.made;
      backup, entries, directories := map[], [], [];
    }

    /** Every entry stands for one change of the plan, in order. */
    ghost predicate Fits()
      reads this`entries
    {
      && |entries| <= |planned|
      && (forall k :: 0 <= k < |entries| ==> entries[k].change == planned[k])
      && (forall c | c in planned :: c.path != [])
    }

    /** The directories made, by whatever way the transaction got here, are exactly those listed, and
        each is on the way to a planned file. */
    ghost predicate Listed()
      reads this`directories, tree`made
    {
      tree.made == madeBefore + directories && forall d | d in directories :: OnTheWay(d, planned)
    }

    /** Other writers reach the target, the work directory and the candidate. */
    method Pause(others: bool)
      modifies this`overlay, this`backup, tree`files, tree`dirs
      ensures !others ==> overlay == old(overlay) && backup == old(backup)
      ensures !others ==> tree.files == old(tree.files) && tree.dirs == old(tree.dirs)
    {
      tree.OtherWriters(others);
      if others { overlay := *; backup := *; }
    }

    /** Appending to the undo journal, which may fail; on a full disk it does. */
    method Record(mayFail: bool, full: bool := false) returns (ok: bool)
      ensures !mayFail && !full ==> ok
      ensures full ==> !ok
    {
      var fault: bool := *;
      ok := !full && !(mayFail && fault);
    }

    /** Walks up from `parent` to the first path that exists, collecting the missing ones. */
    method Missing(parent: Path, others: bool) returns (missing: seq<Path>)
      modifies this`overlay, this`backup, tree`files, tree`dirs
      ensures !others ==> overlay == old(overlay) && backup == old(backup)
      ensures !others ==> tree.files == old(tree.files) && tree.dirs == old(tree.dirs)
      ensures |missing| <= |parent| && forall k :: 0 <= k < |missing| ==> missing[k] == parent[..|parent| - k]
      ensures !others ==> Unmade(parent, |parent| - |missing|, tree.dirs)
      ensures !others ==> var top := parent[..|parent| - |missing|]; top == [] || top in tree.dirs || top in tree.files
    {
      missing := [];
      var p := parent;
      Pause(others);
      while p != [] && p !in tree.dirs && p !in tree.files  // the file system root always exists
        invariant |missing| + |p| == |parent| && p == parent[..|p|]
        invariant forall k :: 0 <= k < |missing| ==> missing[k] == parent[..|parent| - k]
        invariant !others ==> Unmade(parent, |p|, tree.dirs)
        invariant !others ==> overlay == old(overlay) && backup == old(backup)
        invariant !others ==> tree.files == old(tree.files) && tree.dirs == old(tree.dirs)
        decreases |p|
      {
        missing := missing + [p];
        p := Parent(p);
        Pause(others);
      }
    }

    /** Directories made on the way to `parent`, and nothing else changed. */
    ghost predicate Making(dirs0: set<Path>, was: set<Path>, parent: Path)
      reads this`directories, tree`files, tree`dirs
    {
      && WellFormed(tree.files, tree.dirs)
      && Created(dirs0, directories, tree.dirs)
      && (forall d | d in tree.dirs :: d in was || d == parent || Above(d, parent))
    }

    /** One directory: journalled, made and listed. */
    method MakeDirectory(d: Path, others: bool, mayFail: bool, ghost dirs0: set<Path>) returns (ok: bool)
      requires !others ==> WellFormed(tree.files, tree.dirs) && Created(dirs0, directories, tree.dirs)
      modifies this`overlay, this`backup, this`directories, tree`files, tree`dirs, tree`made
      ensures tree.made == old(tree.made) + if ok then [d] else []
      ensures directories == old(directories) + if ok then [d] else []
      ensures !others ==> overlay == old(overlay) && backup == old(backup) && tree.files == old(tree.files)
      ensures !others ==> WellFormed(tree.files, tree.dirs) && Created(dirs0, directories, tree.dirs)
      ensures !others ==> tree.dirs == if ok then old(tree.dirs) + {d} else old(tree.dirs)
      ensures !others && !mayFail && d != [] && Parent(d) in old(tree.dirs) && d !in old(tree.dirs) && d !in tree.files ==> ok
    {
      ok := Record(mayFail);
      if !ok { return; }
      Pause(others);
      ghost var was, made := tree.dirs, directories;
      ok := tree.Mkdir(d, mayFail);
      if !ok { return; }
      directories := directories + [d];
      if !others { Extend(dirs0, made, was, d); }
    }

    /** The directory one step below the first `level` steps of the way to `parent`. */
    method MakeLevel(parent: Path, level: nat, others: bool, mayFail: bool, ghost dirs0: set<Path>, ghost was: set<Path>)
      returns (ok: bool)
      requires level < |parent|
      requires !others ==> Making(dirs0, was, parent) && Unmade(parent, level, tree.dirs)
      modifies this`overlay, this`backup, this`directories, tree`files, tree`dirs, tree`made
      ensures tree.made == old(tree.made) + if ok then [parent[..level + 1]] else []
      ensures directories == old(directories) + if ok then [parent[..level + 1]] else []
      ensures !others ==> overlay == old(overlay) && backup == old(backup) && tree.files == old(tree.files)
      ensures !others ==> Making(dirs0, was, parent)
      ensures !others && ok ==> Unmade(parent, level + 1, tree.dirs) && parent[..level + 1] in tree.dirs
      ensures !others && !mayFail && Clear(old(tree.files), parent) && parent[..level] in old(tree.dirs) ==> ok
    {
      LevelIsAbove(parent, level);
      ok := MakeDirectory(parent[..level + 1], others, mayFail, dirs0);
      if !others && ok { LevelMade(parent, level, old(tree.dirs)); }
    }

    /** Creates missing directories down to `parent`, outermost first: `more`, one level below the
        other starting below `from` levels, are those it made. */
    method Parents(parent: Path, others: bool, mayFail: bool, ghost dirs0: set<Path>)
      returns (ok: bool, ghost more: seq<Path>, ghost from: nat)
      requires !others ==> Making(dirs0, tree.dirs, parent)
      modifies this`overlay, this`backup, this`directories, tree`files, tree`dirs, tree`made
      ensures tree.made == old(tree.made) + more && directories == old(directories) + more
      ensures Levels(parent, more, from) && (ok ==> from + |more| == |parent|)
      ensures !others ==> overlay == old(overlay) && backup == old(backup) && tree.files == old(tree.files)
      ensures !others ==> Making(dirs0, old(tree.dirs), parent)
      ensures !others && !mayFail && Clear(old(tree.files), parent) ==> ok && parent in tree.dirs
    {
      ghost var clear := Clear(tree.files, parent);
      var missing := Missing(parent, others);
      var level := |parent| - |missing|;
      more, from, ok := [], level, true;
      while ok && level < |parent|
        invariant level <= |parent| && Levels(parent, more, from) && from + |more| == level
        invariant tree.made == old(tree.made) + more && directories == old(directories) + more
        invariant !others ==> overlay == old(overlay) && backup == old(backup) && tree.files == old(tree.files)
        invariant !others ==> Making(dirs0, old(tree.dirs), parent)
        invariant !others && ok ==> Unmade(parent, level, tree.dirs)
        invariant !others && ok && clear ==> parent[..level] in tree.dirs
        invariant !others && !mayFail && clear ==> ok
        decreases |parent| - level, ok
      {
        ok := MakeLevel(parent, level, others, mayFail, dirs0, old(tree.dirs));
        if ok {
          level := level + 1;
          LevelsGrow(parent, more, from, level);
          Lists.ConcatIsAssociative(old(tree.made), more, [parent[..level]]);
          Lists.ConcatIsAssociative(old(directories), more, [parent[..level]]);
          more := more + [parent[..level]];
        }
      }
      assert parent[..|parent|] == parent;
    }

    static lemma LevelIsAbove(parent: Path, level: nat)
      requires level < |parent|
      ensures var d := parent[..level + 1]; d != [] && Parent(d) == parent[..level] && (d == parent || Above(d, parent))
    {
    }

    static lemma LevelMade(parent: Path, level: nat, dirs: set<Path>)
      requires level < |parent| && Unmade(parent, level, dirs)
      ensures Unmade(parent, level + 1, dirs + {parent[..level + 1]})
    {
      assert forall m :: level + 1 < m <= |parent| ==> |parent[..m]| != |parent[..level + 1]|;
    }

    /** No directory stands below the first `level` levels of the way to `parent`. */
    static ghost predicate Unmade(parent: Path, level: nat, dirs: set<Path>) {
      forall m :: level < m <= |parent| ==> parent[..m] !in dirs
    }

    /** Directories on the way to `parent`, one level below the other. */
    static ghost predicate Levels(parent: Path, more: seq<Path>, from: nat) {
      from + |more| <= |parent| && forall j :: 0 <= j < |more| ==> more[j] == parent[..from + j + 1]
    }

    static lemma LevelsGrow(parent: Path, more: seq<Path>, from: nat, level: nat)
      requires Levels(parent, more, from) && from + |more| + 1 == level <= |parent|
      ensures Levels(parent, more + [parent[..level]], from)
    {
    }

    static lemma LevelsAreOnTheWay(plan: seq<Change>, i: nat, made: seq<Path>, more: seq<Path>, from: nat)
      requires i < |plan| && plan[i].path != [] && Levels(Parent(plan[i].path), more, from)
      requires forall d | d in made :: OnTheWay(d, plan)
      ensures forall d | d in made + more :: OnTheWay(d, plan)
    {
      forall d | d in more ensures Above(d, plan[i].path) {
        var j :| 0 <= j < |more| && d == more[j];
        assert d == plan[i].path[..from + j + 1];
      }
    }

    /** No file stands at `p` or above it. */
    static ghost predicate Clear(files: Files, p: Path) {
      forall a | a in files :: a != p && !Above(a, p)
    }

    static lemma Extend(before: set<Path>, made: seq<Path>, now: set<Path>, d: Path)
      requires Created(before, made, now) && d != [] && d !in now && Parent(d) in now
      ensures Created(before, made + [d], now + {d})
    {
      var more := made + [d];
      assert forall k :: 0 <= k < |made| ==> more[..k] == made[..k];
      assert more[..|made|] == made;
      assert (set e | e in more) == (set e | e in made) + {d};
    }

    /** Nothing stands where a planned file or a directory above it must go. */
    static ghost predicate Placeable(plan: seq<Change>, files: Files, dirs: set<Path>) {
      forall i :: 0 <= i < |plan| ==>
        && plan[i].path !in dirs
        && (forall a | a in files :: !Above(a, plan[i].path))
        && (forall j :: 0 <= j < |plan| ==> !Above(plan[i].path, plan[j].path))
    }

    static lemma PathClear(plan: seq<Change>, files0: Files, dirs0: set<Path>, dirs: set<Path>, i: nat)
      requires i < |plan| && Describes(plan, files0) && Placeable(plan, files0, dirs0)
      requires forall d | d in dirs :: d in dirs0 || OnTheWay(d, plan)
      ensures plan[i].path !in dirs
      ensures Clear(After(files0, plan[..i]), Parent(plan[i].path))
    {
      forall a | a in After(files0, plan[..i]) ensures !Above(a, plan[i].path) {
        AfterAt(files0, plan, i, a);
      }
      assert forall a: Path :: Above(a, Parent(plan[i].path)) ==> Above(a, plan[i].path);
      assert Above(Parent(plan[i].path), plan[i].path);
    }

    /** The first `done` entries are applied, at most one more was journalled. */
    ghost predicate Progress(done: nat)
      reads this`entries
    {
      && Fits()
      && done <= |entries| <= done + 1
      && (forall k :: 0 <= k < |entries| ==> (entries[k].applied <==> k < done))
    }

    /** Without other writers: the files and directories after the first `done` changes, each
        undoable from its backup. */
    ghost predicate Quiet(files0: Files, dirs0: set<Path>, done: nat)
      reads this`directories, this`backup, tree`files, tree`dirs
      requires done <= |planned|
    {
      QuietWith(planned, files0, dirs0, done, tree.files, tree.dirs, directories, backup)
    }

    static ghost predicate QuietWith(plan: seq<Change>, files0: Files, dirs0: set<Path>, done: nat, files: Files, dirs: set<Path>,
                                     made: seq<Path>, backup: Files)
      requires done <= |plan|
    {
      && WellFormed(files0, dirs0) && WellFormed(files, dirs)
      && Describes(plan, files0)
      && files == After(files0, plan[..done])
      && Created(dirs0, made, dirs)
      && (forall d | d in dirs :: d in dirs0 || OnTheWay(d, plan))
      && (forall k :: 0 <= k < done && plan[k].before.Some? ==> Get(backup, plan[k].path) == plan[k].before)
    }

    /** A backup of the next file and new directories on the way to it disturb nothing. */
    static lemma QuietPrepared(plan: seq<Change>, files0: Files, dirs0: set<Path>, i: nat, files: Files,
                               was: set<Path>, made: seq<Path>, backup: Files,
                               dirs: set<Path>, made': seq<Path>, backup': Files)
      requires i < |plan| && QuietWith(plan, files0, dirs0, i, files, was, made, backup)
      requires WellFormed(files, dirs) && Created(dirs0, made', dirs)
      requires forall d | d in dirs :: d in was || d == Parent(plan[i].path) || Above(d, Parent(plan[i].path))
      requires forall q :: q != plan[i].path ==> Get(backup', q) == Get(backup, q)
      ensures QuietWith(plan, files0, dirs0, i, files, dirs, made', backup')
    {
      ParentIsAbove(plan[i].path);
      forall d | d in dirs ensures d in dirs0 || OnTheWay(d, plan) {
        if d !in was { assert Above(d, plan[i].path); }
      }
    }

    /** The next replacement, its file backed up. */
    static lemma QuietApplied(plan: seq<Change>, files0: Files, dirs0: set<Path>, i: nat, was: Files, files: Files,
                              dirs: set<Path>, made: seq<Path>, backup: Files)
      requires i < |plan| && QuietWith(plan, files0, dirs0, i, was, dirs, made, backup)
      requires plan[i].before.Some? ==> Get(backup, plan[i].path) == plan[i].before
      requires Parent(plan[i].path) in dirs && plan[i].path !in dirs
      requires files == was[plan[i].path := plan[i].after]
      ensures QuietWith(plan, files0, dirs0, i + 1, files, dirs, made, backup)
      ensures files == After(files0, plan[..i + 1])
    {
      AfterStep(files0, plan, i);
    }

    /** The newest replacement put back. */
    static lemma QuietUndone(plan: seq<Change>, files0: Files, dirs0: set<Path>, n: nat, was: Files, files: Files,
                             dirs: set<Path>, made: seq<Path>, backup: Files)
      requires n < |plan| && QuietWith(plan, files0, dirs0, n + 1, was, dirs, made, backup)
      requires Undoes(Write(plan[n].path, was, files), plan[n])
      ensures QuietWith(plan, files0, dirs0, n, files, dirs, made, backup)
      ensures files == After(files0, plan[..n])
    {
      UndoStep(files0, plan, n, Write(plan[n].path, was, files), dirs);
    }

    /** Copies the file to the work directory and checks that the copy is what the plan saw. */
    method BackUp(p: Path, before: Option<Content>, others: bool, mayFail: bool) returns (ok: bool)
      modifies this`overlay, this`backup, tree`files, tree`dirs
      ensures !others ==> tree.files == old(tree.files) && tree.dirs == old(tree.dirs) && overlay == old(overlay)
      ensures !others ==> forall q :: q != p ==> Get(backup, q) == Get(old(backup), q)
      ensures ok ==> if before.Some? then Get(backup, p) == before else p !in tree.files
      ensures !others && !mayFail && Get(tree.files, p) == before ==> ok
    {
      Pause(others);
      ok := Get(tree.files, p) == before;
      if ok && before.Some? {
        ok := Record(mayFail);  // copying may fail
        Pause(others);
        ok := ok && p in tree.files;
        if ok {
          backup := backup[p := tree.files[p]];
          Pause(others);
          ok := Get(backup, p) == before;
        }
      }
    }

    /** Copies the candidate, checks it and the target once more, and replaces the target. */
    method Publish(c: Change, others: bool, mayFail: bool) returns (ok: bool, ghost put: seq<Write>)
      requires c.path != []
      modifies this`overlay, this`backup, tree`files, tree`dirs, tree`writes
      ensures tree.writes == old(tree.writes) + put
      ensures if ok then |put| == 1 && Applies(put[0], c) else put == []
      ensures !others ==> overlay == old(overlay) && backup == old(backup) && tree.dirs == old(tree.dirs)
      ensures !others ==> tree.files == if ok then old(tree.files)[c.path := c.after] else old(tree.files)
      ensures !others && ok ==> Parent(c.path) in tree.dirs && c.path !in tree.dirs && put[0].after == tree.files
      ensures (&& !others && !mayFail && Get(overlay, c.path) == Some(c.after) && Get(old(tree.files), c.path) == c.before
               && Parent(c.path) in tree.dirs && c.path !in tree.dirs) ==> ok
    {
      Pause(others);
      put, ok := [], Get(overlay, c.path) == Some(c.after);
      if ok {
        var temporary := overlay[c.path];
        Pause(others);
        ok := Get(tree.files, c.path) == c.before;
        if ok {
          ok := tree.Replace(c.path, temporary, mayFail);
          put := tree.writes[|old(tree.writes)|..];
        }
      }
    }

    /** The first half of a turn of the loop of `apply`: backup, directories and the journal. */
    method Prepare(i: nat, others: bool, mayFail: bool, ghost files0: Files, ghost dirs0: set<Path>) returns (ok: bool)
      requires i < |planned| && |entries| == i && Progress(i)
      requires Listed() && (!others ==> Quiet(files0, dirs0, i))
      modifies this, tree`files, tree`dirs, tree`made
      ensures Listed() && Progress(i) && (ok ==> |entries| == i + 1)
      ensures !others ==> overlay == old(overlay) && Quiet(files0, dirs0, i)
      ensures !others && ok && planned[i].before.Some? ==> Get(backup, planned[i].path) == planned[i].before
      ensures !others && !mayFail && Placeable(planned, files0, dirs0) ==> ok && Parent(planned[i].path) in tree.dirs
    {
      var c := planned[i];
      assert !others ==> Get(tree.files, c.path) == c.before by {
        if !others { AfterAt(files0, planned, i, c.path); }
      }
      assert !others && Placeable(planned, files0, dirs0) ==> Clear(tree.files, Parent(c.path)) by {
        if !others && Placeable(planned, files0, dirs0) { PathClear(planned, files0, dirs0, tree.dirs, i); }
      }
      ghost var was, backup0 := tree.dirs, backup;
      ok := BackUp(c.path, c.before, others, mayFail);
      if !others { QuietPrepared(planned, files0, dirs0, i, tree.files, was, directories, backup0, was, directories, backup); }
      if !ok { return; }
      ghost var more, from;
      ok, more, from := Parents(Parent(c.path), others, mayFail, dirs0);
      ParentIsAbove(c.path);
      if !others { QuietPrepared(planned, files0, dirs0, i, tree.files, was, old(directories), backup, tree.dirs, directories, backup); }
      LevelsAreOnTheWay(planned, i, old(directories), more, from);
      Lists.ConcatIsAssociative(madeBefore, old(directories), more);
      if !ok { return; }
      ok := Record(mayFail);
      if ok { entries := entries + [Entry(c, false)]; }
    }

    /** One turn of the loop of `apply`: `applied` tells whether the replacement took place, `ok`
        whether the loop goes on. */
    method ApplyChange(i: nat, others: bool, mayFail: bool, ghost files0: Files, ghost dirs0: set<Path>)
      returns (ok: bool, applied: bool, ghost put: seq<Write>)
      requires i < |planned| && |entries| == i && Progress(i)
      requires Listed() && (!others ==> Quiet(files0, dirs0, i))
      modifies this, tree`files, tree`dirs, tree`writes, tree`made
      ensures Listed() && Progress(if applied then i + 1 else i) && (ok ==> applied && |entries| == i + 1)
      ensures tree.writes == old(tree.writes) + put
      ensures if applied then |put| == 1 && Applies(put[0], planned[i]) else put == []
      ensures !others ==> overlay == old(overlay) && Quiet(files0, dirs0, if applied then i + 1 else i)
      ensures !others && applied ==> put[0].after == After(files0, planned[..i + 1])
      ensures !others && !mayFail && Placeable(planned, files0, dirs0) && Staged(overlay, planned) ==> ok
    {
      applied, put := false, [];
      ok := Prepare(i, others, mayFail, files0, dirs0);
      if !ok { return; }
      if !others {
        AfterAt(files0, planned, i, planned[i].path);
        if Placeable(planned, files0, dirs0) { PathClear(planned, files0, dirs0, tree.dirs, i); }
      }
      ghost var was := tree.files;
      ok, put := Publish(planned[i], others, mayFail);
      if !ok { return; }
      applied := true;
      entries := entries[i := entries[i].(applied := true)];
      if !others { QuietApplied(planned, files0, dirs0, i, was, tree.files, tree.dirs, directories, backup); }
      ok := Record(mayFail);
    }

    /** `apply` has gone through the first `i` changes, or stopped before. */
    ghost predicate Applying(i: nat, ok: bool, others: bool, mayFail: bool, files0: Files, dirs0: set<Path>, overlay0: Files,
                             done: nat, ws0: seq<Write>, put: seq<Write>)
      reads this`entries, this`directories, this`backup, this`overlay, tree
    {
      && Listed() && i <= |planned| && (ok ==> done == i == |entries|) && Progress(done)
      && tree.writes == ws0 + put && WritesPlan(put, planned, done)
      && (!others ==> overlay == overlay0 && Quiet(files0, dirs0, done) && Stages(put, files0, planned))
      && (!others && !mayFail && Placeable(planned, files0, dirs0) && Staged(overlay0, planned) ==> ok)
    }

    method ApplyTurn(i: nat, others: bool, mayFail: bool, ghost files0: Files, ghost dirs0: set<Path>, ghost overlay0: Files,
                     ghost done: nat, ghost ws0: seq<Write>, ghost put: seq<Write>)
      returns (ok: bool, ghost done': nat, ghost put': seq<Write>)
      requires i < |planned| && Applying(i, true, others, mayFail, files0, dirs0, overlay0, done, ws0, put)
      modifies this, tree`files, tree`dirs, tree`writes, tree`made
      ensures Applying(i + 1, ok, others, mayFail, files0, dirs0, overlay0, done', ws0, put')
    {
      var applied;
      ghost var more;
      ok, applied, more := ApplyChange(i, others, mayFail, files0, dirs0);
      if !others { StagesGrow(put, more, files0, planned, i + 1); }
      Lists.ConcatIsAssociative(ws0, put, more);
      PlanGrows(put, more, planned, done);
      put' := put + more;
      done' := if applied then i + 1 else done;
    }

    /** The `try` body of `apply`; `put` lists its writes. */
    method ApplyPlanned(others: bool, mayFail: bool) returns (ok: bool, ghost done: nat, ghost put: seq<Write>)
      requires Fits() && Listed() && entries == [] && directories == []
      requires !others ==> WellFormed(tree.files, tree.dirs) && Describes(planned, tree.files)
      modifies this, tree`files, tree`dirs, tree`writes, tree`made
      ensures Listed() && Progress(done) && (ok ==> done == |planned|)
      ensures tree.writes == old(tree.writes) + put && WritesPlan(put, planned, done)
      ensures !others ==> Quiet(old(tree.files), old(tree.dirs), done)
      ensures !others ==> Stages(put, old(tree.files), planned)
      ensures !others && !mayFail && Placeable(planned, old(tree.files), old(tree.dirs)) && Staged(old(overlay), planned) ==> ok
    {
      done, ok, put := 0, true, [];
      var i := 0;
      ghost var files0, dirs0, overlay0, ws0 := tree.files, tree.dirs, overlay, tree.writes;
      assert planned[..0] == [];
      while ok && i < |planned|
        invariant i >= 0 && Applying(i, ok, others, mayFail, files0, dirs0, overlay0, done, ws0, put)
        decreases |planned| - i
      {
        ok, done, put := ApplyTurn(i, others, mayFail, files0, dirs0, overlay0, done, ws0, put);
        i := i + 1;
      }
    }

    /** Compensates one entry: only while the target holds exactly what was written there. */
    method Undo(c: Change, others: bool, mayFail: bool) returns (ok: bool, ghost put: seq<Write>)
      requires c.path != []
      modifies this`overlay, this`backup, tree`files, tree`dirs, tree`writes
      ensures tree.writes == old(tree.writes) + put
      ensures if ok then |put| == 1 && Undoes(put[0], c) else put == []
      ensures !others ==> overlay == old(overlay) && backup == old(backup) && tree.dirs == old(tree.dirs)
      ensures !others && ok ==> Undoes(Write(c.path, old(tree.files), tree.files), c) && put[0].after == tree.files
      ensures !others && ok && c.before.Some? ==> Get(old(backup), c.path) == c.before
      ensures !others && !ok ==> tree.files == old(tree.files)
      ensures (&& !others && !mayFail && WellFormed(old(tree.files), old(tree.dirs))
               && Get(old(tree.files), c.path) == Some(c.after)
               && (c.before.Some? ==> Get(old(backup), c.path) == c.before)) ==> ok
    {
      Pause(others);
      put, ok := [], Get(tree.files, c.path) == Some(c.after);
      if ok {
        if c.before.None? {
          ok := tree.Unlink(c.path, mayFail);
        } else {
          ok := Get(backup, c.path) == c.before;
          if ok { ok := tree.Replace(c.path, c.before.value, mayFail); }
        }
        put := tree.writes[|old(tree.writes)|..];
      }
    }

    /** Removes the directories made, newest first; one that cannot be removed is left alone, and no
        other directory is touched, whoever else writes. */
    method RemoveDirectories(others: bool, mayFail: bool, ghost calm: bool, ghost dirs0: set<Path>)
      requires calm ==> !others && !mayFail && WellFormed(tree.files, dirs0) && Created(dirs0, directories, tree.dirs)
      modifies this`overlay, this`backup, tree`files, tree`dirs, tree`removed
      ensures RemovedOnly(old(tree.removed), tree.removed, directories)
      ensures !others ==> tree.files == old(tree.files)
      ensures !others ==> tree.dirs <= old(tree.dirs) && forall d | d in old(tree.dirs) - tree.dirs :: d in directories
      ensures calm ==> tree.dirs == dirs0
    {
      var k := |directories|;
      assert directories[..k] == directories;
      ghost var removed0, files1, dirs1 := tree.removed, tree.files, tree.dirs;
      while k > 0
        invariant Removing(k, others, calm, dirs0, removed0, files1, dirs1)
      {
        k := RemoveOne(k, others, mayFail, calm, dirs0, removed0, files1, dirs1);
      }
    }

    /** The directories from the `k`-th on have been tried. */
    ghost predicate Removing(k: nat, others: bool, calm: bool, dirs0: set<Path>, removed0: seq<Path>, files1: Files, dirs1: set<Path>)
      reads this`directories, tree
    {
      && k <= |directories| && RemovedOnly(removed0, tree.removed, directories)
      && (!others ==> tree.files == files1 && tree.dirs <= dirs1 && forall d | d in dirs1 - tree.dirs :: d in directories)
      && (calm ==> WellFormed(files1, dirs0) && Created(dirs0, directories[..k], tree.dirs))
    }

    static lemma NextIsEmpty(files: Files, dirs0: set<Path>, made: seq<Path>, k: nat, dirs: set<Path>)
      requires 0 < k <= |made| && WellFormed(files, dirs0) && Created(dirs0, made[..k], dirs)
      ensures forall p | p in files :: p != [] ==> Parent(p) != made[k - 1]
      ensures forall e | e in dirs :: e != [] ==> Parent(e) != made[k - 1]
      ensures made[k - 1] in dirs && Created(dirs0, made[..k - 1], dirs - {made[k - 1]})
    {
      LastMadeIsEmpty(files, dirs0, made[..k], dirs);
      assert made[..k][..k - 1] == made[..k - 1] && made[k - 1] in made[..k];
    }

    static lemma RemovedMore(before: seq<Path>, now: seq<Path>, d: Path, list: seq<Path>)
      requires RemovedOnly(before, now, list) && d in list
      ensures RemovedOnly(before, now + [d], list)
    {
      assert (now + [d])[|before|..] == now[|before|..] + [d];
    }

    method RemoveOne(k: nat, others: bool, mayFail: bool, ghost calm: bool, ghost dirs0: set<Path>, ghost removed0: seq<Path>,
                     ghost files1: Files, ghost dirs1: set<Path>) returns (left: nat)
      requires k > 0 && (calm ==> !others && !mayFail) && Removing(k, others, calm, dirs0, removed0, files1, dirs1)
      modifies this`overlay, this`backup, tree`files, tree`dirs, tree`removed
      ensures left == k - 1 && Removing(left, others, calm, dirs0, removed0, files1, dirs1)
    {
      left := k - 1;
      Pause(others);
      ghost var was := tree.dirs;
      if calm { NextIsEmpty(files1, dirs0, directories, k, was); }
      RemovedMore(removed0, tree.removed, directories[left], directories);
      var _ := tree.Rmdir(directories[left], mayFail);
      assert calm ==> tree.dirs == was - {directories[left]};
    }

    /** Since `before`, only directories of the list were removed. */
    static ghost predicate RemovedOnly(before: seq<Path>, now: seq<Path>, list: seq<Path>) {
      before <= now && forall d | d in now[|before|..] :: d in list
    }

    /** One turn of the loop of `rollback`: `undone` tells whether the target was restored, `ok`
        whether the entry stays out of the conflicts. */
    method UndoEntry(n: nat, others: bool, mayFail: bool, full: bool,
                     ghost calm: bool, ghost files0: Files, ghost dirs0: set<Path>, ghost done: nat)
      returns (undone: bool, ok: bool, ghost put: seq<Write>)
      requires full ==> mayFail
      requires Fits() && n < |entries| && done <= |entries| && (entries[n].applied <==> n < done)
      requires calm ==> !others && !mayFail && Quiet(files0, dirs0, Fewer(n + 1, done))
      modifies this`overlay, this`backup, this`entries, tree`files, tree`dirs, tree`writes
      ensures Fits() && |entries| == |old(entries)| && forall k :: 0 <= k < n ==> entries[k] == old(entries)[k]
      ensures tree.writes == old(tree.writes) + put
      ensures if undone then |put| == 1 && Undoes(put[0], planned[n]) else put == []
      ensures undone ==> old(entries)[n].applied
      ensures old(entries)[n].applied && ok ==> undone
      ensures full && old(entries)[n].applied ==> !ok
      // Undisturbed, whatever happened before: it is put back exactly if that is sound.
      ensures !others && !mayFail && WellFormed(old(tree.files), old(tree.dirs)) ==>
        && backup == old(backup) && tree.dirs == old(tree.dirs) && WellFormed(tree.files, tree.dirs)
        && (undone <==> old(entries)[n].applied && Sound(planned[n], old(tree.files), old(backup)))
        && (ok <==> undone || !old(entries)[n].applied)
        && tree.files == if undone then Restored(planned[n], old(tree.files)) else old(tree.files)
      ensures calm ==> ok && Quiet(files0, dirs0, Fewer(n, done))
      ensures calm && undone ==> put[0].after == After(files0, planned[..n])
    {
      undone, ok, put := false, true, [];
      if entries[n].applied {
        var c := entries[n].change;
        if calm {
          AfterStep(files0, planned, n);
        }
        ghost var was := tree.files;
        undone, put := Undo(c, others, mayFail);
        ok := undone;
        if undone {
          if calm { QuietUndone(planned, files0, dirs0, n, was, tree.files, tree.dirs, directories, backup); }
          entries := entries[n := entries[n].(applied := false)];
          ok := Record(mayFail, full);
        }
      }
    }

    /** The compensating writes only put back changes before `done`, and every change from
        `first` on was put back or is among the conflicts. */
    ghost predicate Settled(first: nat, done: nat, put: seq<Write>, conflicts: seq<Path>)
      requires done <= |planned|
    {
      && (forall w | w in put :: exists k :: 0 <= k < done && Undoes(w, planned[k]))
      && (forall k :: first <= k < done ==>
        planned[k].path in conflicts || exists w :: w in put && Undoes(w, planned[k]))
    }

    /** The changes up to `done` have been tried from the last down to `n`, starting from these files and
        backups: exactly what was sound is put back, the rest is named, nothing else has changed. */
    ghost predicate Tried(n: nat, done: nat, files1: Files, backup1: Files, conflicts: seq<Path>)
      reads this`backup, tree`files, tree`dirs
    {
      WellFormed(tree.files, tree.dirs) && backup == backup1 && TriedWith(planned, n, done, files1, backup1, tree.files, conflicts)
    }

    static ghost predicate TriedWith(plan: seq<Change>, n: nat, done: nat, files1: Files, backup1: Files, files: Files,
                                     conflicts: seq<Path>)
    {
      && done <= |plan| && OnePathEach(plan)
      && (forall k :: n <= k < done ==> Settles(plan[k], files1, backup1, files, conflicts))
      && (forall p :: IsTried(plan, n, done, p) || (p !in conflicts && Get(files, p) == Get(files1, p)))
    }

    static ghost predicate IsTried(plan: seq<Change>, n: nat, done: nat, p: Path) {
      exists k :: n <= k < done <= |plan| && plan[k].path == p
    }

    static ghost predicate Settles(c: Change, files1: Files, backup1: Files, files: Files, conflicts: seq<Path>) {
      if Sound(c, files1, backup1) then c.path !in conflicts && Get(files, c.path) == c.before
      else c.path in conflicts && Get(files, c.path) == Get(files1, c.path)
    }

    static lemma TriedNext(plan: seq<Change>, n: nat, done: nat, files1: Files, backup1: Files, was: Files, files: Files,
                           conflicts: seq<Path>, conflicts': seq<Path>)
      requires n < done && TriedWith(plan, n + 1, done, files1, backup1, was, conflicts)
      requires conflicts' == conflicts + if Sound(plan[n], was, backup1) then [] else [plan[n].path]
      requires files == if Sound(plan[n], was, backup1) then Restored(plan[n], was) else was
      ensures TriedWith(plan, n, done, files1, backup1, files, conflicts')
    {
      var c := plan[n];
      assert !IsTried(plan, n + 1, done, c.path);
      assert Get(was, c.path) == Get(files1, c.path) && c.path !in conflicts;
      forall k | n <= k < done ensures Settles(plan[k], files1, backup1, files, conflicts') {
        if k > n { assert plan[k].path != c.path && Settles(plan[k], files1, backup1, was, conflicts); }
      }
      forall p ensures IsTried(plan, n, done, p) || (p !in conflicts' && Get(files, p) == Get(files1, p)) {
        if IsTried(plan, n + 1, done, p) {
          var k :| n + 1 <= k < done && plan[k].path == p;
        } else if p == c.path {
          assert IsTried(plan, n, done, plan[n].path);
        }
      }
    }

    /** One turn, of an applied change or of one that was only journalled. */
    static lemma TriedTurn(plan: seq<Change>, n: nat, done: nat, files1: Files, backup1: Files, was: Files, files: Files,
                           undone: bool, conflicts: seq<Path>, conflicts': seq<Path>)
      requires n < |plan| && TriedWith(plan, n + 1, done, files1, backup1, was, conflicts)
      requires undone <==> n < done && Sound(plan[n], was, backup1)
      requires conflicts' == if undone || n >= done then conflicts else conflicts + [plan[n].path]
      requires files == if undone then Restored(plan[n], was) else was
      ensures TriedWith(plan, n, done, files1, backup1, files, conflicts')
    {
      if n < done {
        assert conflicts + [] == conflicts;
        TriedNext(plan, n, done, files1, backup1, was, files, conflicts, conflicts');
      }
    }

    lemma SettleOne(n: nat, done: nat, put: seq<Write>, conflicts: seq<Path>, more: seq<Write>, conflicts': seq<Path>)
      requires done <= |planned| && n < |planned|
      requires Settled(n + 1, done, put, conflicts) && conflicts <= conflicts'
      requires more == [] || (n < done && |more| == 1 && Undoes(more[0], planned[n]))
      requires n < done && more == [] ==> planned[n].path in conflicts'
      ensures Settled(n, done, put + more, conflicts')
    {
      assert forall w | w in put + more :: w in put || w == more[0];
      assert more != [] ==> more[0] in put + more;
      assert forall w | w in put :: w in put + more;
    }

    /** Compensation has come down to entry `n`. */
    ghost predicate Undoing(n: nat, full: bool, calm: bool, files0: Files, dirs0: set<Path>, done: nat,
                            ws0: seq<Write>, put: seq<Write>, conflicts: seq<Path>)
      reads this`entries, this`directories, this`backup, tree
    {
      && Fits() && n <= |entries| && done <= |entries|
      && (forall k :: 0 <= k < n ==> (entries[k].applied <==> k < done))
      && tree.writes == ws0 + put && Settled(n, done, put, conflicts)
      && (full && n < done ==> conflicts != [])
      && (calm ==> conflicts == [] && Stages(put, files0, planned) && Quiet(files0, dirs0, Fewer(n, done)))
    }

    /** One turn of the loop of `rollback`, added to what the earlier turns did. */
    method UndoTurn(n: nat, others: bool, mayFail: bool, full: bool, ghost calm: bool, ghost files0: Files, ghost dirs0: set<Path>,
                    ghost done: nat, ghost files1: Files, ghost backup1: Files, conflicts: seq<Path>,
                    ghost ws0: seq<Write>, ghost put: seq<Write>)
      returns (conflicts': seq<Path>, ghost put': seq<Write>)
      requires (full ==> mayFail) && (calm ==> !others && !mayFail)
      requires !others && !mayFail ==> Tried(n + 1, done, files1, backup1, conflicts)
      requires Undoing(n + 1, full, calm, files0, dirs0, done, ws0, put, conflicts)
      modifies this`overlay, this`backup, this`entries, tree`files, tree`dirs, tree`writes
      ensures Undoing(n, full, calm, files0, dirs0, done, ws0, put', conflicts')
      ensures !others && !mayFail ==> Tried(n, done, files1, backup1, conflicts')
    {
      ghost var was := tree.files;
      var undone, ok, more := UndoEntry(n, others, mayFail, full, calm, files0, dirs0, done);
      conflicts' := if ok then conflicts else conflicts + [planned[n].path];
      SettleOne(n, done, put, conflicts, more, conflicts');
      if calm { StagesGrow(put, more, files0, planned, n); }
      if !others && !mayFail { TriedTurn(planned, n, done, files1, backup1, was, tree.files, undone, conflicts, conflicts'); }
      Lists.ConcatIsAssociative(ws0, put, more);
      put' := put + more;
    }

    /** The loop of `rollback`, newest entry first. */
    method UndoEntries(others: bool, mayFail: bool, full: bool,
                       ghost calm: bool, ghost files0: Files, ghost dirs0: set<Path>, ghost done: nat)
      returns (conflicts: seq<Path>, ghost put: seq<Write>)
      requires full ==> mayFail
      requires Progress(done)
      requires calm ==> !others && !mayFail && Quiet(files0, dirs0, done)
      requires !others && !mayFail ==> WellFormed(tree.files, tree.dirs) && OnePathEach(planned)
      modifies this`overlay, this`backup, this`entries, tree`files, tree`dirs, tree`writes
      ensures full && done > 0 ==> conflicts != []
      ensures tree.writes == old(tree.writes) + put && Settled(0, done, put, conflicts)
      ensures !others && !mayFail ==> Tried(0, done, old(tree.files), old(backup), conflicts)
      ensures calm ==> conflicts == [] && Quiet(files0, dirs0, 0) && Stages(put, files0, planned)
    {
      conflicts, put := [], [];
      ghost var ws0, files1, backup1 := tree.writes, tree.files, backup;
      for n := |entries| downto 0
        invariant Undoing(n, full, calm, files0, dirs0, done, ws0, put, conflicts)
        invariant !others && !mayFail ==> Tried(n, done, files1, backup1, conflicts)
      {
        conflicts, put := UndoTurn(n, others, mayFail, full, calm, files0, dirs0, done, files1, backup1, conflicts, ws0, put);
      }
    }

    /** Compensation in reverse order.  It touches a path only while that path holds exactly what
        the transaction wrote, and every applied entry is undone or among the conflicts; the
        conflicts reach the caller exactly when the journal's last record could be written. */
    method Rollback(others: bool, mayFail: bool, full: bool,
                    ghost calm: bool, ghost files0: Files, ghost dirs0: set<Path>, ghost done: nat)
      returns (outcome: Outcome, recorded: bool, ghost conflicts: seq<Path>, ghost put: seq<Write>)
      requires full ==> mayFail
      requires Progress(done)
      requires calm ==> !others && !mayFail && Quiet(files0, dirs0, done)
      requires !others && !mayFail ==> WellFormed(tree.files, tree.dirs) && OnePathEach(planned)
      modifies this`overlay, this`backup, this`entries, tree`files, tree`dirs, tree`writes, tree`removed
      ensures tree.writes == old(tree.writes) + put && Settled(0, done, put, conflicts)
      ensures RemovedOnly(old(tree.removed), tree.removed, directories)
      ensures outcome == if conflicts == [] then RolledBack else if recorded then Blocked(conflicts) else JournalLost
      ensures full && done > 0 ==> outcome == JournalLost
      ensures !mayFail ==> recorded
      // Undisturbed, whatever was changed before: exactly the applied paths that no longer hold what was put
      // there, or have no sound backup, are named; all others are put back and nothing else changes.
      ensures !others && !mayFail ==> TriedWith(planned, 0, done, old(tree.files), old(backup), tree.files, conflicts)
      ensures calm ==> outcome == RolledBack && tree.files == files0 && tree.dirs == dirs0
      ensures calm ==> Stages(put, files0, planned)
    {
      var named;
      named, put := UndoEntries(others, mayFail, full, calm, files0, dirs0, done);
      conflicts := named;
      assert planned[..0] == [];
      RemoveDirectories(others, mayFail, calm, dirs0);
      outcome, recorded := RolledBack, true;
      if named != [] {
        recorded := Record(mayFail, full);
        outcome := if recorded then Blocked(named) else JournalLost;
      }
    }

    /** `apply` then `commit`: any failure on the way, including a failing check of the result or
        a failing commit record, compensates.  `put` lists the replacements, `undone` the
        compensations. */
    method Install(others: bool, mayFail: bool, undoMayFail: bool, full: bool)
      returns (outcome: Outcome, ghost conflicts: seq<Path>, ghost put: seq<Write>, ghost undone: seq<Write>)
      requires full ==> undoMayFail
      requires Fits() && Listed() && entries == [] && directories == []
      requires !others ==> WellFormed(tree.files, tree.dirs) && Describes(planned, tree.files)
      modifies this, tree
      // Whoever else writes: only what the plan saw is replaced, only what was put is undone, and of
      // the directories only those it made on the way to a planned file are removed.
      ensures tree.made == old(tree.made) + directories && forall d | d in directories :: OnTheWay(d, planned)
      ensures RemovedOnly(old(tree.removed), tree.removed, directories)
      ensures outcome == Installed ==> tree.removed == old(tree.removed)
      ensures tree.writes == old(tree.writes) + put + undone && WritesPlan(put, planned, |put|)
      ensures outcome == Installed ==> |put| == |planned| && undone == []
      ensures outcome != Installed ==> Settled(0, |put|, undone, conflicts)
      ensures outcome == RolledBack ==> conflicts == []
      ensures outcome.Blocked? ==> outcome.conflicts == conflicts
      ensures !undoMayFail ==> outcome != JournalLost
      // A disk that is full from the first failure on: the error that names the conflicts is lost.
      ensures full && outcome != Installed && put != [] ==> outcome == JournalLost
      // Alone on the file system: all or nothing.
      ensures !others && outcome == Installed ==>
        tree.files == After(old(tree.files), planned) && old(tree.dirs) <= tree.dirs
        && forall d | d in tree.dirs - old(tree.dirs) :: OnTheWay(d, planned)
      ensures !others && !undoMayFail && outcome != Installed ==>
        outcome == RolledBack && tree.files == old(tree.files) && tree.dirs == old(tree.dirs)
      ensures !others ==> Stages(put, old(tree.files), planned)
      ensures !others && !undoMayFail ==> Stages(undone, old(tree.files), planned)
      ensures (!others && !mayFail && Placeable(planned, old(tree.files), old(tree.dirs)) && Staged(old(overlay), planned))
              ==> outcome == Installed
    {
      ghost var files0, dirs0, done := tree.files, tree.dirs, 0;
      conflicts, undone := [], [];
      var ok;
      ok, done, put := ApplyPlanned(others, mayFail);
      if ok {
        Pause(others);
        ok := Record(mayFail);  // validating the installed resources
        if ok {
          ok := Record(mayFail);  // the commit record
        }
      }
      if ok {
        outcome := Installed;
        assert planned[..|planned|] == planned;
      } else {
        var recorded;
        outcome, recorded, conflicts, undone := Rollback(others, undoMayFail, full, !others && !undoMayFail, files0, dirs0, done);
      }
    }
  }

  /** The consequence for the published version, at every state the installation leaves behind. */
  lemma StagesKeepMarkersBehind(ws: seq<Write>, files: Files, plan: seq<Change>, state: Path)
    requires Stages(ws, files, plan) && Describes(plan, files) && MarkersLast(plan, state)
    ensures forall w | w in ws :: MarkersFollowPayload(plan, w.after, state)
  {
    forall w | w in ws ensures MarkersFollowPayload(plan, w.after, state) {
      assert Stage(w.after, files, plan);
      var n :| 0 <= n <= |plan| && w.after == After(files, plan[..n]);
      PrefixKeepsMarkersBehind(files, plan, n, state);
    }
  }
}
