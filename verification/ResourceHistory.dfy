/** One installation after another on the same target, with other writers in between: which files a
    protected installation asks about, and which it may overwrite. */
module ResourceHistory {
  import opened Wrappers
  import opened FileTree
  import opened ResourceInstall
  import opened ResourcePlan

  /** Somebody installs while these directories stand there, or another writer changes a file. */
  datatype Event = Installs(r: Request, dirs: set<Path>) | Edits(path: Path, now: Option<Content>)

  ghost predicate Concerns(target: Path, events: seq<Event>) {
    forall e | e in events && e.Installs? :: e.r.Valid() && e.r.target == target
  }

  /** The files once the plan for them has been carried out. */
  function Installed(r: Request, files: Files): Files
    requires r.Valid()
  {
    After(files, WithState(r, files, Planned(r, files, Sorted(r.listing))))
  }

  /** A refused installation changes nothing, and neither does one that was compensated. */
  ghost function Do(files: Files, e: Event): Files
    requires e.Installs? ==> e.r.Valid()
  {
    match e
    case Installs(r, dirs) => if Accepted(r, files, dirs) then Installed(r, files) else files
    case Edits(p, None) => files - {p}
    case Edits(p, Some(c)) => files[p := c]
  }

  /** A refused installation changes nothing, an accepted one leaves what is wanted, an edit what it puts there. */
  lemma EventAt(files: Files, e: Event, p: Path)
    requires e.Installs? ==> e.r.Valid()
    ensures Get(Do(files, e), p) == match e
                                    case Installs(r, dirs) => if Accepted(r, files, dirs) then Wanted(r, files, p) else Get(files, p)
                                    case Edits(q, now) => if p == q then now else Get(files, p)
  {
    if e.Installs? { InstalledIsWanted(e.r, files, p); }
  }

  ghost function Run(files: Files, target: Path, events: seq<Event>): Files
    requires Concerns(target, events)
  {
    if events == [] then files else Do(Run(files, target, events[..|events| - 1]), events[|events| - 1])
  }

  /** The installation puts its content at `rel`: it overwrites, or the file was missing. */
  predicate Puts(r: Request, files: Files, rel: Path) {
    rel in r.staged && !(r.fillOnly && r.target + rel in files)
  }

  /** What an installation put at `rel` last, if nobody else has written there since. */
  ghost function Put(files: Files, target: Path, events: seq<Event>, rel: Path): Option<Content>
    requires Concerns(target, events)
  {
    if events == [] then None
    else
      var before := events[..|events| - 1];
      match events[|events| - 1]
      case Installs(r, dirs) =>
        var now := Run(files, target, before);
        if Accepted(r, now, dirs) && Puts(r, now, rel) then Some(r.staged[rel]) else Put(files, target, before, rel)
      case Edits(p, _) => if p == target + rel then None else Put(files, target, before, rel)
  }

  /** The package of the last installation, if nobody else has written the state document since. */
  ghost function Last(files: Files, target: Path, events: seq<Event>): Option<Files>
    requires Concerns(target, events)
  {
    if events == [] then None
    else
      var before := events[..|events| - 1];
      match events[|events| - 1]
      case Installs(r, dirs) => if Accepted(r, Run(files, target, before), dirs) then Some(r.staged) else Last(files, target, before)
      case Edits(p, _) => if p == target + [STATE_FILE] then None else Last(files, target, before)
  }

  /** What an installation that got through leaves is determined by what is wanted. */
  lemma InstalledIsWanted(r: Request, files: Files, p: Path)
    requires r.Valid()
    ensures Get(Installed(r, files), p) == Wanted(r, files, p)
  {
    WithStateEffect(r, files, Sorted(r.listing), p);
  }

  lemma InstalledByIsInstalled(r: Request, files: Files, now: Files)
    requires r.Valid()
    ensures InstalledBy(r, files, now) <==> now == Installed(r, files)
  {
    var done := Installed(r, files);
    forall p ensures Get(done, p) == Wanted(r, files, p) { InstalledIsWanted(r, files, p); }
    if InstalledBy(r, files, now) {
      forall p ensures p in now <==> p in done { assert Get(now, p) == Get(done, p); }
      forall p | p in now ensures now[p] == done[p] { assert Get(now, p) == Get(done, p); }
    }
  }

  /** Over every run, a file that an installation put there and nobody edited holds that content. */
  lemma {:induction false} PutStays(files: Files, target: Path, events: seq<Event>, rel: Path)
    requires Concerns(target, events)
    ensures var put := Put(files, target, events, rel);
            put.Some? ==> Get(Run(files, target, events), target + rel) == put && rel != [STATE_FILE]
  {
    if events != [] {
      var before := events[..|events| - 1];
      PutStays(files, target, before, rel);
      match events[|events| - 1] {
        case Installs(r, dirs) =>
          var now := Run(files, target, before);
          InstalledIsWanted(r, now, target + rel);
          Destination(r, rel);
        case Edits(_, _) =>
      }
    }
  }

  /** The state document records the package of the last installation. */
  lemma {:induction false} LastIsRecorded(files: Files, target: Path, events: seq<Event>)
    requires Concerns(target, events)
    ensures var last := Last(files, target, events);
            last.Some? ==> Get(Run(files, target, events), target + [STATE_FILE]) == Some(InstallState(last.value))
  {
    if events != [] {
      var before := events[..|events| - 1];
      LastIsRecorded(files, target, before);
      match events[|events| - 1] {
        case Installs(r, dirs) => InstalledIsWanted(r, Run(files, target, before), r.State());
        case Edits(_, _) =>
      }
    }
  }

  // --- What is asked about ---

  /** Over every run of installations and edits: a protected installation asks about a file that was
      left alone since an installation put it there exactly when the last recorded package lacks it or
      records other content, its own content is different too, and git does not stand in for a record
      that is empty. */
  lemma AskedAboutUnedited(files: Files, events: seq<Event>, r: Request, rel: Path)
    requires r.Valid() && Concerns(r.target, events) && rel in r.staged
    requires Put(files, r.target, events, rel).Some? && Baseline(r, Run(files, r.target, events)).Ok?
    ensures var now, put := Run(files, r.target, events), Put(files, r.target, events, rel);
            var recorded := Baseline(r, now).value;
            && (Last(files, r.target, events).Some? ==> recorded == Last(files, r.target, events).value)
            && (Edited(r, now, recorded, rel) <==>
                  && Get(recorded, rel) != put && Some(r.staged[rel]) != put
                  && !(recorded == map[] && Get(r.git, rel) == put))
  {
    PutStays(files, r.target, events, rel);
    LastIsRecorded(files, r.target, events);
  }

  /** Nobody writes these two files. */
  ghost predicate LeftAlone(events: seq<Event>, p: Path, q: Path) {
    forall e | e in events :: e.Edits? && e.path != p && e.path != q
  }

  lemma {:induction false} EditsElsewhere(files: Files, target: Path, events: seq<Event>, later: seq<Event>, rel: Path)
    requires Concerns(target, events) && LeftAlone(later, target + rel, target + [STATE_FILE])
    ensures Concerns(target, events + later)
    ensures Put(files, target, events + later, rel) == Put(files, target, events, rel)
    ensures Last(files, target, events + later) == Last(files, target, events)
  {
    if later == [] {
      assert events + later == events;
    } else {
      var n := |later| - 1;
      EditsElsewhere(files, target, events, later[..n], rel);
      assert (events + later)[..|events| + n] == events + later[..n];
    }
  }

  /** In particular never about a file that the last installation itself put there. */
  lemma OwnFilesNeedNoConfirmation(files: Files, events: seq<Event>, first: Request, dirs: set<Path>, later: seq<Event>,
                                   r: Request, rel: Path)
    requires r.Valid() && first.Valid() && first.target == r.target && Concerns(r.target, events)
    requires Accepted(first, Run(files, r.target, events), dirs) && Puts(first, Run(files, r.target, events), rel)
    requires LeftAlone(later, r.target + rel, r.State()) && rel in r.staged
    ensures Concerns(r.target, events + [Installs(first, dirs)] + later)
    ensures var now := Run(files, r.target, events + [Installs(first, dirs)] + later);
            Baseline(r, now) == Ok(first.staged) && !Edited(r, now, first.staged, rel)
  {
    var installed := events + [Installs(first, dirs)];
    assert installed[..|events|] == events;
    EditsElsewhere(files, r.target, installed, later, rel);
    LastIsRecorded(files, r.target, installed + later);
    AskedAboutUnedited(files, installed + later, r, rel);
  }

  // A package that holds one file.

  const X: Path := ["x"]

  function OneFile(content: Content, fillOnly: bool): Request {
    Request(map[X := content], [X], [], map[], fillOnly, true)
  }

  lemma OneFileIsValid(content: Content, fillOnly: bool)
    ensures OneFile(content, fillOnly).Valid() && OneFile(content, fillOnly).State() == [STATE_FILE] && [] + X == X
  {
  }

  /** Nothing stands in its way, and filling gaps needs no confirmation. */
  lemma OneFileIsAccepted(content: Content, fillOnly: bool, files: Files)
    requires fillOnly || (X !in files && [STATE_FILE] !in files)
    ensures Accepted(OneFile(content, fillOnly), files, {[]})
  {
    OneFileIsValid(content, fillOnly);
  }

  lemma OneFileLeaves(content: Content, fillOnly: bool, files: Files)
    ensures OneFile(content, fillOnly).Valid()
    ensures var now := Installed(OneFile(content, fillOnly), files);
            && Get(now, X) == (if fillOnly && X in files then Get(files, X) else Some(content))
            && Get(now, [STATE_FILE]) == Some(InstallState(map[X := content]))
  {
    OneFileIsValid(content, fillOnly);
    InstalledIsWanted(OneFile(content, fillOnly), files, X);
    InstalledIsWanted(OneFile(content, fillOnly), files, [STATE_FILE]);
    WantedAt(OneFile(content, fillOnly), files, X);
  }

  /** Installing it, from no files at first. */
  lemma OneFileInstalls(events: seq<Event>, content: Content, fillOnly: bool)
    requires Concerns([], events)
    requires fillOnly || (X !in Run(map[], [], events) && [STATE_FILE] !in Run(map[], [], events))
    ensures var more := events + [Installs(OneFile(content, fillOnly), {[]})];
            && Concerns([], more)
            && var was, now := Run(map[], [], events), Run(map[], [], more);
               && Get(now, X) == (if fillOnly && X in was then Get(was, X) else Some(content))
               && Get(now, [STATE_FILE]) == Some(InstallState(map[X := content]))
               && Put(map[], [], more, X) == if fillOnly && X in was then Put(map[], [], events, X) else Some(content)
  {
    var was := Run(map[], [], events);
    OneFileIsValid(content, fillOnly);
    OneFileIsAccepted(content, fillOnly, was);
    OneFileLeaves(content, fillOnly, was);
    assert (events + [Installs(OneFile(content, fillOnly), {[]})])[..|events|] == events;
  }

  /** A run in which a file that nobody ever edited is asked about: a fill-only installation records the
      content of its own package for a file it leaves as it is. */
  lemma FillOnlyMakesItAsk(a: Content, b: Content, c: Content) returns (events: seq<Event>)
    requires a != b && a != c
    ensures Concerns([], events) && OneFile(c, false).Valid()
    ensures Put(map[], [], events, X) == Some(a)
    ensures var now := Run(map[], [], events);
            Baseline(OneFile(c, false), now) == Ok(map[X := b]) && Edited(OneFile(c, false), now, map[X := b], X)
  {
    OneFileInstalls([], a, false);
    events := [] + [Installs(OneFile(a, false), {[]})];
    OneFileInstalls(events, b, true);
    events := events + [Installs(OneFile(b, true), {[]})];
    OneFileIsValid(c, false);
  }

  // --- What may be overwritten ---

  /** The content at `rel` is what the record, or git for lack of one, has there. */
  predicate Vouched(r: Request, files: Files, rel: Path) {
    var recorded := Baseline(r, files);
    var now := Get(files, r.target + rel);
    recorded.Ok? && (Get(recorded.value, rel) == now || (recorded.value == map[] && Get(r.git, rel) == now))
  }

  lemma ChangedIsVouched(r: Request, files: Files, dirs: set<Path>, rel: Path)
    requires r.protect && !r.fillOnly && Accepted(r, files, dirs) && rel in r.staged && r.target + rel in files
    ensures Some(r.staged[rel]) != Get(files, r.target + rel) ==> Vouched(r, files, rel)
  {
    AcceptedMeansUnedited(r, files, dirs, rel);
  }

  /** Of the files that are there, an accepted protected installation changes exactly those that are
      vouched for and that its package has with other content. */
  lemma WhatIsOverwritten(r: Request, files: Files, dirs: set<Path>, p: Path)
    requires r.Valid() && r.protect && !r.fillOnly && Accepted(r, files, dirs)
    requires p in files && p != r.State()
    ensures Wanted(r, files, p) != Get(files, p) <==>
              && r.target <= p && p[|r.target|..] in r.staged
              && Some(r.staged[p[|r.target|..]]) != Get(files, p) && Vouched(r, files, p[|r.target|..])
  {
    if r.target <= p && p[|r.target|..] in r.staged {
      var rel := p[|r.target|..];
      assert p == r.target + rel;
      WantedAt(r, files, rel);
      ChangedIsVouched(r, files, dirs, rel);
    }
  }

  /** Over every run: an accepted protected installation keeps every file whose content differs from what
      the package of the last installation has for it. */
  lemma EditsSurvive(files: Files, events: seq<Event>, r: Request, dirs: set<Path>, p: Path)
    requires r.Valid() && Concerns(r.target, events)
    requires var now := Run(files, r.target, events);
             && r.protect && Accepted(r, now, dirs) && p in now && p != r.State()
             && var last := Last(files, r.target, events);
                && last.Some? && last.value != map[]
                && (r.target <= p ==> Get(last.value, p[|r.target|..]) != Get(now, p))
    ensures Wanted(r, Run(files, r.target, events), p) == Get(Run(files, r.target, events), p)
  {
    LastIsRecorded(files, r.target, events);
    if !r.fillOnly {
      WhatIsOverwritten(r, Run(files, r.target, events), dirs, p);
      if r.target <= p { assert p == r.target + p[|r.target|..]; }
    }
  }

  /** A package may hold a file at `rel`, and nothing stands in the way of installing it. */
  predicate Shippable(target: Path, files: Files, dirs: set<Path>, rel: Path) {
    && rel != [] && rel != [STATE_FILE] && !Above([STATE_FILE], rel)
    && target + rel !in dirs && target + [STATE_FILE] !in dirs
    && forall a | a in files :: |a| > |target| ==> !Above(a, target + rel)
  }

  /** No protected installation that is accepted changes the file at `rel`. */
  ghost predicate Safe(target: Path, files: Files, dirs: set<Path>, rel: Path) {
    forall r: Request | r.Valid() && r.target == target && r.protect && Accepted(r, files, dirs) ::
      Wanted(r, files, target + rel) == Get(files, target + rel)
  }

  /** The state document cannot be read, or records something and not the content of the file. */
  predicate Unrecorded(target: Path, files: Files, rel: Path) {
    && target + [STATE_FILE] in files
    && match files[target + [STATE_FILE]]
       case Data(_) => true
       case InstallState(recorded) => recorded != map[] && Get(recorded, rel) != Get(files, target + rel)
  }

  /** A package with other content for a file that is vouched for. */
  lemma VouchedIsOverwritten(r: Request, files: Files, dirs: set<Path>, rel: Path)
    requires r.staged.Keys == {rel} && r.listing == [rel] && r.protect && !r.fillOnly && Shippable(r.target, files, dirs, rel)
    requires r.target + rel in files && r.staged[rel] != files[r.target + rel] && Vouched(r, files, rel)
    ensures r.Valid() && Accepted(r, files, dirs) && Wanted(r, files, r.target + rel) != Get(files, r.target + rel)
  {
    WantedAt(r, files, rel);
  }

  /** A file that is there is safe exactly when no package with it can be installed, or the state document
      does not record its content. */
  lemma SafeIffNotRecorded(target: Path, files: Files, dirs: set<Path>, rel: Path)
    requires target + rel in files && rel != [STATE_FILE]
    ensures Safe(target, files, dirs, rel) <==> !Shippable(target, files, dirs, rel) || Unrecorded(target, files, rel)
  {
    var p := target + rel;
    var other := if files[p] == Data("") then Data("x") else Data("");
    var r := Request(map[rel := other], [rel], target, map[rel := files[p]], false, true);
    if Shippable(target, files, dirs, rel) && Vouched(r, files, rel) {
      VouchedIsOverwritten(r, files, dirs, rel);
      assert !Safe(target, files, dirs, rel);
    } else {
      forall q: Request | q.Valid() && q.target == target && q.protect && Accepted(q, files, dirs)
        ensures Wanted(q, files, p) == Get(files, p)
      {
        AcceptedKeeps(q, files, dirs, rel);
      }
    }
  }

  lemma AcceptedIsShippable(q: Request, files: Files, dirs: set<Path>, rel: Path)
    requires q.Valid() && Accepted(q, files, dirs) && rel in q.staged
    ensures Shippable(q.target, files, dirs, rel)
  {
    assert !FileInTheWay(q, files, rel);
  }

  lemma AcceptedKeeps(q: Request, files: Files, dirs: set<Path>, rel: Path)
    requires q.Valid() && q.protect && Accepted(q, files, dirs) && q.target + rel in files && rel != [STATE_FILE]
    requires !Shippable(q.target, files, dirs, rel) || Unrecorded(q.target, files, rel)
    ensures Wanted(q, files, q.target + rel) == Get(files, q.target + rel)
  {
    Destination(q, rel);
    if rel in q.staged {
      WantedAt(q, files, rel);
      AcceptedIsShippable(q, files, dirs, rel);
      if !q.fillOnly { ChangedIsVouched(q, files, dirs, rel); }
    }
  }

  /** A run in which an accepted protected installation overwrites an edit: the edit happens to be the
      content of a package that was then installed fill-only, and so is recorded as its own. */
  lemma FillOnlyExposesEdit(a: Content, b: Content, c: Content) returns (events: seq<Event>)
    requires a != b && b != c
    ensures Concerns([], events) && OneFile(c, false).Valid() && Edits(X, Some(b)) in events
    ensures var now := Run(map[], [], events);
            && Put(map[], [], events, X) == None && Get(now, X) == Some(b)
            && Accepted(OneFile(c, false), now, {[]}) && Wanted(OneFile(c, false), now, X) == Some(c)
  {
    OneFileInstalls([], a, false);
    events := [] + [Installs(OneFile(a, false), {[]})];
    FileIsEdited(events, b);
    events := events + [Edits(X, Some(b))];
    OneFileInstalls(events, b, true);
    events := events + [Installs(OneFile(b, true), {[]})];
    RecordedIsAccepted(b, c, Run(map[], [], events));
  }

  lemma FileIsEdited(events: seq<Event>, b: Content)
    requires Concerns([], events)
    ensures var more := events + [Edits(X, Some(b))];
            Concerns([], more) && Get(Run(map[], [], more), X) == Some(b) && Put(map[], [], more, X) == None
  {
    assert (events + [Edits(X, Some(b))])[..|events|] == events;
  }

  lemma RecordedIsAccepted(b: Content, c: Content, files: Files)
    requires Get(files, X) == Some(b) && Get(files, [STATE_FILE]) == Some(InstallState(map[X := b]))
    ensures OneFile(c, false).Valid() && Accepted(OneFile(c, false), files, {[]})
    ensures Wanted(OneFile(c, false), files, X) == Some(c)
  {
    OneFileIsValid(c, false);
    WantedAt(OneFile(c, false), files, X);
  }
}
