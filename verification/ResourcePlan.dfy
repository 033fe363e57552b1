/** Planning a resource installation: which files change, in which order, and when an overwrite
    must be confirmed first. */
module ResourcePlan {
  import opened Wrappers
  import opened FileTree
  import opened ResourceInstall
  import opened Lists
  import Text

  const STATE_FILE: string := ".zhenxun-resource-state.json"

  datatype PlanError =
    | PathConflict(relative: Path)
    | StateInvalid
    | ConfirmationRequired(relative: Path)
    | ResourcesInvalid
    | CopyFailed

  /** What `validate_resources` finds of the package and of the candidate made from it, and whether
      copying the candidate went through. */
  datatype Validation = Validation(package: bool, copied: bool, candidate: bool) {
    predicate Passed() { package && copied && candidate }
  }

  /** An installation to plan: the staged package by relative path in the order it is listed, the
      target directory, what the target's git HEAD records, and the two switches. */
  datatype Request = Request(staged: Files, listing: seq<Path>, target: Path, git: Files, fillOnly: bool, protect: bool) {
    /** The listing names every staged file once; a staged file is not a directory of another. */
    ghost predicate Valid() {
      && Distinct(listing) && (forall p :: p in listing <==> p in staged)
      && (forall p | p in staged :: p != [] && p != [STATE_FILE])
      && (forall p, q | p in staged && q in staged :: !Above(p, q) && !Above([STATE_FILE], q))
    }

    function State(): Path { target + [STATE_FILE] }
  }

  // --- The order of replacement ---

  function Joined(p: Path): string {
    if p == [] then "" else if |p| == 1 then p[0] else p[0] + "/" + Joined(p[1..])
  }

  predicate IsVersion(p: Path) {
    p != [] && Name(p) == VERSION
  }

  /** The sort key: version files last, then by name. */
  predicate SortsBefore(p: Path, q: Path) {
    (!IsVersion(p) && IsVersion(q)) || (IsVersion(p) == IsVersion(q) && Text.Before(Joined(p), Joined(q)))
  }

  ghost predicate InOrder(s: seq<Path>) {
    forall i, j :: 0 <= i < j < |s| ==> !SortsBefore(s[j], s[i])
  }

  function Place(p: Path, s: seq<Path>): (r: seq<Path>)
    ensures forall x :: x in r <==> x == p || x in s
    ensures Distinct(s) && p !in s ==> Distinct(r)
  {
    if s == [] || SortsBefore(p, s[0]) then [p] + s
    else
      var rest := Place(p, s[1..]);
      assert forall j :: 0 <= j < |rest| ==> rest[j] == p || rest[j] in s[1..];
      [s[0]] + rest
  }

  lemma {:induction false} PlaceInOrder(p: Path, s: seq<Path>)
    requires InOrder(s)
    ensures InOrder(Place(p, s))
  {
    if s != [] {
      if SortsBefore(p, s[0]) {
        forall x | x in s ensures !SortsBefore(x, p) {
          if SortsBefore(x, p) {
            if Text.Before(Joined(x), Joined(p)) && Text.Before(Joined(p), Joined(s[0])) {
              Text.BeforeIsTransitive(Joined(x), Joined(p), Joined(s[0]));
            }
            assert SortsBefore(x, s[0]);
            if x == s[0] { Text.BeforeIsTotal(Joined(x), Joined(x)); }
          }
        }
      } else {
        PlaceInOrder(p, s[1..]);
        var rest := Place(p, s[1..]);
        assert forall j :: 0 <= j < |rest| ==> rest[j] == p || rest[j] in s[1..];
      }
    }
  }

  /** `sorted(paths, key=...)`: stable, by insertion. */
  function Sorted(s: seq<Path>): (r: seq<Path>)
    ensures forall x :: x in r <==> x in s
    ensures Distinct(s) ==> Distinct(r)
    ensures InOrder(r)
  {
    if s == [] then []
    else
      var shorter := Sorted(s[..|s| - 1]);
      PlaceInOrder(s[|s| - 1], shorter);
      Place(s[|s| - 1], shorter)
  }

  // --- What to write ---

  /** What the plan must leave at `p`: the state document, a staged file (unless only gaps are
      filled and the file exists), or what is there. */
  function Wanted(r: Request, files: Files, p: Path): Option<Content> {
    if p == r.State() then Some(InstallState(r.staged))
    else if r.target <= p && p[|r.target|..] in r.staged && !(r.fillOnly && p in files)
    then Some(r.staged[p[|r.target|..]])
    else Get(files, p)
  }

  /** The digests recorded by the last installation. */
  function Baseline(r: Request, files: Files): Result<Files, PlanError> {
    if r.State() !in files then Ok(map[])
    else match files[r.State()]
      case InstallState(recorded) => Ok(recorded)
      case Data(_) => Err(StateInvalid)
  }

  /** An existing file that differs from the package, from the baseline and from git. */
  predicate Edited(r: Request, files: Files, baseline: Files, rel: Path)
    requires rel in r.staged
  {
    var before := Get(files, r.target + rel);
    && before.Some? && before != Some(r.staged[rel])
    && Get(baseline, rel) != before
    && !(baseline == map[] && Get(r.git, rel) == before)
  }

  /** Inside the target, a file where the staged path needs a directory. */
  predicate FileInTheWay(r: Request, files: Files, rel: Path) {
    exists a | a in files :: |a| > |r.target| && Above(a, r.target + rel)
  }

  ghost predicate Accepted(r: Request, files: Files, dirs: set<Path>) {
    && r.State() !in dirs
    && (forall rel | rel in r.staged :: r.target + rel !in dirs && !FileInTheWay(r, files, rel))
    && (r.protect && !r.fillOnly ==>
      Baseline(r, files).Ok? && forall rel | rel in r.staged :: !Edited(r, files, Baseline(r, files).value, rel))
  }

  ghost function Directories(r: Request, dirs: set<Path>): set<Path> {
    set rel | rel in r.staged && r.target + rel in dirs
  }

  /** The files an unconfirmed installation must ask about. */
  ghost function EditedFiles(r: Request, files: Files): set<Path> {
    if r.protect && !r.fillOnly && Baseline(r, files).Ok?
    then set rel | rel in r.staged && Edited(r, files, Baseline(r, files).value, rel)
    else {}
  }

  ghost predicate Unreadable(r: Request, files: Files) {
    r.protect && !r.fillOnly && Baseline(r, files).Err?
  }

  /** The first of the listed files that is among the bad ones. */
  ghost predicate IsFirst(listing: seq<Path>, bad: set<Path>, rel: Path) {
    exists i :: 0 <= i < |listing| && listing[i] == rel && rel in bad && forall j :: 0 <= j < i ==> listing[j] !in bad
  }

  ghost function WithoutPlace(r: Request, files: Files): set<Path> {
    set rel | rel in r.staged && FileInTheWay(r, files, rel)
  }

  /** Which refusal comes first, and which file it names. */
  ghost predicate Refuses(r: Request, files: Files, dirs: set<Path>, v: Validation, error: PlanError) {
    if !v.package then error == ResourcesInvalid
    else if Directories(r, dirs) != {} then error.PathConflict? && IsFirst(r.listing, Directories(r, dirs), error.relative)
    else if Unreadable(r, files) then error == StateInvalid
    else if EditedFiles(r, files) != {} then
      error.ConfirmationRequired? && IsFirst(r.listing, EditedFiles(r, files), error.relative)
    else if WithoutPlace(r, files) != {} || !v.copied then error == CopyFailed
    else if !v.candidate then error == ResourcesInvalid
    else r.State() in dirs && error == PathConflict([STATE_FILE])
  }

  lemma AcceptedIff(r: Request, files: Files, dirs: set<Path>)
    ensures Accepted(r, files, dirs) <==>
              && Directories(r, dirs) == {} && !Unreadable(r, files) && EditedFiles(r, files) == {}
              && WithoutPlace(r, files) == {} && r.State() !in dirs
  {
    assert Directories(r, dirs) == {} <==> forall rel | rel in r.staged :: rel !in Directories(r, dirs);
    assert EditedFiles(r, files) == {} <==> forall rel | rel in r.staged :: rel !in EditedFiles(r, files);
    assert WithoutPlace(r, files) == {} <==> forall rel | rel in r.staged :: rel !in WithoutPlace(r, files);
  }

  /** A listed file where the target has a directory. */
  method CheckDirectories(r: Request, dirs: set<Path>) returns (error: Option<PlanError>)
    requires r.Valid()
    ensures error.None? <==> Directories(r, dirs) == {}
    ensures error.Some? ==> error.value.PathConflict? && IsFirst(r.listing, Directories(r, dirs), error.value.relative)
  {
    for i := 0 to |r.listing|
      invariant forall j :: 0 <= j < i ==> r.listing[j] !in Directories(r, dirs)
    {
      assert r.listing[i] in r.listing;
      assert r.target + r.listing[i] in dirs <==> r.listing[i] in Directories(r, dirs);
      if r.target + r.listing[i] in dirs { return Some(PathConflict(r.listing[i])); }
    }
    error := None;
  }

  /** An edited file must be confirmed, unless the record of the last installation is unreadable. */
  method CheckEdits(r: Request, files: Files) returns (error: Option<PlanError>)
    requires r.Valid() && r.protect && !r.fillOnly
    ensures error.None? <==> !Unreadable(r, files) && EditedFiles(r, files) == {}
    ensures error.Some? ==> if Unreadable(r, files) then error.value == StateInvalid
                            else error.value.ConfirmationRequired? && IsFirst(r.listing, EditedFiles(r, files), error.value.relative)
  {
    var baseline := Baseline(r, files);
    if baseline.Err? { return Some(baseline.error); }
    for i := 0 to |r.listing|
      invariant forall j :: 0 <= j < i ==> r.listing[j] !in EditedFiles(r, files)
    {
      assert r.listing[i] in r.listing;
      assert Edited(r, files, baseline.value, r.listing[i]) <==> r.listing[i] in EditedFiles(r, files);
      if Edited(r, files, baseline.value, r.listing[i]) { return Some(ConfirmationRequired(r.listing[i])); }
    }
    error := None;
  }

  lemma NoneIsListed(r: Request, bad: set<Path>)
    requires r.Valid() && bad <= r.staged.Keys && forall j :: 0 <= j < |r.listing| ==> r.listing[j] !in bad
    ensures bad == {}
  {
    forall rel ensures rel !in bad {
      if rel in r.staged { assert rel in r.listing; }
    }
  }

  /** Copying the candidate stops at a file where a directory is needed. */
  method CheckCopy(r: Request, files: Files, v: Validation) returns (error: Option<PlanError>)
    requires r.Valid()
    ensures error == if WithoutPlace(r, files) != {} || !v.copied then Some(CopyFailed) else None
  {
    ghost var bad := WithoutPlace(r, files);
    for i := 0 to |r.listing|
      invariant forall j :: 0 <= j < i ==> r.listing[j] !in bad
    {
      assert r.listing[i] in r.listing;
      var blocked := FileInTheWay(r, files, r.listing[i]);
      assert blocked <==> r.listing[i] in bad;
      if blocked { return Some(CopyFailed); }
    }
    error := if v.copied then None else Some(CopyFailed);
    NoneIsListed(r, bad);
  }

  /** The refusals, in the order the planner comes to them. */
  method Check(r: Request, files: Files, dirs: set<Path>, v: Validation) returns (error: Option<PlanError>)
    requires r.Valid()
    ensures error.None? <==> Accepted(r, files, dirs) && v.Passed()
    ensures error.Some? ==> Refuses(r, files, dirs, v, error.value)
  {
    AcceptedIff(r, files, dirs);
    if !v.package { return Some(ResourcesInvalid); }
    error := CheckDirectories(r, dirs);
    if error.Some? { return; }
    if r.protect && !r.fillOnly {
      error := CheckEdits(r, files);
      if error.Some? { return; }
    }
    error := CheckCopy(r, files, v);
    if error.Some? { return; }
    if !v.candidate { return Some(ResourcesInvalid); }
    if r.State() in dirs { return Some(PathConflict([STATE_FILE])); }
  }

  // --- The plan ---

  /** The changes for the staged files `order`: only what differs from what is there. */
  function Planned(r: Request, files: Files, order: seq<Path>): seq<Change>
    requires forall rel | rel in order :: rel in r.staged
  {
    if order == [] then []
    else
      var rel := order[|order| - 1];
      var rest := Planned(r, files, order[..|order| - 1]);
      var p := r.target + rel;
      var before := Get(files, p);
      if (r.fillOnly && before.Some?) || before == Some(r.staged[rel]) then rest
      else rest + [Change(p, before, r.staged[rel])]
  }

  /** `p` is the destination of one of the staged files `order`. */
  predicate Covered(r: Request, order: seq<Path>, p: Path) {
    r.target <= p && p[|r.target|..] in order
  }

  lemma Destination(r: Request, rel: Path)
    ensures var p := r.target + rel; r.target <= p && p[|r.target|..] == rel
    ensures rel != [] ==> r.target + rel != [] && Name(r.target + rel) == Name(rel)
    ensures r.target + rel == r.State() <==> rel == [STATE_FILE]
  {
    assert r.State()[|r.target|..] == [STATE_FILE];
    assert (r.target + rel)[|r.target|..] == rel;
  }

  /** What the plan for `order` looks like. */
  ghost predicate Shaped(r: Request, files: Files, plan: seq<Change>, order: seq<Path>) {
    && Describes(plan, files)
    && MarkersLast(plan, r.State())
    && (forall i :: 0 <= i < |plan| ==> Covered(r, order, plan[i].path))
  }

  lemma Earlier(r: Request, order: seq<Path>, rel: Path, p: Path)
    requires r.Valid() && InOrder(order + [rel]) && rel !in order
    requires forall q | q in order :: q in r.staged
    requires Covered(r, order, p)
    ensures p != r.target + rel
    ensures IsMarker(p, r.State()) ==> IsVersion(rel)
  {
    var q := p[|r.target|..];
    Destination(r, rel);
    Destination(r, q);
    assert p == r.target + q;
    var k :| 0 <= k < |order| && order[k] == q;
    var all := order + [rel];
    assert all[k] == q && all[|order|] == rel;
    assert !SortsBefore(rel, q);
  }

  lemma ShapeGrows(r: Request, files: Files, rest: seq<Change>, order: seq<Path>, rel: Path)
    requires r.Valid() && InOrder(order + [rel]) && rel in r.staged && rel !in order
    requires forall q | q in order :: q in r.staged
    requires Shaped(r, files, rest, order)
    requires Get(files, r.target + rel) != Some(r.staged[rel])
    ensures Shaped(r, files, rest + [Change(r.target + rel, Get(files, r.target + rel), r.staged[rel])], order + [rel])
  {
    Destination(r, rel);
    forall i | 0 <= i < |rest|
      ensures rest[i].path != r.target + rel && (IsMarker(rest[i].path, r.State()) ==> IsVersion(rel))
    {
      Earlier(r, order, rel, rest[i].path);
    }
  }

  lemma {:induction false} PlannedShape(r: Request, files: Files, order: seq<Path>)
    requires r.Valid() && Distinct(order) && InOrder(order)
    requires forall rel | rel in order :: rel in r.staged
    ensures Shaped(r, files, Planned(r, files, order), order)
  {
    if order != [] {
      var n := |order| - 1;
      PlannedShape(r, files, order[..n]);
      assert order == order[..n] + [order[n]];
      if Get(files, r.target + order[n]) != Some(r.staged[order[n]]) {
        ShapeGrows(r, files, Planned(r, files, order[..n]), order[..n], order[n]);
      }
    }
  }

  lemma CoveredGrows(r: Request, order: seq<Path>, p: Path)
    requires order != []
    ensures var n := |order| - 1; Covered(r, order, p) <==> Covered(r, order[..n], p) || p == r.target + order[n]
  {
    var rel := order[|order| - 1];
    Destination(r, rel);
    if r.target <= p {
      Lists.InitOrLast(order, p[|r.target|..]);
      assert p == r.target + p[|r.target|..];
    }
  }

  lemma WantedAt(r: Request, files: Files, rel: Path)
    requires r.Valid() && rel in r.staged
    ensures var p := r.target + rel; Wanted(r, files, p) == if r.fillOnly && p in files then Get(files, p) else Some(r.staged[rel])
  {
    Destination(r, rel);
  }

  lemma PlannedTurn(r: Request, files: Files, order: seq<Path>, q: Path)
    requires order != [] && forall rel | rel in order :: rel in r.staged
    ensures var rel := order[|order| - 1]; var p := r.target + rel; var before := Get(files, p);
            Get(After(files, Planned(r, files, order)), q) ==
            if q == p && !(r.fillOnly && before.Some?) && before != Some(r.staged[rel]) then Some(r.staged[rel])
            else Get(After(files, Planned(r, files, order[..|order| - 1])), q)
  {
    var plan := Planned(r, files, order);
    var rest := Planned(r, files, order[..|order| - 1]);
    assert plan == rest || plan[..|rest|] == rest;
  }

  lemma {:induction false} PlannedEffect(r: Request, files: Files, order: seq<Path>, q: Path)
    requires r.Valid()
    requires forall rel | rel in order :: rel in r.staged
    ensures Get(After(files, Planned(r, files, order)), q) == if Covered(r, order, q) then Wanted(r, files, q) else Get(files, q)
  {
    if order != [] {
      PlannedEffect(r, files, order[..|order| - 1], q);
      PlannedTurn(r, files, order, q);
      CoveredGrows(r, order, q);
      WantedAt(r, files, order[|order| - 1]);
    }
  }

  /** The plan with the state document, which comes last. */
  function WithState(r: Request, files: Files, plan: seq<Change>): seq<Change> {
    if Get(files, r.State()) == Some(InstallState(r.staged)) then plan
    else plan + [Change(r.State(), Get(files, r.State()), InstallState(r.staged))]
  }

  /** A plan that does what is wanted, version files after payload, the state document last. */
  ghost predicate Complete(r: Request, files: Files, plan: seq<Change>) {
    && Describes(plan, files)
    && MarkersLast(plan, r.State())
    && (forall p :: Get(After(files, plan), p) == Wanted(r, files, p))
  }

  lemma WithStateShape(r: Request, files: Files, body: seq<Change>, order: seq<Path>)
    requires r.Valid() && Shaped(r, files, body, order) && forall rel | rel in order :: rel in r.staged
    ensures Describes(WithState(r, files, body), files) && MarkersLast(WithState(r, files, body), r.State())
  {
    Destination(r, [STATE_FILE]);
    forall i | 0 <= i < |body| ensures body[i].path != r.State() {
      assert Covered(r, order, body[i].path);
    }
  }

  lemma WithStateEffect(r: Request, files: Files, order: seq<Path>, p: Path)
    requires r.Valid() && forall rel :: rel in order <==> rel in r.staged
    ensures Get(After(files, WithState(r, files, Planned(r, files, order))), p) == Wanted(r, files, p)
  {
    var body := Planned(r, files, order);
    var plan := WithState(r, files, body);
    assert plan == body || plan[..|body|] == body;
    Destination(r, [STATE_FILE]);
    PlannedEffect(r, files, order, p);
  }

  lemma WithStateIsComplete(r: Request, files: Files, order: seq<Path>)
    requires r.Valid() && Distinct(order) && InOrder(order) && (forall rel :: rel in order <==> rel in r.staged)
    ensures Complete(r, files, WithState(r, files, Planned(r, files, order)))
  {
    PlannedShape(r, files, order);
    WithStateShape(r, files, Planned(r, files, order), order);
    forall p { WithStateEffect(r, files, order, p); }
  }

  /** The destination of a staged file or of the state document. */
  ghost predicate Destined(r: Request, p: Path) {
    r.target <= p && (p[|r.target|..] in r.staged || p[|r.target|..] == [STATE_FILE])
  }

  lemma DestinationsAreApart(r: Request, files: Files, dirs: set<Path>, p: Path)
    requires r.Valid() && Accepted(r, files, dirs) && Transaction.Clear(files, r.target)
    requires Destined(r, p)
    ensures p !in dirs
    ensures forall a | a in files :: !Above(a, p)
    ensures forall q | Destined(r, q) :: !Above(p, q)
  {
    var rel := p[|r.target|..];
    assert p == r.target + rel;
    forall a | a in files ensures !Above(a, p) { NothingAbove(r, files, dirs, rel, a); }
    forall q | Destined(r, q) ensures !Above(p, q) {
      assert Above(p, q) ==> Above(rel, q[|r.target|..]);
    }
  }

  lemma AboveTarget(a: Path, target: Path, rel: Path)
    requires Above(a, target + rel) && |a| <= |target|
    ensures a == target || Above(a, target)
  {
    assert a == target[..|a|];
  }

  lemma NothingAbove(r: Request, files: Files, dirs: set<Path>, rel: Path, a: Path)
    requires r.Valid() && Accepted(r, files, dirs) && Transaction.Clear(files, r.target)
    requires a in files && (rel in r.staged || rel == [STATE_FILE])
    ensures !Above(a, r.target + rel)
  {
    if |a| <= |r.target| {
      if Above(a, r.target + rel) { AboveTarget(a, r.target, rel); }
    } else if rel in r.staged {
      assert !FileInTheWay(r, files, rel);
    }
  }

  lemma WithStateIsPlaceable(r: Request, files: Files, dirs: set<Path>, order: seq<Path>)
    requires r.Valid() && Accepted(r, files, dirs)
    requires Distinct(order) && InOrder(order) && (forall rel | rel in order :: rel in r.staged)
    requires Transaction.Clear(files, r.target)
    ensures Transaction.Placeable(WithState(r, files, Planned(r, files, order)), files, dirs)
  {
    var plan := WithState(r, files, Planned(r, files, order));
    PlannedShape(r, files, order);
    Destination(r, [STATE_FILE]);
    assert forall i :: 0 <= i < |plan| ==> Destined(r, plan[i].path);
    forall i | 0 <= i < |plan|
      ensures plan[i].path !in dirs && forall a | a in files :: !Above(a, plan[i].path)
      ensures forall j :: 0 <= j < |plan| ==> !Above(plan[i].path, plan[j].path)
    {
      DestinationsAreApart(r, files, dirs, plan[i].path);
    }
  }

  /** The loop over the staged files in their order. */
  method PlanFiles(r: Request, files: Files, order: seq<Path>) returns (plan: seq<Change>)
    requires forall rel | rel in order :: rel in r.staged
    ensures plan == Planned(r, files, order)
  {
    plan := [];
    for i := 0 to |order|
      invariant plan == Planned(r, files, order[..i])
    {
      var rel := order[i];
      assert rel in order && order[..i + 1][..i] == order[..i];
      var before := Get(files, r.target + rel);
      if !(r.fillOnly && before.Some?) && before != Some(r.staged[rel]) {
        plan := plan + [Change(r.target + rel, before, r.staged[rel])];
      }
    }
    assert order[..|order|] == order;
  }

  /** Planning: refused exactly when not accepted or not valid, and for the first reason; otherwise the
      plan is complete, and carrying it out meets no obstacle. */
  method MakePlan(r: Request, files: Files, dirs: set<Path>, v: Validation) returns (res: Result<seq<Change>, PlanError>)
    requires r.Valid()
    ensures res.Ok? <==> Accepted(r, files, dirs) && v.Passed()
    ensures res.Err? ==> Refuses(r, files, dirs, v, res.error)
    ensures res.Ok? ==> Complete(r, files, res.value)
    ensures res.Ok? && Transaction.Clear(files, r.target) ==> Transaction.Placeable(res.value, files, dirs)
  {
    var error := Check(r, files, dirs, v);
    if error.Some? { return Err(error.value); }
    var order := Sorted(r.listing);
    var plan := PlanFiles(r, files, order);
    WithStateIsComplete(r, files, order);
    if Transaction.Clear(files, r.target) { WithStateIsPlaceable(r, files, dirs, order); }
    if Get(files, r.State()) != Some(InstallState(r.staged)) {
      plan := plan + [Change(r.State(), Get(files, r.State()), InstallState(r.staged))];
    }
    res := Ok(plan);
  }

  // --- Planning and installing ---

  /** What an installation that got through leaves behind. */
  ghost predicate InstalledBy(r: Request, before: Files, now: Files) {
    forall p :: Get(now, p) == Wanted(r, before, p)
  }

  lemma WholePlanIsStaged(files: Files, plan: seq<Change>)
    requires Describes(plan, files)
    ensures Staged(After(files, plan), plan)
  {
    assert plan[..|plan|] == plan;
    forall c | c in plan ensures Get(After(files, plan), c.path) == Some(c.after) { AfterAt(files, plan, |plan|, c.path); }
  }

  ghost predicate MarkersBehind(ws: seq<Write>, plan: seq<Change>, state: Path) {
    forall w | w in ws :: MarkersFollowPayload(plan, w.after, state)
  }

  lemma MarkersBehindInBoth(ws0: seq<Write>, put: seq<Write>, undone: seq<Write>, plan: seq<Change>, state: Path)
    requires MarkersBehind(put, plan, state) && MarkersBehind(undone, plan, state)
    ensures MarkersBehind((ws0 + put + undone)[|ws0|..], plan, state)
  {
    assert (ws0 + put + undone)[|ws0|..] == put + undone;
  }

  /** Plan and install.  Alone on the file system the installation either leaves every path as
      wanted or changes nothing, and at each state on the way a version file shows its new content
      only when all payload does. */
  method InstallPackage(r: Request, tree: Tree, v: Validation, others: bool, mayFail: bool, undoMayFail: bool)
    returns (res: Result<Outcome, PlanError>, ghost plan: seq<Change>)
    requires r.Valid() && WellFormed(tree.files, tree.dirs)
    modifies tree
    ensures res.Ok? <==> Accepted(r, old(tree.files), old(tree.dirs)) && v.Passed()
    ensures res.Err? ==> tree.writes == old(tree.writes) && Refuses(r, old(tree.files), old(tree.dirs), v, res.error)
    ensures res.Ok? ==> Complete(r, old(tree.files), plan)
    ensures !others && res == Ok(Installed) ==> InstalledBy(r, old(tree.files), tree.files)
    ensures !others && !undoMayFail && res != Ok(Installed) ==> tree.files == old(tree.files) && tree.dirs == old(tree.dirs)
    ensures old(tree.writes) <= tree.writes
    ensures !others && !undoMayFail ==> MarkersBehind(tree.writes[|old(tree.writes)|..], plan, r.State())
    ensures (!others && !mayFail && res.Ok? && Transaction.Clear(old(tree.files), r.target))
            ==> res == Ok(Installed)
  {
    plan := [];
    var planned := MakePlan(r, tree.files, tree.dirs, v);
    if planned.Err? { return Err(planned.error), plan; }
    plan := planned.value;
    WholePlanIsStaged(tree.files, plan);
    ghost var files0, ws0 := tree.files, tree.writes;
    var t := new Transaction(tree, planned.value, After(tree.files, planned.value));
    var outcome, conflicts, put, undone := t.Install(others, mayFail, undoMayFail, false);
    if !others && !undoMayFail {
      StagesKeepMarkersBehind(put, files0, plan, r.State());
      StagesKeepMarkersBehind(undone, files0, plan, r.State());
      MarkersBehindInBoth(ws0, put, undone, plan, r.State());
    }
    res := Ok(outcome);
  }

  lemma AcceptedMeansUnedited(r: Request, files: Files, dirs: set<Path>, rel: Path)
    requires Accepted(r, files, dirs) && r.protect && !r.fillOnly && rel in r.staged
    ensures Baseline(r, files).Ok? && !Edited(r, files, Baseline(r, files).value, rel)
  {
  }
}
