/** The in-memory copy of the group and private plugin policies, and its agreement with the
    database over every interleaving of writes, publications, stale marks, refreshes and loads. */
module GroupPolicyCache {
  import opened Wrappers

  datatype Key = Key(botId: string, platformScope: string, groupId: string, channelId: string)

  datatype Blocks = Blocks(forcedPlugins: set<string>, blockPlugins: set<string>, forcedTasks: set<string>, blockTasks: set<string>)

  const NO_BLOCKS := Blocks({}, {}, {}, {})

  datatype Row = Row(revision: nat, blocks: Blocks)

  datatype Cache = Cache(epoch: nat, policies: map<Key, Blocks>, revisions: map<Key, nat>, stale: set<Key>, marks: nat, loaded: bool)

  datatype Unavailable = PolicyStale

  // --- One operation on the cache, between two suspension points ---

  function AcceptRow(c: Cache, key: Key, row: Option<Row>, clearStale: bool): Cache {
    var kept :=
      if row.None? then (if key in c.revisions then c else c.(policies := c.policies - {key}))
      else if key in c.revisions && row.value.revision < c.revisions[key] then c
      else c.(policies := c.policies[key := row.value.blocks], revisions := c.revisions[key := row.value.revision]);
    if clearStale then kept.(stale := kept.stale - {key}) else kept
  }

  function AcceptAll(c: Cache, rows: seq<(Key, Row)>): Cache {
    if rows == [] then c
    else AcceptRow(AcceptAll(c, rows[..|rows| - 1]), rows[|rows| - 1].0, Some(rows[|rows| - 1].1), true)
  }

  function MarkStale(c: Cache, keys: set<Key>): Cache {
    c.(stale := c.stale + keys, marks := c.marks + 1)
  }

  /** What `close` leaves, and `start` before it has read the rows. */
  function Emptied(c: Cache): Cache {
    c.(epoch := c.epoch + 1, policies := map[], revisions := map[], stale := {})
  }

  /** A refresh resuming with its answer. */
  function Refreshed(c: Cache, key: Key, row: Option<Row>, epoch: nat, marks: nat): Cache {
    if epoch != c.epoch then c else AcceptRow(c, key, row, marks == c.marks)
  }

  function Published(c: Cache, key: Key, row: Row, outcome: Publication): Cache {
    match outcome
    case Delivered => AcceptRow(c, key, Some(row), true)
    case RefusedAfterAccept => MarkStale(AcceptRow(c, key, Some(row), true), {key})
    case Lost => MarkStale(c, {key})
  }

  /** How a deferred publication ends: delivered, refused downstream, or cancelled before it ran. */
  datatype Publication = Delivered | RefusedAfterAccept | Lost

  function SceneBlocks(c: Cache, key: Key): Result<Blocks, Unavailable> {
    if key in c.stale then Err(PolicyStale)
    else if key in c.policies then Ok(c.policies[key])
    else Ok(NO_BLOCKS)
  }

  class BotGroupPolicyService {
    var epoch: nat
    var policies: map<Key, Blocks>
    var revisions: map<Key, nat>
    var stale: set<Key>
    var staleMarks: nat
    var loaded: bool

    function View(): Cache
      reads this
    {
      Cache(epoch, policies, revisions, stale, staleMarks, loaded)
    }

    constructor ()
      ensures View() == Cache(0, map[], map[], {}, 0, false)
    {
      epoch, policies, revisions, stale, staleMarks, loaded := 0, map[], map[], {}, 0, false;
    }

    method Accept(key: Key, row: Option<Row>, clearStale: bool)
      modifies this
      ensures View() == AcceptRow(old(View()), key, row, clearStale)
      ensures row.Some? && (key in old(revisions) ==> row.value.revision >= old(revisions)[key]) ==>
        policies == old(policies)[key := row.value.blocks] && revisions == old(revisions)[key := row.value.revision]
      ensures row.Some? && key in old(revisions) && row.value.revision < old(revisions)[key] ==>
        policies == old(policies) && revisions == old(revisions)
      ensures row.None? ==>
        revisions == old(revisions) && policies == if key in revisions then old(policies) else old(policies) - {key}
      ensures stale == old(stale) - (if clearStale then {key} else {})
    {
      var revision := if row.Some? then row.value.revision else -1;
      var known := if key in revisions then revisions[key] else -1;
      if row.None? && revision >= known {
        policies := policies - {key};
      } else if row.Some? && revision >= known {
        policies := policies[key := row.value.blocks];
        revisions := revisions[key := row.value.revision];
      }
      if clearStale { stale := stale - {key}; }
    }

    method Mark(keys: set<Key>)
      modifies this
      ensures View() == MarkStale(old(View()), keys)
      ensures stale == old(stale) + keys && staleMarks == old(staleMarks) + 1 && policies == old(policies)
    {
      stale := stale + keys;
      staleMarks := staleMarks + 1;
    }

    method MarkAll()
      modifies this
      ensures View() == MarkStale(old(View()), old(policies).Keys)
      ensures stale == old(stale) + old(policies).Keys && staleMarks == old(staleMarks) + 1
    {
      Mark(policies.Keys);
    }

    method RefreshResume(key: Key, row: Option<Row>, atEpoch: nat, atMarks: nat)
      modifies this
      ensures View() == Refreshed(old(View()), key, row, atEpoch, atMarks)
      ensures atEpoch != old(epoch) ==> View() == old(View())
      ensures atEpoch == old(epoch) ==>
        // The mark goes exactly when none was set since the refresh began.
        && stale == old(stale) - (if atMarks == old(staleMarks) then {key} else {})
        && (row.Some? && (key in old(revisions) ==> row.value.revision >= old(revisions)[key]) ==>
              key in policies && policies[key] == row.value.blocks && revisions == old(revisions)[key := row.value.revision])
        && forall k :: k != key ==> Get(policies, k) == Get(old(policies), k) && Get(revisions, k) == Get(old(revisions), k)
    {
      if atEpoch != epoch { return; }
      Accept(key, row, atMarks == staleMarks);
    }

    method Publish(key: Key, row: Row, outcome: Publication)
      modifies this
      ensures View() == Published(old(View()), key, row, outcome)
      ensures key in stale <==> outcome != Delivered
      ensures outcome != Lost && (key in old(revisions) ==> row.revision >= old(revisions)[key]) ==>
        key in policies && policies[key] == row.blocks
    {
      if outcome != Lost { Accept(key, Some(row), true); }
      if outcome != Delivered { Mark({key}); }
    }

    method StartBegin()
      modifies this
      ensures View() == Emptied(old(View()))
      ensures policies == map[] && revisions == map[] && stale == {} && epoch == old(epoch) + 1
    {
      epoch := epoch + 1;
      policies, revisions, stale := map[], map[], {};
    }

    method StartFinish(rows: seq<(Key, Row)>)
      modifies this
      ensures View() == AcceptAll(old(View()), rows).(loaded := true)
    {
      for i := 0 to |rows|
        invariant View() == AcceptAll(old(View()), rows[..i])
      {
        assert rows[..i + 1][..i] == rows[..i];
        Accept(rows[i].0, Some(rows[i].1), true);
      }
      assert rows[..|rows|] == rows;
      AcceptAllKeepsLoaded(old(View()), rows);
      loaded := true;
    }

    method Close()
      modifies this
      ensures View() == Emptied(old(View())).(loaded := false)
      ensures policies == map[] && revisions == map[] && stale == {} && epoch == old(epoch) + 1 && !loaded
    {
      epoch := epoch + 1;
      loaded := false;
      policies, revisions, stale := map[], map[], {};
    }
  }

  lemma {:induction false} AcceptAllKeepsLoaded(c: Cache, rows: seq<(Key, Row)>)
    ensures AcceptAll(c, rows).(loaded := c.loaded) == AcceptAll(c, rows)
    ensures AcceptAll(c, rows).epoch == c.epoch && AcceptAll(c, rows).marks == c.marks
  {
    if rows != [] { AcceptAllKeepsLoaded(c, rows[..|rows| - 1]); }
  }

  // --- The whole system ---

  /** A suspended refresh: what it noted before asking, and the answer once the query ran. */
  datatype Refresh = Refresh(key: Key, epoch: nat, marks: nat, answer: Option<Option<Row>>)

  datatype Load = Idle | Asking | Read(rows: seq<(Key, Row)>)

  /** `pending` holds the committed rows whose deferred publication has not run yet. */
  datatype Sys = Sys(db: map<Key, Row>, pending: map<Key, Row>, cache: Cache, refreshes: map<nat, Refresh>, load: Load)

  datatype Step =
    | Commit(blocks: map<Key, Blocks>)       // a write transaction, or several merged into one
    | Abort(keys: set<Key>)                  // a write that failed after touching its rows
    | Publish(key: Key, outcome: Publication)
    | MarkKeys(keys: set<Key>)
    | MarkAll
    | RefreshBegin(id: nat, key: Key)
    | RefreshQuery(id: nat)
    | RefreshResume(id: nat)
    | StartBegin
    | StartQuery(rows: seq<(Key, Row)>)
    | StartFinish
    | Close

  /** `rows` is what reading the whole table returns. */
  ghost predicate Lists(rows: seq<(Key, Row)>, db: map<Key, Row>) {
    && (forall i :: 0 <= i < |rows| ==> rows[i].0 in db && db[rows[i].0] == rows[i].1)
    && (forall k | k in db :: exists i :: 0 <= i < |rows| && rows[i].0 == k)
  }

  /** The rows a write transaction commits: each key one revision further. */
  function Written(db: map<Key, Row>, blocks: map<Key, Blocks>): map<Key, Row> {
    map k | k in blocks :: Row(if k in db then db[k].revision + 1 else 1, blocks[k])
  }

  ghost predicate Enabled(s: Sys, step: Step) {
    match step
    case Commit(_) => s.pending == map[]  // one mutation at a time, publication included
    case Publish(key, _) => key in s.pending
    case RefreshBegin(id, _) => id !in s.refreshes
    case RefreshQuery(id) => id in s.refreshes && s.refreshes[id].answer.None?
    case RefreshResume(id) => id in s.refreshes && s.refreshes[id].answer.Some?
    case StartBegin => s.load.Idle?
    case StartQuery(rows) => s.load.Asking? && Lists(rows, s.db)
    case StartFinish => s.load.Read?
    case Close => s.load.Idle?  // the finalizer is registered once the load is complete
    case _ => true
  }

  /** One step; a step that is not enabled does nothing. */
  ghost function Do(s: Sys, step: Step): Sys {
    if !Enabled(s, step) then s
    else match step
      case Commit(blocks) =>
        var rows := Written(s.db, blocks);
        s.(db := s.db + rows, pending := rows)
      case Abort(keys) => s.(cache := MarkStale(s.cache, keys))
      case Publish(key, outcome) =>
        s.(pending := s.pending - {key}, cache := Published(s.cache, key, s.pending[key], outcome))
      case MarkKeys(keys) => s.(cache := MarkStale(s.cache, keys))
      case MarkAll => s.(cache := MarkStale(s.cache, s.cache.policies.Keys))
      case RefreshBegin(id, key) =>
        s.(refreshes := s.refreshes[id := Refresh(key, s.cache.epoch, s.cache.marks, None)])
      case RefreshQuery(id) =>
        var r := s.refreshes[id];
        s.(refreshes := s.refreshes[id := r.(answer := Some(Get(s.db, r.key)))])
      case RefreshResume(id) =>
        var r := s.refreshes[id];
        s.(refreshes := s.refreshes - {id}, cache := Refreshed(s.cache, r.key, r.answer.value, r.epoch, r.marks))
      case StartBegin => s.(cache := Emptied(s.cache), load := Asking)
      case StartQuery(rows) => s.(load := Read(rows))
      case StartFinish => s.(cache := AcceptAll(s.cache, s.load.rows).(loaded := true), load := Idle)
      case Close => s.(cache := Emptied(s.cache).(loaded := false))
  }

  ghost function Run(s: Sys, steps: seq<Step>): Sys
    decreases |steps|
  {
    if steps == [] then s else Run(Do(s, steps[0]), steps[1..])
  }

  lemma {:induction false} RunGoesOn(s: Sys, steps: seq<Step>, step: Step)
    ensures Run(s, []) == s && Run(s, steps + [step]) == Do(Run(s, steps), step)
    decreases |steps|
  {
    if steps == [] {
      assert [] + [step] == [step] && [step][1..] == [];
    } else {
      RunGoesOn(Do(s, steps[0]), steps[1..], step);
      assert (steps + [step])[1..] == steps[1..] + [step];
    }
  }

  function Boot(db: map<Key, Row>): Sys {
    Sys(db, map[], Cache(0, map[], map[], {}, 0, false), map[], Idle)
  }

  /** The steps do to the cache what the methods do; only commits write the database, and what they wrote
      awaits its publication. */
  lemma StepsAreOperations(s: Sys, step: Step)
    ensures var t := Do(s, step);
            match step
            case Commit(blocks) => s.pending == map[] ==>
                  && t.cache == s.cache && t.pending.Keys == blocks.Keys
                  && forall k :: if k in blocks then k in t.db && t.db[k] == t.pending[k] && t.db[k].blocks == blocks[k]
                                                     && t.db[k].revision == if k in s.db then s.db[k].revision + 1 else 1
                                 else Get(t.db, k) == Get(s.db, k)
            case Abort(keys) => t.cache == MarkStale(s.cache, keys) && t.db == s.db
            case Publish(key, outcome) =>
              key in s.pending ==>
                t.cache == Published(s.cache, key, s.pending[key], outcome) && t.pending == s.pending - {key} && t.db == s.db
            case MarkKeys(keys) => t.cache == MarkStale(s.cache, keys)
            case MarkAll => t.cache == MarkStale(s.cache, s.cache.policies.Keys)
            case RefreshBegin(id, key) =>
              id !in s.refreshes ==>
                id in t.refreshes && t.refreshes[id] == Refresh(key, s.cache.epoch, s.cache.marks, None)
            case RefreshQuery(id) =>
              id in s.refreshes && s.refreshes[id].answer.None? ==>
                id in t.refreshes && t.refreshes[id].answer == Some(Get(s.db, s.refreshes[id].key))
            case RefreshResume(id) => id in s.refreshes && s.refreshes[id].answer.Some? ==>
                  var r := s.refreshes[id];
                  t.cache == Refreshed(s.cache, r.key, r.answer.value, r.epoch, r.marks) && id !in t.refreshes
            case StartBegin => s.load.Idle? ==> t.cache == Emptied(s.cache) && t.load.Asking?
            case StartQuery(rows) =>
              s.load.Asking? && Lists(rows, s.db) ==>
                t.load == Read(rows) && t.cache == s.cache
            case StartFinish =>
              s.load.Read? ==>
                t.cache == AcceptAll(s.cache, s.load.rows).(loaded := true) && t.load.Idle?
            case Close => s.load.Idle? ==> t.cache == Emptied(s.cache).(loaded := false)
  {
  }

  // --- The invariant ---

  /** A row that was committed for `k` at some time. */
  ghost predicate Committed(db: map<Key, Row>, k: Key, row: Row) {
    k in db && row.revision <= db[k].revision && (row.revision == db[k].revision ==> row == db[k])
  }

  /** The cache holds the last committed row of `k`. */
  ghost predicate Current(s: Sys, k: Key) {
    if k in s.db then k in s.cache.revisions && s.cache.revisions[k] == s.db[k].revision
    else k !in s.cache.policies
  }

  ghost predicate CacheOk(s: Sys) {
    && s.cache.policies.Keys == s.cache.revisions.Keys
    && (forall k | k in s.cache.revisions :: Committed(s.db, k, Row(s.cache.revisions[k], s.cache.policies[k])))
    && (forall k | k in s.pending :: k in s.db && s.pending[k] == s.db[k])
  }

  /** A refresh may clear the stale mark only if that is harmless. */
  ghost predicate RefreshOk(s: Sys, r: Refresh) {
    && r.epoch <= s.cache.epoch && r.marks <= s.cache.marks
    && (r.answer.Some? && r.answer.value.Some? ==> Committed(s.db, r.key, r.answer.value.value))
    && (r.answer.Some? && r.epoch == s.cache.epoch && r.marks == s.cache.marks ==>
      r.key in s.pending || r.answer.value == Get(s.db, r.key) || Current(s, r.key))
  }

  ghost predicate LoadOk(s: Sys) {
    s.load.Read? ==>
      && (forall i :: 0 <= i < |s.load.rows| ==> Committed(s.db, s.load.rows[i].0, s.load.rows[i].1))
      && (forall k :: k in s.pending || k in s.cache.stale || Current(s, k) || Listed(s.load.rows, k, Get(s.db, k)))
  }

  /** `rows` holds exactly `row` for `k`. */
  ghost predicate Listed(rows: seq<(Key, Row)>, k: Key, row: Option<Row>) {
    match row
    case None => forall i :: 0 <= i < |rows| ==> rows[i].0 != k
    case Some(x) => exists i :: 0 <= i < |rows| && rows[i] == (k, x)
  }

  ghost predicate Fresh(s: Sys) {
    s.load.Idle? && s.cache.loaded ==> forall k :: k in s.cache.stale || k in s.pending || Current(s, k)
  }

  ghost predicate Inv(s: Sys) {
    && CacheOk(s)
    && (forall id | id in s.refreshes :: RefreshOk(s, s.refreshes[id]))
    && LoadOk(s)
    && Fresh(s)
  }

  /** When the load resumes, no key it is about to unmark has moved on unseen. */
  ghost predicate LoadSafe(s: Sys) {
    s.load.Read? ==> forall i :: 0 <= i < |s.load.rows| ==>
      var k := s.load.rows[i].0;
      k in s.cache.stale ==> k in s.pending || Current(s, k) || Listed(s.load.rows, k, Get(s.db, k))
  }

  // --- Every step keeps it ---

  /** Accepting a row that was committed for `k` at some time. */
  lemma AcceptKeeps(s: Sys, k: Key, row: Option<Row>, clear: bool)
    requires CacheOk(s)
    requires row.Some? ==> Committed(s.db, k, row.value)
    ensures var t := s.(cache := AcceptRow(s.cache, k, row, clear));
            && CacheOk(t)
            && (forall j :: Current(s, j) ==> Current(t, j))
            && (row == Get(s.db, k) ==> Current(t, k))
            && (forall j :: Current(t, j) ==> Current(s, j) || (j == k && row == Get(s.db, k)))
            && t.cache.stale == if clear then s.cache.stale - {k} else s.cache.stale
  {
    var t := s.(cache := AcceptRow(s.cache, k, row, clear));
    forall j ensures Current(s, j) ==> Current(t, j) {
      if j == k { AcceptedIsCurrent(s, k, row, clear); }
    }
    forall j ensures Current(t, j) ==> Current(s, j) || (j == k && row == Get(s.db, k)) {
      if j == k { AcceptedIsCurrent(s, k, row, clear); }
    }
    AcceptedIsCurrent(s, k, row, clear);
  }

  lemma AcceptedIsCurrent(s: Sys, k: Key, row: Option<Row>, clear: bool)
    requires CacheOk(s)
    requires row.Some? ==> Committed(s.db, k, row.value)
    ensures Current(s.(cache := AcceptRow(s.cache, k, row, clear)), k) <==> Current(s, k) || row == Get(s.db, k)
  {
  }

  lemma CommitKeeps(s: Sys, blocks: map<Key, Blocks>)
    requires Inv(s) && s.pending == map[]
    ensures Inv(Do(s, Commit(blocks)))
  {
    var t := Do(s, Commit(blocks));
    assert forall k, row :: Committed(s.db, k, row) ==> Committed(t.db, k, row);
    assert forall k :: k !in blocks ==> Get(t.db, k) == Get(s.db, k) && (Current(s, k) ==> Current(t, k));
    forall id | id in t.refreshes ensures RefreshOk(t, t.refreshes[id]) {
      assert RefreshOk(s, s.refreshes[id]);
    }
  }

  /** A change of the cache alone keeps the agreement when no current key is lost and every key that
      is no longer stale or pending is current. */
  lemma CacheMoves(s: Sys, t: Sys)
    requires Inv(s) && CacheOk(t)
    requires t.db == s.db && t.load == s.load && t.cache.epoch == s.cache.epoch && t.cache.loaded == s.cache.loaded
    requires t.cache.marks >= s.cache.marks
    requires forall id | id in t.refreshes :: id in s.refreshes && t.refreshes[id] == s.refreshes[id]
    requires forall k :: Current(s, k) ==> Current(t, k)
    requires forall k | k in s.cache.stale :: k in t.cache.stale || k in t.pending || Current(t, k)
    requires forall k | k in s.pending :: k in t.pending || Current(t, k) || (k in t.cache.stale && t.cache.marks > s.cache.marks)
    ensures Inv(t)
  {
    forall id | id in t.refreshes ensures RefreshOk(t, t.refreshes[id]) {
      assert RefreshOk(s, s.refreshes[id]);
    }
  }

  lemma PublishKeeps(s: Sys, key: Key, outcome: Publication)
    requires Inv(s) && key in s.pending
    ensures Inv(Do(s, Publish(key, outcome)))
  {
    AcceptKeeps(s, key, Some(s.pending[key]), true);
    CacheMoves(s, Do(s, Publish(key, outcome)));
  }

  lemma ResumeKeeps(s: Sys, id: nat)
    requires Inv(s) && Enabled(s, RefreshResume(id))
    ensures Inv(Do(s, RefreshResume(id)))
  {
    var r := s.refreshes[id];
    assert RefreshOk(s, r);
    AcceptKeeps(s, r.key, r.answer.value, r.marks == s.cache.marks);
    CacheMoves(s, Do(s, RefreshResume(id)));
  }

  /** Marking: no refresh in flight can unmark a key afterwards. */
  lemma MarkKeeps(s: Sys, keys: set<Key>)
    requires Inv(s)
    ensures Inv(s.(cache := MarkStale(s.cache, keys)))
  {
    CacheMoves(s, s.(cache := MarkStale(s.cache, keys)));
  }

  lemma ListedInInit(rows: seq<(Key, Row)>, k: Key, row: Option<Row>)
    requires rows != []
    ensures var n := |rows| - 1;
            Listed(rows, k, row) <==> if row.None? then Listed(rows[..n], k, None) && rows[n].0 != k
                                      else Listed(rows[..n], k, row) || rows[n] == (k, row.value)
  {
    var n := |rows| - 1;
    assert forall i :: 0 <= i < n ==> rows[..n][i] == rows[i];
    if row.Some? {
      forall i | 0 <= i < |rows| && rows[i] == (k, row.value) ensures Listed(rows[..n], k, row) || i == n {
        if i < n { assert rows[..n][i] == (k, row.value); }
      }
    }
  }

  /** What the load leaves of each key. */
  lemma {:induction false} LoadEffect(s: Sys, rows: seq<(Key, Row)>, k: Key)
    requires CacheOk(s)
    requires forall i :: 0 <= i < |rows| ==> Committed(s.db, rows[i].0, rows[i].1)
    ensures var t := s.(cache := AcceptAll(s.cache, rows));
            && CacheOk(t)
            && (Current(s, k) || (k in s.db && Listed(rows, k, Get(s.db, k))) ==> Current(t, k))
            && (Current(t, k) ==> Current(s, k) || Listed(rows, k, Get(s.db, k)))
            && (k in t.cache.stale <==> k in s.cache.stale && Listed(rows, k, None))
  {
    if rows != [] {
      var n := |rows| - 1;
      LoadEffect(s, rows[..n], k);
      AcceptKeeps(s.(cache := AcceptAll(s.cache, rows[..n])), rows[n].0, Some(rows[n].1), true);
      ListedInInit(rows, k, Get(s.db, k));
      ListedInInit(rows, k, None);
    }
  }

  lemma FinishKeeps(s: Sys)
    requires Inv(s) && s.load.Read? && LoadSafe(s)
    ensures Inv(Do(s, StartFinish))
  {
    var t := Do(s, StartFinish);
    AcceptAllKeepsLoaded(s.cache, s.load.rows);
    forall k ensures k in t.cache.stale || k in t.pending || Current(t, k) {
      LoadEffect(s, s.load.rows, k);
    }
    LoadEffect(s, s.load.rows, Key("", "", "", ""));
    forall id | id in t.refreshes ensures RefreshOk(t, t.refreshes[id]) {
      assert RefreshOk(s, s.refreshes[id]);
      LoadEffect(s, s.load.rows, s.refreshes[id].key);
    }
  }

  lemma RefreshStarts(s: Sys, id: nat, key: Key)
    requires Inv(s)
    ensures Inv(Do(s, RefreshBegin(id, key))) && Inv(Do(s, RefreshQuery(id)))
  {
    if id in s.refreshes { assert RefreshOk(s, s.refreshes[id]); }
  }

  /** Emptying the cache starts a new epoch, so no refresh in flight is accepted any more. */
  lemma EmptyingKeeps(s: Sys)
    requires Inv(s)
    ensures Inv(Do(s, StartBegin)) && Inv(Do(s, Close))
  {
  }

  lemma LoadQueryKeeps(s: Sys, rows: seq<(Key, Row)>)
    requires Inv(s) && Enabled(s, StartQuery(rows))
    ensures Inv(Do(s, StartQuery(rows)))
  {
    forall k ensures Listed(rows, k, Get(s.db, k)) {
      if k in s.db { var i :| 0 <= i < |rows| && rows[i].0 == k; assert rows[i] == (k, s.db[k]); }
    }
  }

  lemma StepKeeps(s: Sys, step: Step)
    requires Inv(s)
    requires step.StartFinish? ==> LoadSafe(s)
    ensures Inv(Do(s, step))
  {
    if Enabled(s, step) {
      match step
      case Commit(blocks) => CommitKeeps(s, blocks);
      case Abort(keys) => MarkKeeps(s, keys);
      case Publish(key, outcome) => PublishKeeps(s, key, outcome);
      case MarkKeys(keys) => MarkKeeps(s, keys);
      case MarkAll => MarkKeeps(s, s.cache.policies.Keys);
      case RefreshBegin(id, key) => RefreshStarts(s, id, key);
      case RefreshQuery(id) => RefreshStarts(s, id, s.refreshes[id].key);
      case RefreshResume(id) => ResumeKeeps(s, id);
      case StartBegin => EmptyingKeeps(s);
      case StartQuery(rows) => LoadQueryKeeps(s, rows);
      case StartFinish => FinishKeeps(s);
      case Close => EmptyingKeeps(s);
    }
  }

  // --- Keys are served again ---

  lemma RefreshSteps(s: Sys, id: nat, key: Key)
    requires id !in s.refreshes
    ensures Do(Do(Do(s, RefreshBegin(id, key)), RefreshQuery(id)), RefreshResume(id))
            == s.(cache := AcceptRow(s.cache, key, Get(s.db, key), true))
  {
    var a := Do(s, RefreshBegin(id, key));
    var b := Do(a, RefreshQuery(id));
    assert b.refreshes == s.refreshes[id := Refresh(key, s.cache.epoch, s.cache.marks, Some(Get(s.db, key)))];
    assert b.refreshes - {id} == s.refreshes;
  }

  /** A refresh that nothing disturbs ends with the last committed row served, whatever was stale before. */
  lemma RefreshServes(s: Sys, id: nat, key: Key)
    requires Inv(s) && id !in s.refreshes
    ensures var t := Do(Do(Do(s, RefreshBegin(id, key)), RefreshQuery(id)), RefreshResume(id));
            && SceneBlocks(t.cache, key) == Ok(if key in s.db then s.db[key].blocks else NO_BLOCKS)
            && t.cache.stale == s.cache.stale - {key}
            && forall k :: k != key ==> SceneBlocks(t.cache, k) == SceneBlocks(s.cache, k)
  {
    RefreshSteps(s, id, key);
    AcceptKeeps(s, key, Get(s.db, key), true);
    CurrentIsServed(s.(cache := AcceptRow(s.cache, key, Get(s.db, key), true)), key);
  }

  /** A current key that is not stale serves its committed row. */
  lemma CurrentIsServed(s: Sys, key: Key)
    requires CacheOk(s) && Current(s, key) && key !in s.cache.stale
    ensures SceneBlocks(s.cache, key) == Ok(if key in s.db then s.db[key].blocks else NO_BLOCKS)
  {
    if key in s.db { assert Committed(s.db, key, Row(s.cache.revisions[key], s.cache.policies[key])); }
  }

  /** A publication that is delivered makes its row served at once; a lost one makes the key unavailable. */
  lemma PublicationServes(s: Sys, key: Key, outcome: Publication)
    requires Inv(s) && key in s.pending
    ensures SceneBlocks(Do(s, Publish(key, outcome)).cache, key) ==
            if outcome == Delivered then Ok(s.db[key].blocks) else Err(PolicyStale)
  {
    AcceptKeeps(s, key, Some(s.pending[key]), true);
    if outcome == Delivered { CurrentIsServed(s.(cache := AcceptRow(s.cache, key, Some(s.pending[key]), true)), key); }
  }

  lemma LoadedServes(s: Sys, rows: seq<(Key, Row)>, key: Key)
    requires CacheOk(s) && s.cache.policies == map[] && s.cache.stale == {} && Lists(rows, s.db)
    ensures SceneBlocks(AcceptAll(s.cache, rows), key) == Ok(if key in s.db then s.db[key].blocks else NO_BLOCKS)
  {
    LoadEffect(s, rows, key);
    if key in s.db { var i :| 0 <= i < |rows| && rows[i].0 == key; assert rows[i] == (key, s.db[key]); }
    CurrentIsServed(s.(cache := AcceptAll(s.cache, rows)), key);
  }

  lemma LoadSteps(s: Sys, rows: seq<(Key, Row)>)
    requires s.load.Idle? && Lists(rows, s.db)
    ensures Do(Do(Do(s, StartBegin), StartQuery(rows)), StartFinish)
            == s.(cache := AcceptAll(Emptied(s.cache), rows).(loaded := true), load := Idle)
  {
    var a := s.(cache := Emptied(s.cache), load := Asking);
    assert Do(s, StartBegin) == a;
    assert Do(a, StartQuery(rows)) == a.(load := Read(rows));
  }

  /** After a load that nothing disturbs every key is served. */
  lemma LoadServes(s: Sys, rows: seq<(Key, Row)>, key: Key)
    requires Inv(s) && s.load.Idle? && Lists(rows, s.db)
    ensures var t := Do(Do(Do(s, StartBegin), StartQuery(rows)), StartFinish);
            && t.load.Idle? && t.cache.loaded
            && SceneBlocks(t.cache, key) == Ok(if key in s.db then s.db[key].blocks else NO_BLOCKS)
  {
    LoadSteps(s, rows);
    LoadedServes(s.(cache := Emptied(s.cache)), rows, key);
  }

  // --- Over whole runs ---

  /** Every load of the run resumes while it is safe. */
  ghost predicate SafeRun(s: Sys, steps: seq<Step>)
    decreases |steps|
  {
    steps != [] ==> (steps[0].StartFinish? ==> LoadSafe(s)) && SafeRun(Do(s, steps[0]), steps[1..])
  }

  lemma {:induction false} RunKeeps(s: Sys, steps: seq<Step>)
    requires Inv(s) && SafeRun(s, steps)
    ensures Inv(Run(s, steps))
    decreases |steps|
  {
    if steps != [] {
      StepKeeps(s, steps[0]);
      RunKeeps(Do(s, steps[0]), steps[1..]);
    }
  }

  /** In every run, a key that is neither stale nor awaiting publication serves its last committed
      row, and the empty policy when it has none. */
  lemma ServesLastCommitted(db: map<Key, Row>, steps: seq<Step>, key: Key)
    requires SafeRun(Boot(db), steps)
    ensures var s := Run(Boot(db), steps);
            s.load.Idle? && s.cache.loaded && key !in s.cache.stale && key !in s.pending ==>
              SceneBlocks(s.cache, key) == Ok(if key in s.db then s.db[key].blocks else NO_BLOCKS)
  {
    RunKeeps(Boot(db), steps);
    var s := Run(Boot(db), steps);
    if s.load.Idle? && s.cache.loaded && key !in s.cache.stale && key !in s.pending && key in s.db {
      assert Current(s, key);
      assert Committed(s.db, key, Row(s.cache.revisions[key], s.cache.policies[key]));
    }
  }

  /** The revision is still there and has not decreased. */
  predicate Grown(c: Cache, d: Cache, key: Key) {
    key in c.revisions ==> key in d.revisions && d.revisions[key] >= c.revisions[key]
  }

  lemma {:induction false} AcceptAllGrows(c: Cache, rows: seq<(Key, Row)>, key: Key)
    ensures Grown(c, AcceptAll(c, rows), key) && AcceptAll(c, rows).epoch == c.epoch
  {
    if rows != [] { AcceptAllGrows(c, rows[..|rows| - 1], key); }
  }

  lemma StepGrows(s: Sys, step: Step, key: Key)
    ensures var t := Do(s, step);
            t.cache.epoch >= s.cache.epoch && (t.cache.epoch == s.cache.epoch ==> Grown(s.cache, t.cache, key))
  {
    if step.StartFinish? && s.load.Read? { AcceptAllGrows(s.cache, s.load.rows, key); }
  }

  /** Over every run within one epoch a cached revision never decreases and is never dropped. */
  lemma {:induction false} RevisionsGrow(s: Sys, steps: seq<Step>, key: Key)
    ensures var t := Run(s, steps);
            t.cache.epoch >= s.cache.epoch && (t.cache.epoch == s.cache.epoch ==> Grown(s.cache, t.cache, key))
    decreases |steps|
  {
    if steps != [] {
      StepGrows(s, steps[0], key);
      RevisionsGrow(Do(s, steps[0]), steps[1..], key);
    }
  }

  lemma UnsafeLoadLosesMark(s: Sys, i: nat)
    requires Inv(s) && s.load.Read? && i < |s.load.rows|
    requires var k := s.load.rows[i].0; k !in s.pending && !Current(s, k) && !Listed(s.load.rows, k, Get(s.db, k))
    ensures !Fresh(Do(s, StartFinish))
  {
    var k := s.load.rows[i].0;
    LoadEffect(s, s.load.rows, k);
    var t := Do(s, StartFinish);
    assert !(k in t.cache.stale || k in t.pending || Current(t, k));
  }

  /** Exactly when a load keeps the guarantee: it resumes while safe. */
  lemma LoadKeepsIffSafe(s: Sys)
    requires Inv(s) && s.load.Read?
    ensures Inv(Do(s, StartFinish)) <==> LoadSafe(s)
  {
    if LoadSafe(s) {
      FinishKeeps(s);
    } else {
      var i :| 0 <= i < |s.load.rows| && var k := s.load.rows[i].0;
        k in s.cache.stale && k !in s.pending && !Current(s, k) && !Listed(s.load.rows, k, Get(s.db, k));
      UnsafeLoadLosesMark(s, i);
    }
  }

  /** What a caller can check: nothing is marked stale when the load resumes. */
  lemma QuietLoadIsSafe(s: Sys)
    requires s.cache.stale == {}
    ensures LoadSafe(s)
  {
  }

  /** A `start` that has read the one row there is. */
  function Reading(key: Key, row: Row): Sys {
    Sys(map[key := row], map[], Cache(1, map[], map[], {}, 0, false), map[], Read([(key, row)]))
  }

  lemma ReadingIsReached(key: Key, row: Row)
    ensures Do(Do(Boot(map[key := row]), StartBegin), StartQuery([(key, row)])) == Reading(key, row)
  {
    var rows := [(key, row)];
    assert rows[0].0 == key;
    assert Lists(rows, map[key := row]);
  }

  /** A write commits meanwhile, and its publication is lost. */
  lemma MarkedIsReached(key: Key, row: Row, b: Blocks)
    ensures var s := Do(Do(Reading(key, row), Commit(map[key := b])), Publish(key, Lost));
            s == Reading(key, row).(db := map[key := Row(row.revision + 1, b)], cache := Cache(1, map[], map[], {key}, 1, false))
  {
    var next := Row(row.revision + 1, b);
    var committed := Do(Reading(key, row), Commit(map[key := b]));
    assert committed.pending == map[key := next];
    assert committed.db == map[key := next];
    assert committed.pending - {key} == map[];
  }

  /** The load resumes with the old row and unmarks the key. */
  lemma MarkIsCleared(key: Key, row: Row, b: Blocks)
    ensures var marked := Reading(key, row).(db := map[key := Row(row.revision + 1, b)], cache := Cache(1, map[], map[], {key}, 1, false));
            Do(marked, StartFinish) == marked.(cache := Cache(1, map[key := row.blocks], map[key := row.revision], {}, 1, true), load := Idle)
  {
    var cache := Cache(1, map[], map[], {key}, 1, false);
    assert [(key, row)][..0] == [];
    assert AcceptAll(cache, [(key, row)]) == AcceptRow(cache, key, Some(row), true);
    assert {key} - {key} == {};
  }

  /** An unsafe load happens: a write commits while `start` is reading, its publication fails and
      marks the key stale, and the load then clears the mark with the row it had read before. */
  lemma LoadCanLoseMark(key: Key, b: Blocks)
    requires b != NO_BLOCKS
    ensures var oldRow := Row(1, NO_BLOCKS);
            var reading := Do(Do(Boot(map[key := oldRow]), StartBegin), StartQuery([(key, oldRow)]));
            var marked := Do(Do(reading, Commit(map[key := b])), Publish(key, Lost));
            var s := Do(marked, StartFinish);
            && reading.load.Read? && s.load.Idle? && s.cache.loaded && s.pending == map[]
            && Get(s.db, key) == Some(Row(2, b)) && SceneBlocks(s.cache, key) == Ok(NO_BLOCKS)
  {
    var row := Row(1, NO_BLOCKS);
    ReadingIsReached(key, row);
    MarkedIsReached(key, row, b);
    MarkIsCleared(key, row, b);
  }
}
