/** Per-group plugin settings: the rows, the merged view kept in a cache, and their agreement over
    every interleaving of writes, deferred invalidations, failed invalidations and slow readers. */
module GroupSettings {
  import opened Wrappers

  type Settings = map<string, string>

  datatype Scope = Scope(botId: string, platformScope: string, channelId: string)

  /** What a row or a cached view is about; without a scope it is the legacy row of the group. */
  datatype View = View(group: string, plugin: string, scope: Option<Scope>) {
    function Legacy(): View { View(group, plugin, None) }
  }

  type Rows = map<View, Settings>

  // --- Writing ---

  datatype Change = SetAll(values: Settings) | SetKey(key: string, value: string) | ResetKey(key: string) | ResetAll

  predicate Creates(c: Change) {
    c.SetAll? || c.SetKey?
  }

  /** The settings a change asks for; None asks for nothing. */
  function Apply(c: Change, values: Settings): Option<Settings> {
    match c
    case SetAll(v) => Some(v)
    case SetKey(k, v) => Some(values[k := v])
    case ResetKey(k) => if k in values then Some(values - {k}) else None
    case ResetAll => Some(map[])
  }

  /** One write: the rows after it and whether it changed something.  It looks only at the exact
      row, never at the inherited one; an empty result deletes the row. */
  function Mutated(rows: Rows, view: View, c: Change): (Rows, bool) {
    if view !in rows && !Creates(c) then (rows, false)
    else match Apply(c, if view in rows then rows[view] else map[])
      case None => (rows, false)
      case Some(v) => (if v == map[] then rows - {view} else rows[view := v], true)
  }

  /** The settings in the exact row. */
  function Own(rows: Rows, view: View): Settings {
    if view in rows then rows[view] else map[]
  }

  /** What a write leaves of each key, and whether it changes something; nothing is kept of a row that
      becomes empty. */
  lemma MutatedByKey(rows: Rows, view: View, c: Change, k: string)
    ensures var (after, changed) := Mutated(rows, view, c);
            && Get(Own(after, view), k) ==
               (match c
                case SetAll(values) => Get(values, k)
                case SetKey(key, value) => if k == key then Some(value) else Get(Own(rows, view), k)
                case ResetKey(key) => if k == key then None else Get(Own(rows, view), k)
                case ResetAll => None)
            && (changed <==> c.SetAll? || c.SetKey? || (view in rows && (c.ResetKey? ==> c.key in rows[view])))
            && (changed ==> (view in after <==> Own(after, view) != map[]))
            && (!changed ==> after == rows)
            && forall v :: v != view ==> Get(after, v) == Get(rows, v)
  {
  }

  /** A transaction of several writes: the rows after it and the views it changed. */
  function MutatedAll(rows: Rows, writes: seq<(View, Change)>): (Rows, set<View>) {
    if writes == [] then (rows, {})
    else
      var (before, touched) := MutatedAll(rows, writes[..|writes| - 1]);
      var (view, c) := writes[|writes| - 1];
      var (after, changed) := Mutated(before, view, c);
      (after, if changed then touched + {view} else touched)
  }

  /** A write leaves every other row alone; in particular a scoped write never changes the legacy
      row it inherits from. */
  lemma {:induction false} WritesStayInTheirView(rows: Rows, writes: seq<(View, Change)>)
    ensures var (after, touched) := MutatedAll(rows, writes);
            && (forall v | v !in touched :: Get(after, v) == Get(rows, v))
            && touched <= (set w | w in writes :: w.0)
            && ((forall i :: 0 <= i < |writes| ==> writes[i].0.scope.Some?) ==>
                 forall v: View :: v.scope.None? ==> Get(after, v) == Get(rows, v))
  {
    if writes != [] {
      var n := |writes| - 1;
      WritesStayInTheirView(rows, writes[..n]);
      assert forall i :: 0 <= i < n ==> writes[..n][i] == writes[i];
      assert forall w | w in writes[..n] :: w in writes;
      assert writes[n] in writes;
    }
  }

  predicate Names(c: Change, k: string) {
    match c
    case SetKey(key, _) => key == k
    case ResetKey(key) => key == k
    case _ => true
  }

  /** In a transaction, the last write that names a key in a view decides it. */
  lemma {:induction false} LastWriteDecides(rows: Rows, writes: seq<(View, Change)>, i: nat, k: string)
    requires i < |writes| && Names(writes[i].1, k)
    requires forall j :: i < j < |writes| && writes[j].0 == writes[i].0 ==> !Names(writes[j].1, k)
    ensures var (after, touched) := MutatedAll(rows, writes);
            var (view, c) := writes[i];
            && Get(Own(after, view), k) == (match c
                                            case SetAll(values) => Get(values, k)
                                            case SetKey(_, value) => Some(value)
                                            case _ => None)
            && (Creates(c) ==> view in touched)
  {
    var n := |writes| - 1;
    var before := MutatedAll(rows, writes[..n]).0;
    MutatedByKey(before, writes[n].0, writes[n].1, k);
    if i < n {
      LastWriteDecides(rows, writes[..n], i, k);
    }
  }

  /** A key that no write names stays as it was. */
  lemma {:induction false} UnnamedKeysStay(rows: Rows, writes: seq<(View, Change)>, view: View, k: string)
    requires forall w | w in writes :: w.0 == view ==> !Names(w.1, k)
    ensures Get(Own(MutatedAll(rows, writes).0, view), k) == Get(Own(rows, view), k)
  {
    if writes != [] {
      var n := |writes| - 1;
      assert forall w | w in writes[..n] :: w in writes;
      assert writes[n] in writes;
      UnnamedKeysStay(rows, writes[..n], view, k);
      MutatedByKey(MutatedAll(rows, writes[..n]).0, writes[n].0, writes[n].1, k);
    }
  }

  /** Resetting a key undoes setting it, if the exact row did not have it. */
  lemma ResetUndoesSet(rows: Rows, view: View, k: string, v: string)
    requires view in rows ==> k !in rows[view] && rows[view] != map[]
    ensures var (written, _) := Mutated(rows, view, SetKey(k, v));
            Mutated(written, view, ResetKey(k)) == (rows, true)
  {
    var values := if view in rows then rows[view] else map[];
    var (written, _) := Mutated(rows, view, SetKey(k, v));
    assert k in values[k := v];
    assert written == rows[view := values[k := v]];
    assert values[k := v] - {k} == values;
    assert (if values == map[] then written - {view} else written[view := values]) == rows;
  }

  // --- Reading ---

  /** The row a view reads: its own, else the legacy row. */
  function Inherited(rows: Rows, view: View): Option<Settings> {
    if view in rows then Some(rows[view])
    else if view.scope.Some? then Get(rows, view.Legacy())
    else None
  }

  function Merged(defaults: Settings, row: Option<Settings>): Settings {
    match row
    case None => defaults
    case Some(settings) => defaults + settings
  }

  /** Each key has the value of the row, else the default. */
  lemma MergedAt(defaults: Settings, row: Option<Settings>, k: string)
    ensures Get(Merged(defaults, row), k) == if row.Some? && k in row.value then Some(row.value[k]) else Get(defaults, k)
  {
  }

  datatype Entry = Entry(defaults: Settings, merged: Settings, version: nat)

  datatype Cache = Cache(epoch: nat, version: nat, entries: map<View, Entry>)

  /** A reader takes a cached view only with the current version and the current defaults. */
  predicate Accepts(c: Cache, defaults: Settings, view: View) {
    view in c.entries && c.entries[view].version == c.version && c.entries[view].defaults == defaults
  }

  /** The first half of an invalidation; None stands for all plugins' settings. */
  function Bumped(c: Cache, target: Option<View>): Cache {
    if target.Some? && target.value.scope.Some? then c.(epoch := c.epoch + 1)
    else c.(epoch := c.epoch + 1, version := c.version + 1)
  }

  /** The second half: a scoped view goes alone, a legacy row takes every derived view with it. */
  function Dropped(c: Cache, target: Option<View>): Cache {
    if target.Some? && target.value.scope.Some? then c.(entries := c.entries - {target.value})
    else c.(entries := map[])
  }

  function MarkedStale(c: Cache): Cache {
    c.(epoch := c.epoch + 1, version := c.version + 1)
  }

  function Filled(c: Cache, view: View, entry: Entry, epoch: nat, defaults: Settings): Cache {
    if epoch == c.epoch && defaults == entry.defaults then c.(entries := c.entries[view := entry]) else c
  }

  class GroupSettingsService {
    var epoch: nat
    var cacheVersion: nat
    var entries: map<View, Entry>
    var rows: Rows

    function Memory(): Cache
      reads this
    {
      Cache(epoch, cacheVersion, entries)
    }

    constructor (rows: Rows)
      ensures Memory() == Cache(0, 0, map[]) && this.rows == rows
    {
      epoch, cacheVersion, entries := 0, 0, map[];
      this.rows := rows;
    }

    method MarkStale()
      modifies this
      ensures Memory() == MarkedStale(old(Memory())) && rows == old(rows)
    {
      epoch := epoch + 1;
      cacheVersion := cacheVersion + 1;
    }

    method InvalidateBegin(target: Option<View>)
      modifies this
      ensures Memory() == Bumped(old(Memory()), target) && rows == old(rows)
      ensures epoch == old(epoch) + 1 && entries == old(entries)
      ensures cacheVersion == old(cacheVersion) + if target.Some? && target.value.scope.Some? then 0 else 1
    {
      epoch := epoch + 1;
      if target.None? || target.value.scope.None? { cacheVersion := cacheVersion + 1; }
    }

    method InvalidateEnd(target: Option<View>)
      modifies this
      ensures Memory() == Dropped(old(Memory()), target) && rows == old(rows)
      ensures entries == if target.Some? && target.value.scope.Some? then old(entries) - {target.value} else map[]
    {
      if target.None? || target.value.scope.None? { entries := map[]; }
      else { entries := entries - {target.value}; }
    }

    method Fill(view: View, entry: Entry, atEpoch: nat, defaults: Settings) returns (stored: bool)
      modifies this
      ensures Memory() == Filled(old(Memory()), view, entry, atEpoch, defaults) && rows == old(rows)
      ensures stored <==> atEpoch == epoch && defaults == entry.defaults
      ensures entries == if stored then old(entries)[view := entry] else old(entries)
    {
      stored := atEpoch == epoch && defaults == entry.defaults;
      if stored { entries := entries[view := entry]; }
    }

    method Mutate(view: View, c: Change) returns (changed: bool)
      modifies this
      ensures (rows, changed) == Mutated(old(rows), view, c) && Memory() == old(Memory())
    {
      if view !in rows && !Creates(c) { return false; }
      var values := Apply(c, if view in rows then rows[view] else map[]);
      if values.None? { return false; }
      if values.value != map[] {
        rows := rows[view := values.value];
      } else {
        rows := rows - {view};
      }
      changed := true;
    }
  }

  // --- The whole system ---

  datatype Stage =
    | Asked                           // before the first query
    | NoExactRow                      // the scoped row was absent, the legacy row comes next
    | Answered(row: Option<Settings>)
    | Built(entry: Entry)             // waiting to store

  datatype Reader = Reader(view: View, epoch: nat, stage: Stage)

  /** One deferred invalidation of transaction `txn`; None invalidates everything. */
  datatype Publication = Publication(txn: nat, target: Option<View>) {
    /** A legacy row, or everything, reaches all views. */
    predicate Covers(view: View) {
      target.None? || target.value.scope.None? || target.value == view
    }
  }

  /** `pending` maps each outstanding invalidation to whether its first half has run. */
  datatype Sys = Sys(rows: Rows, defaults: map<string, Settings>, cache: Cache, pending: map<Publication, bool>, readers: map<nat, Reader>) {
    function Defaults(view: View): Settings {
      if view.plugin in defaults then defaults[view.plugin] else map[]
    }
  }

  datatype Step =
    | Write(txn: nat, writes: seq<(View, Change)>)
    | BulkWrite(txn: nat, rows: Rows)
    | Begin(p: Publication)
    | End(p: Publication)
    | Fail(p: Publication)
    | Mark
    | Configure(plugin: string, values: Settings)
    | Evict(views: set<View>)
    | ReadBegin(id: nat, view: View)
    | ReadExact(id: nat)
    | ReadLegacy(id: nat)
    | ReadBuild(id: nat)
    | ReadFill(id: nat)

  ghost predicate Enabled(s: Sys, step: Step) {
    match step
    case Write(txn, _) => forall p | p in s.pending :: p.txn != txn
    case BulkWrite(txn, _) => forall p | p in s.pending :: p.txn != txn
    case Begin(p) => p in s.pending && !s.pending[p]
    case End(p) => p in s.pending && s.pending[p]
    case Fail(p) => p in s.pending
    case ReadBegin(id, _) => id !in s.readers
    case ReadExact(id) => id in s.readers && s.readers[id].stage.Asked?
    case ReadLegacy(id) => id in s.readers && s.readers[id].stage.NoExactRow?
    case ReadBuild(id) => id in s.readers && s.readers[id].stage.Answered?
    case ReadFill(id) => id in s.readers && s.readers[id].stage.Built?
    case _ => true
  }

  function ExactAnswer(rows: Rows, view: View): Stage {
    if view in rows then Answered(Some(rows[view]))
    else if view.scope.None? then Answered(None)
    else NoExactRow
  }

  /** One step; a step that is not enabled does nothing. */
  ghost function Do(s: Sys, step: Step): Sys {
    if !Enabled(s, step) then s
    else match step
      case Write(txn, writes) =>
        var (rows, touched) := MutatedAll(s.rows, writes);
        s.(rows := rows, pending := s.pending + map v | v in touched :: Publication(txn, Some(v)) := false)
      case BulkWrite(txn, rows) => s.(rows := rows, pending := s.pending[Publication(txn, None) := false])
      case Begin(p) => s.(cache := Bumped(s.cache, p.target), pending := s.pending[p := true])
      case End(p) => s.(cache := Dropped(s.cache, p.target), pending := s.pending - {p})
      case Fail(p) => s.(cache := MarkedStale(s.cache), pending := s.pending - {p})
      case Mark => s.(cache := MarkedStale(s.cache))
      case Configure(plugin, values) => s.(defaults := s.defaults[plugin := values])
      case Evict(views) => s.(cache := s.cache.(entries := s.cache.entries - views))
      case ReadBegin(id, view) => s.(readers := s.readers[id := Reader(view, s.cache.epoch, Asked)])
      case ReadExact(id) =>
        var r := s.readers[id];
        s.(readers := s.readers[id := r.(stage := ExactAnswer(s.rows, r.view))])
      case ReadLegacy(id) =>
        var r := s.readers[id];
        s.(readers := s.readers[id := r.(stage := Answered(Get(s.rows, r.view.Legacy())))])
      case ReadBuild(id) =>
        var r := s.readers[id];
        var d := s.Defaults(r.view);
        s.(readers := s.readers[id := r.(stage := Built(Entry(d, Merged(d, r.stage.row), s.cache.version)))])
      case ReadFill(id) =>
        var r := s.readers[id];
        s.(readers := s.readers - {id}, cache := Filled(s.cache, r.view, r.stage.entry, r.epoch, s.Defaults(r.view)))
  }

  ghost function Run(s: Sys, steps: seq<Step>): Sys
    decreases |steps|
  {
    if steps == [] then s else Run(Do(s, steps[0]), steps[1..])
  }

  function Boot(rows: Rows, defaults: map<string, Settings>): Sys {
    Sys(rows, defaults, Cache(0, 0, map[]), map[], map[])
  }

  /** The steps do to rows and cache what the methods do, and every write leaves its invalidations outstanding. */
  lemma StepsAreOperations(s: Sys, step: Step)
    ensures var t := Do(s, step);
            match step
            case Write(txn, writes) => (forall p | p in s.pending :: p.txn != txn) ==>
                  && t.rows == MutatedAll(s.rows, writes).0 && t.cache == s.cache
                  && forall v | v in MutatedAll(s.rows, writes).1 :: Get(t.pending, Publication(txn, Some(v))) == Some(false)
            case BulkWrite(txn, rows) =>
              (forall p | p in s.pending :: p.txn != txn) ==>
                t.rows == rows && t.cache == s.cache && Get(t.pending, Publication(txn, None)) == Some(false)
            case Begin(p) =>
              Get(s.pending, p) == Some(false) ==>
                t.cache == Bumped(s.cache, p.target) && Get(t.pending, p) == Some(true) && t.rows == s.rows
            case End(p) =>
              Get(s.pending, p) == Some(true) ==>
                t.cache == Dropped(s.cache, p.target) && p !in t.pending && t.rows == s.rows
            case Fail(p) => p in s.pending ==> t.cache == MarkedStale(s.cache) && p !in t.pending && t.rows == s.rows
            case Mark => t.cache == MarkedStale(s.cache)
            case Configure(plugin, values) => t.defaults == s.defaults[plugin := values] && t.cache == s.cache
            case Evict(views) => t.cache == s.cache.(entries := s.cache.entries - views)
            case ReadBegin(id, view) =>
              id !in s.readers ==>
                id in t.readers && t.readers[id] == Reader(view, s.cache.epoch, Asked)
            case ReadExact(id) =>
              id in s.readers && s.readers[id].stage.Asked? ==>
                id in t.readers && t.readers[id].stage == ExactAnswer(s.rows, s.readers[id].view)
            case ReadLegacy(id) =>
              id in s.readers && s.readers[id].stage.NoExactRow? ==>
                id in t.readers && t.readers[id].stage == Answered(Get(s.rows, s.readers[id].view.Legacy()))
            case ReadBuild(id) =>
              id in s.readers && s.readers[id].stage.Answered? ==>
                id in t.readers && t.readers[id].stage.Built? && t.readers[id].stage.entry.version == s.cache.version
            case ReadFill(id) => id in s.readers && s.readers[id].stage.Built? ==>
                  var r := s.readers[id];
                  t.cache == Filled(s.cache, r.view, r.stage.entry, r.epoch, s.Defaults(r.view)) && id !in t.readers
  {
  }

  // --- The invariant ---

  /** An outstanding invalidation will still drop this view. */
  ghost predicate Covered(s: Sys, view: View) {
    exists p | p in s.pending :: p.Covers(view)
  }

  /** An outstanding invalidation will still turn away the readers of this view. */
  ghost predicate Guarded(s: Sys, view: View) {
    exists p | p in s.pending :: p.Covers(view) && !s.pending[p]
  }

  ghost predicate EntryOk(s: Sys, view: View, e: Entry) {
    e.version <= s.cache.version && (e.version == s.cache.version ==> e.merged == Merged(e.defaults, Inherited(s.rows, view)))
  }

  /** A reader that may still store knows the present rows. */
  ghost predicate ReaderOk(s: Sys, r: Reader) {
    && r.epoch <= s.cache.epoch
    && (r.stage.Built? ==> r.stage.entry.version <= s.cache.version)
    && (r.stage.NoExactRow? ==> r.view.scope.Some?)
    && (r.epoch == s.cache.epoch && !Guarded(s, r.view) ==>
      match r.stage
      case Asked => true
      case NoExactRow => r.view !in s.rows
      case Answered(row) => row == Inherited(s.rows, r.view)
      case Built(e) => EntryOk(s, r.view, e))
  }

  ghost predicate Inv(s: Sys) {
    && (forall v | v in s.cache.entries :: s.cache.entries[v].version <= s.cache.version)
    && (forall v | v in s.cache.entries :: Covered(s, v) || EntryOk(s, v, s.cache.entries[v]))
    && (forall id | id in s.readers :: ReaderOk(s, s.readers[id]))
  }

  /** Rows that changed only where an invalidation is now outstanding. */
  lemma RowsChanged(s: Sys, t: Sys)
    requires Inv(s)
    requires t.cache == s.cache && t.readers == s.readers && t.defaults == s.defaults
    requires forall p | p in s.pending :: p in t.pending && t.pending[p] == s.pending[p]
    requires forall v :: Guarded(t, v) || (Get(t.rows, v) == Get(s.rows, v) && Inherited(t.rows, v) == Inherited(s.rows, v))
    ensures Inv(t)
  {
    forall v ensures (Guarded(s, v) ==> Guarded(t, v)) && (Covered(s, v) ==> Covered(t, v)) && (Guarded(t, v) ==> Covered(t, v)) {
    }
    forall id | id in t.readers ensures ReaderOk(t, t.readers[id]) {
      var r := s.readers[id];
      assert ReaderOk(s, r);
      assert Guarded(t, r.view) || Get(t.rows, r.view) == Get(s.rows, r.view);
    }
  }

  lemma WriteKeeps(s: Sys, txn: nat, writes: seq<(View, Change)>)
    requires Inv(s) && Enabled(s, Write(txn, writes))
    ensures Inv(Do(s, Write(txn, writes)))
  {
    var t := Do(s, Write(txn, writes));
    var (rows, touched) := MutatedAll(s.rows, writes);
    WritesStayInTheirView(s.rows, writes);
    forall v ensures Guarded(t, v) || (Get(t.rows, v) == Get(s.rows, v) && Inherited(t.rows, v) == Inherited(s.rows, v)) {
      if v in touched {
        assert Publication(txn, Some(v)) in t.pending && Publication(txn, Some(v)).Covers(v);
      } else if v.Legacy() in touched {
        assert Publication(txn, Some(v.Legacy())) in t.pending && Publication(txn, Some(v.Legacy())).Covers(v);
      } else {
        assert Get(t.rows, v) == Get(s.rows, v) && Get(t.rows, v.Legacy()) == Get(s.rows, v.Legacy());
      }
    }
    RowsChanged(s, t);
  }

  lemma BulkWriteKeeps(s: Sys, txn: nat, rows: Rows)
    requires Inv(s) && Enabled(s, BulkWrite(txn, rows))
    ensures Inv(Do(s, BulkWrite(txn, rows)))
  {
    var t := Do(s, BulkWrite(txn, rows));
    var p := Publication(txn, None);
    forall v ensures Guarded(t, v) { assert p in t.pending && p.Covers(v); }
    RowsChanged(s, t);
  }

  lemma BeginKeeps(s: Sys, p: Publication)
    requires Inv(s) && Enabled(s, Begin(p))
    ensures Inv(Do(s, Begin(p)))
  {
    var t := Do(s, Begin(p));
    forall v | v in t.cache.entries ensures Covered(t, v) || EntryOk(t, v, t.cache.entries[v]) {
      if Covered(s, v) {
        var q :| q in s.pending && q.Covers(v);
        assert q in t.pending;
      }
    }
    forall id | id in t.readers ensures ReaderOk(t, t.readers[id]) { assert ReaderOk(s, s.readers[id]); }
  }

  lemma EndKeeps(s: Sys, p: Publication)
    requires Inv(s) && Enabled(s, End(p))
    ensures Inv(Do(s, End(p)))
  {
    var t := Do(s, End(p));
    forall v | v in t.cache.entries ensures Covered(t, v) || EntryOk(t, v, t.cache.entries[v]) {
      if Covered(s, v) {
        var q :| q in s.pending && q.Covers(v);
        assert q != p;
        assert q in t.pending;
      }
    }
    forall id | id in t.readers ensures ReaderOk(t, t.readers[id]) {
      var r := s.readers[id];
      assert ReaderOk(s, r);
      if Guarded(s, r.view) {
        var q :| q in s.pending && q.Covers(r.view) && !s.pending[q];
        assert q in t.pending;
      }
    }
  }

  lemma FailKeeps(s: Sys, p: Publication)
    requires Inv(s) && Enabled(s, Fail(p))
    ensures Inv(Do(s, Fail(p)))
  {
    var t := Do(s, Fail(p));
    forall id | id in t.readers ensures ReaderOk(t, t.readers[id]) { assert ReaderOk(s, s.readers[id]); }
  }

  lemma FillKeeps(s: Sys, id: nat)
    requires Inv(s) && Enabled(s, ReadFill(id))
    ensures Inv(Do(s, ReadFill(id)))
  {
    var t := Do(s, ReadFill(id));
    var r := s.readers[id];
    assert ReaderOk(s, r);
    assert Guarded(s, r.view) ==> Covered(s, r.view);
    forall v | v in t.cache.entries ensures Covered(t, v) || EntryOk(t, v, t.cache.entries[v]) {
      assert Covered(t, v) == Covered(s, v);
    }
    forall i | i in t.readers ensures ReaderOk(t, t.readers[i]) {
      assert ReaderOk(s, s.readers[i]);
      assert Guarded(t, s.readers[i].view) == Guarded(s, s.readers[i].view);
    }
  }

  /** The steps that touch neither rows nor invalidations nor readers, nor store anything. */
  lemma CacheStepKeeps(s: Sys, step: Step)
    requires Inv(s) && (step.Mark? || step.Configure? || step.Evict?)
    ensures Inv(Do(s, step))
  {
    var t := Do(s, step);
    forall v | v in t.cache.entries ensures Covered(t, v) || EntryOk(t, v, t.cache.entries[v]) {
      assert Covered(t, v) == Covered(s, v);
    }
    forall i | i in t.readers ensures ReaderOk(t, t.readers[i]) {
      assert Guarded(t, t.readers[i].view) == Guarded(s, t.readers[i].view);
      assert ReaderOk(s, s.readers[i]);
    }
  }

  /** One reader goes on. */
  lemma ReaderChanges(s: Sys, id: nat, r: Reader)
    requires Inv(s) && ReaderOk(s, r)
    ensures Inv(s.(readers := s.readers[id := r]))
  {
    var t := s.(readers := s.readers[id := r]);
    forall v | v in t.cache.entries ensures Covered(t, v) || EntryOk(t, v, t.cache.entries[v]) {
      assert Covered(t, v) == Covered(s, v);
    }
    forall i | i in t.readers ensures ReaderOk(t, t.readers[i]) {
      assert Guarded(t, t.readers[i].view) == Guarded(s, t.readers[i].view);
      assert i != id ==> ReaderOk(s, s.readers[i]);
    }
  }

  lemma ReaderStepKeeps(s: Sys, step: Step)
    requires Inv(s) && Enabled(s, step)
    requires step.ReadBegin? || step.ReadExact? || step.ReadLegacy? || step.ReadBuild?
    ensures Inv(Do(s, step))
  {
    assert step.id in s.readers ==> ReaderOk(s, s.readers[step.id]);
    ReaderChanges(s, step.id, Do(s, step).readers[step.id]);
  }

  lemma {:induction false} RunKeeps(s: Sys, steps: seq<Step>)
    requires Inv(s)
    ensures Inv(Run(s, steps))
    decreases |steps|
  {
    if steps != [] {
      var step := steps[0];
      if Enabled(s, step) {
        match step
        case Write(txn, writes) => WriteKeeps(s, txn, writes);
        case BulkWrite(txn, rows) => BulkWriteKeeps(s, txn, rows);
        case Begin(p) => BeginKeeps(s, p);
        case End(p) => EndKeeps(s, p);
        case Fail(p) => FailKeeps(s, p);
        case ReadFill(id) => FillKeeps(s, id);
        case Mark => CacheStepKeeps(s, step);
        case Configure(_, _) => CacheStepKeeps(s, step);
        case Evict(_) => CacheStepKeeps(s, step);
        case _ => ReaderStepKeeps(s, step);
      }
      RunKeeps(Do(s, step), steps[1..]);
    }
  }

  /** The row a view reads, key by key: its own row if it has one, else the legacy row of the group; what
      the row lacks is the default. */
  function Effective(rows: Rows, defaults: Settings, view: View, k: string): Option<string> {
    var legacy := View(view.group, view.plugin, None);
    if view in rows then (if k in rows[view] then Some(rows[view][k]) else Get(defaults, k))
    else if legacy in rows then (if k in rows[legacy] then Some(rows[legacy][k]) else Get(defaults, k))
    else Get(defaults, k)
  }

  lemma MergedIsEffective(rows: Rows, defaults: Settings, view: View, k: string)
    ensures Get(Merged(defaults, Inherited(rows, view)), k) == Effective(rows, defaults, view, k)
  {
    MergedAt(defaults, Inherited(rows, view), k);
    assert view.scope.None? ==> view == View(view.group, view.plugin, None);
  }

  /** In every run, a cached view that a reader takes while no invalidation of it is outstanding has, key by
      key, the value of the exact row, else of the legacy row, else the default. */
  lemma AcceptedIsCurrent(rows: Rows, defaults: map<string, Settings>, steps: seq<Step>, view: View, k: string)
    ensures var s := Run(Boot(rows, defaults), steps);
            Accepts(s.cache, s.Defaults(view), view) && !Covered(s, view) ==>
              Get(s.cache.entries[view].merged, k) == Effective(s.rows, s.Defaults(view), view, k)
  {
    RunKeeps(Boot(rows, defaults), steps);
    var s := Run(Boot(rows, defaults), steps);
    MergedIsEffective(s.rows, s.Defaults(view), view, k);
  }

  // --- Views are cached again ---

  function Stored(s: Sys, view: View): Sys {
    s.(cache := s.cache.(entries := s.cache.entries[view := Fresh(s, view)]))
  }

  /** The steps of one reader, with the query for the legacy row where it is made. */
  function ReadSteps(s: Sys, id: nat, view: View): seq<Step> {
    if view in s.rows || view.scope.None? then [ReadBegin(id, view), ReadExact(id), ReadBuild(id), ReadFill(id)]
    else [ReadBegin(id, view), ReadExact(id), ReadLegacy(id), ReadBuild(id), ReadFill(id)]
  }

  function Holding(s: Sys, id: nat, view: View, stage: Stage): Sys {
    s.(readers := s.readers[id := Reader(view, s.cache.epoch, stage)])
  }

  lemma ReaderAnswers(s: Sys, id: nat, view: View)
    requires id !in s.readers
    ensures var asked := Do(s, ReadBegin(id, view));
            && asked == Holding(s, id, view, Asked)
            && Do(asked, ReadExact(id)) == Holding(s, id, view, ExactAnswer(s.rows, view))
            && (ExactAnswer(s.rows, view).NoExactRow? ==>
                  Do(Holding(s, id, view, NoExactRow), ReadLegacy(id)) == Holding(s, id, view, Answered(Inherited(s.rows, view))))
  {
    assert s.readers[id := Reader(view, s.cache.epoch, Asked)][id := Reader(view, s.cache.epoch, ExactAnswer(s.rows, view))]
        == s.readers[id := Reader(view, s.cache.epoch, ExactAnswer(s.rows, view))];
    assert s.readers[id := Reader(view, s.cache.epoch, NoExactRow)][id := Reader(view, s.cache.epoch, Answered(Inherited(s.rows, view)))]
        == s.readers[id := Reader(view, s.cache.epoch, Answered(Inherited(s.rows, view)))];
  }

  function Fresh(s: Sys, view: View): Entry {
    Entry(s.Defaults(view), Merged(s.Defaults(view), Inherited(s.rows, view)), s.cache.version)
  }

  lemma ReaderBuilds(s: Sys, id: nat, view: View)
    requires id !in s.readers
    ensures Do(Holding(s, id, view, Answered(Inherited(s.rows, view))), ReadBuild(id)) == Holding(s, id, view, Built(Fresh(s, view)))
  {
    assert Holding(s, id, view, Answered(Inherited(s.rows, view))).readers[id := Reader(view, s.cache.epoch, Built(Fresh(s, view)))]
        == Holding(s, id, view, Built(Fresh(s, view))).readers;
  }

  lemma ReaderFills(s: Sys, id: nat, view: View)
    requires id !in s.readers
    ensures Do(Holding(s, id, view, Built(Fresh(s, view))), ReadFill(id)) == Stored(s, view)
  {
    assert Holding(s, id, view, Built(Fresh(s, view))).readers - {id} == s.readers;
  }

  lemma ReadRuns(s: Sys, id: nat, view: View)
    requires id !in s.readers
    ensures Run(s, ReadSteps(s, id, view)) == Stored(s, view)
  {
    var steps := ReadSteps(s, id, view);
    var exact := Holding(s, id, view, ExactAnswer(s.rows, view));
    ReaderAnswers(s, id, view);
    RunOne(s, steps);
    RunOne(Do(s, steps[0]), steps[1..]);
    assert steps[1..][1..] == steps[2..];
    if |steps| == 5 {
      RunOne(exact, steps[2..]);
      assert steps[2..][1..] == [ReadBuild(id), ReadFill(id)];
    } else {
      assert steps[2..] == [ReadBuild(id), ReadFill(id)];
    }
    RunOfTwo(Holding(s, id, view, Answered(Inherited(s.rows, view))), [ReadBuild(id), ReadFill(id)]);
    ReaderBuilds(s, id, view);
    ReaderFills(s, id, view);
  }

  /** A reader that nothing disturbs leaves its view cached and accepted, key by key as the rows have it, and
      the other views as they were. */
  lemma ReadIsCached(s: Sys, id: nat, view: View, k: string)
    requires id !in s.readers
    ensures var t := Run(s, ReadSteps(s, id, view));
            && Accepts(t.cache, t.Defaults(view), view)
            && Get(t.cache.entries[view].merged, k) == Effective(t.rows, t.Defaults(view), view, k)
            && forall v :: v != view ==> Get(t.cache.entries, v) == Get(s.cache.entries, v)
  {
    ReadRuns(s, id, view);
    MergedIsEffective(s.rows, s.Defaults(view), view, k);
  }

  lemma RunOne(s: Sys, steps: seq<Step>)
    requires steps != []
    ensures Run(s, steps) == Run(Do(s, steps[0]), steps[1..])
  {
  }

  lemma RunOfTwo(s: Sys, steps: seq<Step>)
    requires |steps| == 2
    ensures Run(s, steps) == Do(Do(s, steps[0]), steps[1])
  {
    var t := Do(s, steps[0]);
    assert steps[1..] == [steps[1]] && Run(t, steps[1..]) == Run(Do(t, steps[1]), []);
  }
}
