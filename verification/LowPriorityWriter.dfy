/** The bounded, lossy queue in front of low-priority database writes. */
module LowPriorityWriter {
  import opened Wrappers

  type Record = string

  const POLL_INTERVAL: real := 1.0

  datatype Config = Config(batchSize: nat, triggerSize: nat, maxRetain: nat, flushInterval: real,
                           maxItemsPerCycle: int, backoffBase: real, backoffMax: real) {
    /** What registration checks. */
    predicate Valid() { batchSize > 0 && triggerSize > 0 && maxRetain > 0 }
  }

  datatype Outcome = Success | TimedOut | Failed

  ghost predicate Ascending(s: seq<nat>) {
    forall i, j :: 0 <= i < j < |s| ==> s[i] < s[j]
  }

  function Pow2(n: nat): real {
    if n == 0 then 1.0 else 2.0 * Pow2(n - 1)
  }

  /** The pause after the `failures`-th failure in a row: doubled each time, up to a limit. */
  function Backoff(c: Config, failures: nat): real
    requires failures > 0
  {
    var b := c.backoffBase * Pow2(failures - 1);
    if b < c.backoffMax then b else c.backoffMax
  }

  lemma BackoffDoublesUpToLimit(c: Config, failures: nat)
    requires failures > 0 && c.backoffMax >= 0.0
    ensures var twice := 2.0 * Backoff(c, failures);
            Backoff(c, failures + 1) == if twice < c.backoffMax then twice else c.backoffMax
    ensures Backoff(c, 1) == if c.backoffBase < c.backoffMax then c.backoffBase else c.backoffMax
  {
    assert c.backoffBase * Pow2(failures) == 2.0 * (c.backoffBase * Pow2(failures - 1));
  }

  // --- When a writer is due ---

  /** What decides when a writer is flushed: how much waits and is being written, and the times. */
  datatype Timing = Timing(size: nat, flight: nat, failures: nat, backoffUntil: real, lastFlushAt: real)

  function DueAt(c: Config, w: Timing): real {
    if w.size >= c.triggerSize || w.backoffUntil >= w.lastFlushAt + c.flushInterval then w.backoffUntil
    else w.lastFlushAt + c.flushInterval
  }

  /** It is the first moment past the backoff at which enough waits, or the interval is over. */
  lemma DueAtIsFirst(c: Config, w: Timing, t: real)
    ensures t >= DueAt(c, w) <==> t >= w.backoffUntil && (w.size >= c.triggerSize || t - w.lastFlushAt >= c.flushInterval)
  {
  }

  function Appended(c: Config, w: Timing): Timing {
    w.(size := if w.size < c.maxRetain then w.size + 1 else w.size)
  }

  /** Whether an append that leaves this asks to wake the worker. */
  predicate Wakes(c: Config, w: Timing) {
    w.size == 1 || w.size >= c.triggerSize
  }

  function Taken(c: Config, w: Timing): Timing {
    var n := if w.size < c.batchSize then w.size else c.batchSize;
    w.(size := w.size - n, flight := n)
  }

  /** After the write of a batch; a failed one goes back in front as far as there is room. */
  function Settled(c: Config, w: Timing, outcome: Outcome, now: real): Timing {
    if outcome == Success then Timing(w.size, 0, 0, 0.0, now)
    else
      var restored := if outcome == TimedOut then 0 else if w.size + w.flight <= c.maxRetain then w.flight
                      else if w.size <= c.maxRetain then c.maxRetain - w.size else 0;
      Timing(w.size + restored, 0, w.failures + 1, now + Backoff(c, w.failures + 1), w.lastFlushAt)
  }

  // --- One writer ---

  /** `s` without the positions from `a` up to `b`. */
  ghost function Cut(s: seq<nat>, a: nat, b: nat): (r: seq<nat>)
    requires a <= b <= |s|
    ensures |r| == |s| - (b - a) && r[..a] == s[..a] && r[a..] == s[b..]
    ensures forall i :: 0 <= i < |r| ==> r[i] == s[if i < a then i else i + b - a]
    ensures Ascending(s) ==> Ascending(r)
  {
    s[..a] + s[b..]
  }

  /** From position `at` on, `kept` names the records `records` and nothing else. */
  ghost predicate Names(kept: seq<nat>, at: nat, records: seq<Record>, appended: seq<Record>) {
    && |kept| == at + |records|
    && (forall i :: 0 <= i < |kept| ==> kept[i] < |appended|)
    && (forall i :: at <= i < |kept| ==> records[i - at] == appended[kept[i]])
  }

  /** Dropping some of them. */
  lemma DropNamed(kept: seq<nat>, at: nat, records: seq<Record>, appended: seq<Record>, a: nat, b: nat)
    requires Names(kept, at, records, appended) && a <= b <= |records|
    ensures Names(Cut(kept, at + a, at + b), at, records[..a] + records[b..], appended)
  {
  }

  /** Dropping the oldest `n` of a batch in front of the others. */
  lemma DropFirst(kept: seq<nat>, at: nat, batch: seq<Record>, rest: seq<Record>, appended: seq<Record>, n: nat)
    requires Names(kept, at, batch + rest, appended) && n <= |batch|
    ensures Names(Cut(kept, at, at + n), at, batch[n..] + rest, appended)
  {
    var all := batch + rest;
    assert forall i :: 0 <= i < |all| - n ==> (batch[n..] + rest)[i] == all[i + n];
  }

  lemma AppendNamed(kept: seq<nat>, at: nat, records: seq<Record>, appended: seq<Record>, r: Record)
    requires Names(kept, at, records, appended) && Ascending(kept)
    ensures Names(kept + [|appended|], at, records + [r], appended + [r]) && Ascending(kept + [|appended|])
  {
  }

  /** The last `n` records of a batch; all of it when `n` is larger. */
  function Tail<T>(s: seq<T>, n: nat): (r: seq<T>)
    ensures |r| <= |s| && r == s[|s| - |r|..]
  {
    if n <= |s| then s[|s| - n..] else s
  }

  class Writer {
    const config: Config
    var buffer: seq<Record>
    var dropped: nat
    var failures: nat
    var backoffUntil: real
    var lastFlushAt: real
    // Every record appended so far, and the positions in it of the records that were not dropped:
    // `done` of them written, then those of the batch being written, then those waiting.
    ghost var appended: seq<Record>
    ghost var kept: seq<nat>
    ghost var done: nat
    ghost var flight: seq<Record>

    /** Nothing is lost uncounted; what was written, is being written and waits is in the order of
        arrival, no record twice. */
    ghost predicate Valid()
      reads this
    {
      && config.Valid()
      && |buffer| <= config.maxRetain
      && |appended| == |kept| + dropped
      && Ascending(kept) && Names(kept, done, flight + buffer, appended)
    }

    /** Unless more was dropped, what was kept is kept, in its place. */
    ghost predicate Keeps(before: seq<nat>, lost: nat)
      reads this
    {
      dropped == lost ==> before <= kept
    }

    ghost function View(): Timing
      reads this
    {
      Timing(|buffer|, |flight|, failures, backoffUntil, lastFlushAt)
    }

    /** The positions of the records that reached the database, in the order they were written. */
    ghost function Written(): seq<nat>
      requires Valid()
      reads this
    {
      kept[..done]
    }

    constructor (config: Config, now: real)
      requires config.Valid()
      ensures Valid() && this.config == config
      ensures View() == Timing(0, 0, 0, 0.0, now) && appended == []
    {
      this.config := config;
      buffer, dropped, failures, backoffUntil, lastFlushAt := [], 0, 0, 0.0, now;
      appended, kept, done, flight := [], [], 0, [];
    }

    /** The worker would flush this writer at time `t`. */
    predicate Due(t: real)
      reads this
      ensures Due(t) <==> buffer != [] && t >= DueAt(config, View())
    {
      buffer != [] && t >= backoffUntil && (|buffer| >= config.triggerSize || t - lastFlushAt >= config.flushInterval)
    }

    method DropOldest()
      requires Valid() && buffer != []
      modifies this`buffer, this`dropped, this`kept
      ensures Valid() && Written() == old(Written())
      ensures buffer == old(buffer)[1..] && dropped == old(dropped) + 1
    {
      ghost var k := |flight|;
      DropNamed(kept, done, flight + buffer, appended, k, k + 1);
      assert (flight + buffer)[..k] + (flight + buffer)[k + 1..] == flight + buffer[1..];
      kept := Cut(kept, done + k, done + k + 1);
      buffer := buffer[1..];
      dropped := dropped + 1;
    }

    /** Appends one record, dropping the oldest waiting one when full.  Unless it asks to wake the
        worker, it does not change when this writer is due. */
    method Append(r: Record) returns (wake: bool)
      requires Valid()
      modifies this`buffer, this`dropped, this`appended, this`kept
      ensures Valid() && Written() == old(Written()) && appended == old(appended) + [r]
      ensures buffer == (if |old(buffer)| < config.maxRetain then old(buffer) else old(buffer)[1..]) + [r]
      ensures dropped == old(dropped) + if |old(buffer)| < config.maxRetain then 0 else 1
      ensures Keeps(old(kept), old(dropped))
      ensures View() == Appended(config, old(View())) && (wake <==> Wakes(config, View()))
      ensures !wake ==> forall t: real :: Due(t) == old(Due(t))
    {
      if |buffer| >= config.maxRetain { DropOldest(); }
      AppendNamed(kept, done, flight + buffer, appended, r);
      assert flight + buffer + [r] == flight + (buffer + [r]);
      buffer, kept, appended := buffer + [r], kept + [|appended|], appended + [r];
      wake := |buffer| == 1 || |buffer| >= config.triggerSize;
    }

    /** Takes up to `batchSize` of the oldest records out of the buffer. */
    method TakeBatch() returns (batch: seq<Record>)
      requires Valid() && flight == []
      modifies this`buffer, this`flight
      ensures Valid() && Written() == old(Written()) && batch + buffer == old(buffer) && flight == batch
      ensures |batch| == if |old(buffer)| < config.batchSize then |old(buffer)| else config.batchSize
      ensures View() == Taken(config, old(View()))
    {
      batch := [];
      while buffer != [] && |batch| < config.batchSize
        invariant batch + buffer == old(buffer) && |batch| <= config.batchSize
        decreases |buffer|
      {
        batch, buffer := batch + [buffer[0]], buffer[1..];
      }
      flight := batch;
    }

    /** The batch reached the database. */
    method MarkSuccess(batch: seq<Record>, now: real)
      requires Valid() && batch == flight
      modifies this`failures, this`backoffUntil, this`lastFlushAt, this`done, this`flight
      ensures Valid() && flight == []
      ensures |Written()| == |old(Written())| + |batch| && old(Written()) <= Written()
      ensures forall i :: 0 <= i < |batch| ==> appended[Written()[|old(Written())| + i]] == batch[i]
      ensures failures == 0 && backoffUntil == 0.0 && lastFlushAt == now
      ensures View() == Settled(config, old(View()), Success, now)
    {
      failures, backoffUntil, lastFlushAt := 0, 0.0, now;
      done, flight := done + |batch|, [];
    }

    /** The batch may or may not have been written: it is given up and counted as dropped. */
    method MarkUncertainTimeout(batch: seq<Record>, now: real)
      requires Valid() && batch == flight
      modifies this`failures, this`backoffUntil, this`dropped, this`flight, this`kept
      ensures Valid() && flight == [] && Written() == old(Written()) && dropped == old(dropped) + |batch|
      ensures failures == old(failures) + 1 && backoffUntil == now + Backoff(config, failures)
      ensures View() == Settled(config, old(View()), TimedOut, now) && Keeps(old(kept), old(dropped))
    {
      failures := failures + 1;
      backoffUntil := now + Backoff(config, failures);
      dropped := dropped + |batch|;
      LoseFirst(batch, |batch|);
      flight := [];
    }

    /** The oldest records of the batch are given up. */
    ghost method LoseFirst(batch: seq<Record>, lost: nat)
      requires lost <= |batch| && Ascending(kept) && Names(kept, done, batch + buffer, appended)
      modifies this`kept
      ensures Ascending(kept) && |kept| == |old(kept)| - lost && kept[..done] == old(kept)[..done]
      ensures Names(kept, done, batch[lost..] + buffer, appended)
      ensures lost == 0 ==> kept == old(kept)
    {
      DropFirst(kept, done, batch, buffer, appended, lost);
      if lost > 0 { kept := Cut(kept, done, done + lost); } else { assert batch[0..] == batch; }
    }

    /** Puts the newest records of a failed batch back in front, as many as there is room for. */
    method RestoreBatch(batch: seq<Record>)
      requires Valid() && batch == flight
      modifies this`buffer, this`dropped, this`flight, this`kept
      ensures Valid() && flight == [] && Written() == old(Written())
      ensures buffer == Tail(batch, config.maxRetain - |old(buffer)|) + old(buffer)
      ensures dropped == old(dropped) + |batch| - |Tail(batch, config.maxRetain - |old(buffer)|)|
      ensures Keeps(old(kept), old(dropped))
    {
      var restored := Tail(batch, config.maxRetain - |buffer|);
      var lost := |batch| - |restored|;
      LoseFirst(batch, lost);
      buffer, flight := restored + buffer, [];
      dropped := dropped + lost;
    }

    method MarkFailure(now: real)
      requires Valid()
      modifies this`failures, this`backoffUntil
      ensures Valid() && Written() == old(Written())
      ensures failures == old(failures) + 1 && backoffUntil == now + Backoff(config, failures)
    {
      failures := failures + 1;
      backoffUntil := now + Backoff(config, failures);
    }

    /** A failed write: the batch goes back in front, and the writer pauses. */
    method GoBack(batch: seq<Record>, now: real)
      requires Valid() && batch == flight
      modifies this`buffer, this`dropped, this`flight, this`kept, this`failures, this`backoffUntil
      ensures Valid() && flight == [] && Written() == old(Written()) && dropped >= old(dropped)
      ensures failures == old(failures) + 1 && View() == Settled(config, old(View()), Failed, now)
      ensures Keeps(old(kept), old(dropped))
    {
      RestoreBatch(batch);
      MarkFailure(now);
    }

    /** Other tasks append while a batch is being written. */
    method Arrive(records: seq<Record>)
      requires Valid()
      modifies this`buffer, this`dropped, this`appended, this`kept
      ensures Valid() && Written() == old(Written()) && appended == old(appended) + records
      ensures |buffer| <= |old(buffer)| + |records| && dropped >= old(dropped)
      ensures |old(buffer)| + |records| <= config.maxRetain ==> dropped == old(dropped)
      ensures Keeps(old(kept), old(dropped))
    {
      for i := 0 to |records|
        invariant Valid() && Written() == old(Written()) && appended == old(appended) + records[..i]
        invariant |buffer| <= |old(buffer)| + i && dropped >= old(dropped)
        invariant |old(buffer)| + |records| <= config.maxRetain ==> dropped == old(dropped)
        invariant Keeps(old(kept), old(dropped))
      {
        assert records[..i + 1] == records[..i] + [records[i]];
        var _ := Append(records[i]);
      }
      assert records[..|records|] == records;
    }

    /** One batch: taken, written while `meanwhile` arrives, and settled by its outcome.  `go` tells
        whether the flush goes on, `count` what was written. */
    method FlushBatch(meanwhile: seq<Record>, outcome: Outcome) returns (go: bool, count: nat)
      requires Valid() && flight == []
      modifies this
      ensures Valid() && flight == []
      ensures old(appended) <= appended && old(Written()) <= Written() && dropped >= old(dropped)
      ensures count == |Written()| - |old(Written())|
      ensures go <==> old(buffer) != [] && outcome == Success
      ensures go ==>
        count == Fewer(|old(buffer)|, config.batchSize) && failures == 0 && |buffer| + count <= |old(buffer)| + |meanwhile|
      ensures !go ==> count == 0 && failures == old(failures) + if old(buffer) == [] then 0 else 1
      ensures old(buffer) == [] ==> buffer == [] && View() == old(View()) && dropped == old(dropped)
      ensures Keeps(old(kept), old(dropped))
      ensures go && |old(buffer)| + |meanwhile| <= config.maxRetain ==> dropped == old(dropped)
    {
      count := 0;
      var batch := TakeBatch();
      assert |batch| + |buffer| == |old(buffer)|;
      if batch == [] { return false, 0; }
      Arrive(meanwhile);
      var now: real := *;
      go := outcome == Success;
      count := Settle(batch, outcome, now);
    }

    /** What follows the write of a batch, by its outcome; `count` is what was written. */
    method Settle(batch: seq<Record>, outcome: Outcome, now: real) returns (count: nat)
      requires Valid() && batch == flight
      modifies this
      ensures Valid() && flight == [] && appended == old(appended)
      ensures old(Written()) <= Written() && |Written()| == |old(Written())| + count && dropped >= old(dropped)
      ensures if outcome == Success then count == |batch| && failures == 0 && buffer == old(buffer) && dropped == old(dropped)
              else count == 0 && failures == old(failures) + 1
      ensures Keeps(old(kept), old(dropped))
      ensures View() == Settled(config, old(View()), outcome, now)
    {
      count := 0;
      match outcome {
        case TimedOut =>
          MarkUncertainTimeout(batch, now);
        case Failed =>
          GoBack(batch, now);
        case Success =>
          count := |batch|;
          MarkSuccess(batch, now);
      }
    }

    /** A flush goes to work: it is forced, or neither paused nor in backoff and allowed to write at all. */
    predicate GoesToWork(force: bool, paused: bool, now: real)
      reads this`backoffUntil
    {
      force || (!paused && now >= backoffUntil && config.maxItemsPerCycle > 0)
    }

    /** Flushes batch by batch, under every schedule of arrivals during the writes and every sequence of
        outcomes.  `count` is what was written. */
    method Flush(force: bool, paused: bool, now: real, arrivals: seq<seq<Record>>, outcomes: nat -> Outcome) returns (count: nat)
      requires Valid() && flight == []
      modifies this
      ensures Valid() && flight == []
      ensures old(appended) <= appended && old(Written()) <= Written() && dropped >= old(dropped)
      ensures count == |Written()| - |old(Written())|
      ensures !force ==> count == 0 || count < config.maxItemsPerCycle + config.batchSize
      ensures failures <= 1 + if count == 0 then old(failures) else 0
      // Nothing happens exactly when it does not go to work or nothing waits.
      ensures !old(GoesToWork(force, paused, now)) || old(buffer) == [] ==>
        count == 0 && buffer == old(buffer) && View() == old(View()) && dropped == old(dropped)
      ensures old(GoesToWork(force, paused, now)) && old(buffer) != [] ==>
        if outcomes(0) == Success then count >= Fewer(|old(buffer)|, config.batchSize)
        else count == 0 && failures == old(failures) + 1
      // If the writes succeed, everything is written, or as much as one cycle may write.
      ensures old(GoesToWork(force, paused, now)) && (forall i: nat :: outcomes(i) == Success) ==>
        buffer == [] || (!force && count >= config.maxItemsPerCycle)
      ensures Keeps(old(kept), old(dropped))
      ensures buffer == [] && dropped == old(dropped) ==> old(kept) <= Written()
      ensures (forall i: nat :: outcomes(i) == Success) && |old(buffer)| + Total(arrivals) <= config.maxRetain ==>
        dropped == old(dropped)
    {
      count := 0;
      if !force && (paused || now < backoffUntil) { return; }
      var left := arrivals;
      var go := true;
      var i := 0;
      ghost var well := forall k: nat :: outcomes(k) == Success;
      while go && (force || count < config.maxItemsPerCycle)
        invariant Valid() && flight == []
        invariant old(appended) <= appended && old(Written()) <= Written() && dropped >= old(dropped)
        invariant count == |Written()| - |old(Written())|
        invariant !force ==> count == 0 || count < config.maxItemsPerCycle + config.batchSize
        invariant go ==> failures == if count == 0 then old(failures) else 0
        invariant failures <= 1 + if count == 0 then old(failures) else 0
        invariant i == 0 || old(buffer) == [] ==>
          count == 0 && buffer == old(buffer) && View() == old(View()) && dropped == old(dropped)
        invariant if i == 0 then go else old(GoesToWork(force, paused, now)) && (old(buffer) == [] ==> !go)
        invariant i > 0 && old(buffer) != [] ==>
          if outcomes(0) == Success then count >= Fewer(|old(buffer)|, config.batchSize)
          else !go && count == 0 && failures == old(failures) + 1
        invariant well && !go ==> buffer == []
        invariant Keeps(old(kept), old(dropped))
        invariant well ==> |buffer| + Total(left) <= |old(buffer)| + Total(arrivals)
        invariant well && |old(buffer)| + Total(arrivals) <= config.maxRetain ==> dropped == old(dropped)
        decreases go, Total(left) + |buffer|
      {
        var meanwhile := if left == [] then [] else left[0];
        left := if left == [] then [] else left[1..];
        var n;
        go, n := FlushBatch(meanwhile, outcomes(i));
        count := count + n;
        i := i + 1;
      }
    }
  }

  function Fewer(a: nat, b: nat): nat { if a < b then a else b }

  function Total(s: seq<seq<Record>>): nat {
    if s == [] then 0 else |s[0]| + Total(s[1..])
  }

  /** How long the worker may sleep: until the first writer is due, and forever when nothing waits. */
  method NextWait(writers: seq<Writer>, paused: bool, now: real) returns (wait: Option<real>)
    ensures paused ==> wait == Some(POLL_INTERVAL)
    ensures !paused ==> (wait.None? <==> forall w | w in writers :: w.buffer == [])
    ensures !paused && wait.Some? ==>
      && wait.value >= 0.0
      && (exists w :: w in writers && w.Due(now + wait.value))
      && (forall w, t: real | w in writers && now <= t < now + wait.value :: !w.Due(t))
      && (wait.value == 0.0 || forall w | w in writers && w.buffer != [] :: now + wait.value <= DueAt(w.config, w.View()))
  {
    if paused { return Some(POLL_INTERVAL); }
    var due: Option<real> := None;
    ghost var first: Option<Writer> := None;
    for i := 0 to |writers|
      invariant due.None? <==> forall j :: 0 <= j < i ==> writers[j].buffer == []
      invariant due.Some? ==> forall j, t: real | 0 <= j < i && t < due.value :: !writers[j].Due(t)
      invariant due.Some? ==> forall j | 0 <= j < i && writers[j].buffer != [] :: due.value <= DueAt(writers[j].config, writers[j].View())
      invariant due.Some? ==> first.Some? && first.value in writers && forall t: real :: t >= due.value ==> first.value.Due(t)
    {
      var w := writers[i];
      if w.buffer != [] {
        var at := w.backoffUntil;
        if |w.buffer| < w.config.triggerSize && w.lastFlushAt + w.config.flushInterval > at {
          at := w.lastFlushAt + w.config.flushInterval;
        }
        assert forall t: real :: w.Due(t) <==> t >= at;
        if due.None? || at < due.value { due, first := Some(at), Some(w); }
      }
    }
    if due.None? { return None; }
    wait := Some(if due.value > now then due.value - now else 0.0);
    assert first.value.Due(now + wait.value);
  }
}
