/** The worker that flushes the low-priority writers: it sleeps until the first of them is due and is
    woken by appends. Other tasks flush as well; one lock keeps the flushes apart. */
module LowPriorityWorker {
  import opened Wrappers
  import opened LowPriorityWriter

  /** `Waiting` for the flush lock after it woke up; `Flushing` with the lock. `paused` when it went to
      sleep because the database is unhealthy. */
  datatype Worker = Asleep(until: Option<real>, since: real, paused: bool) | Waiting | Flushing

  /** Another task that holds the flush lock for one writer, forced or not, and whether it has written a
      batch already. */
  datatype Other = Other(name: string, force: bool, wrote: bool)

  /** `event` is the wake event; `mine` is the writer of which the worker is writing a batch. */
  datatype Sys = Sys(now: real, writers: map<string, Timing>, event: bool, worker: Worker, mine: Option<string>, other: Option<Other>)

  /** `Wake` goes up to the lock, or on to sleep when the database is paused; `Sleep` releases the lock.
      There is no suspension point in between. */
  datatype Step =
    | Tick(d: real)
    | Append(name: string)
    | Wake(paused: bool)
    | Acquire
    | Take(name: string)
    | Settle(outcome: Outcome)
    | Sleep(until: Option<real>, paused: bool)
    | OtherBegin(name: string, force: bool)
    | OtherTake
    | OtherSettle(outcome: Outcome)
    | OtherEnd

  ghost predicate Fits(configs: map<string, Config>, s: Sys) {
    && (forall n | n in s.writers :: n in configs && configs[n].Valid())
    && (s.mine.Some? ==> s.mine.value in s.writers)
    && (s.other.Some? ==> s.other.value.name in s.writers)
  }

  /** When the worker next looks, as `_next_wait` has it. */
  ghost predicate IsNextWait(configs: map<string, Config>, s: Sys, until: Option<real>, paused: bool)
    requires Fits(configs, s)
  {
    if paused then until == Some(s.now + POLL_INTERVAL)
    else
      && (until.None? <==> forall n | n in s.writers :: s.writers[n].size == 0)
      && (until.Some? ==>
            && until.value >= s.now
            && (exists n :: n in s.writers && s.writers[n].size > 0 && until.value >= DueAt(configs[n], s.writers[n]))
            && (until.value == s.now
                || forall n | n in s.writers && s.writers[n].size > 0 :: until.value <= DueAt(configs[n], s.writers[n])))
  }

  /** A forced flush ends only when nothing is left, or with a failure. */
  ghost predicate Enabled(configs: map<string, Config>, s: Sys, step: Step)
    requires Fits(configs, s)
  {
    match step
    case Tick(d) => d >= 0.0
    case Append(n) => n in s.writers
    case Wake(_) => s.worker.Asleep? && (s.event || (s.worker.until.Some? && s.now >= s.worker.until.value))
    case Acquire => s.worker.Waiting? && s.other.None?
    case Take(n) => s.worker.Flushing? && s.mine.None? && n in s.writers && s.writers[n].size > 0
    case Settle(_) => s.mine.Some?
    case Sleep(until, paused) => s.worker.Flushing? && s.mine.None? && IsNextWait(configs, s, until, paused)
    case OtherBegin(n, _) => n in s.writers && s.other.None? && !s.worker.Flushing?
    case OtherTake => s.other.Some? && var w := s.writers[s.other.value.name]; w.flight == 0 && w.size > 0
    case OtherSettle(_) => s.other.Some? && s.writers[s.other.value.name].flight > 0
    case OtherEnd =>
      s.other.Some? && var w := s.writers[s.other.value.name]; w.flight == 0 && (s.other.value.force ==> w.size == 0)
  }

  /** A step that is not enabled does nothing. */
  ghost function Do(configs: map<string, Config>, s: Sys, step: Step): (t: Sys)
    requires Fits(configs, s)
    ensures Fits(configs, t)
  {
    if !Enabled(configs, s, step) then s else
      match step
      case Tick(d) => s.(now := s.now + d)
      case Append(n) =>
        var w := Appended(configs[n], s.writers[n]);
        s.(writers := s.writers[n := w], event := s.event || Wakes(configs[n], w))
      case Wake(paused) =>
        s.(event := false, worker := if paused then Asleep(Some(s.now + POLL_INTERVAL), s.now, true) else Waiting)
      case Acquire => s.(worker := Flushing)
      case Take(n) => s.(writers := s.writers[n := Taken(configs[n], s.writers[n])], mine := Some(n))
      case Settle(outcome) =>
        var n := s.mine.value;
        s.(writers := s.writers[n := Settled(configs[n], s.writers[n], outcome, s.now)], mine := None)
      case Sleep(until, paused) => s.(worker := Asleep(until, s.now, paused))
      case OtherBegin(n, force) => s.(other := Some(Other(n, force, false)))
      case OtherTake =>
        var n := s.other.value.name;
        s.(writers := s.writers[n := Taken(configs[n], s.writers[n])])
      case OtherSettle(outcome) =>
        var n := s.other.value.name;
        s.(writers := s.writers[n := Settled(configs[n], s.writers[n], outcome, s.now)],
           other := if outcome == Success then Some(s.other.value.(wrote := true)) else None)
      case OtherEnd => s.(other := None)
  }

  ghost function Run(configs: map<string, Config>, s: Sys, steps: seq<Step>): (t: Sys)
    requires Fits(configs, s)
    ensures Fits(configs, t)
    decreases |steps|
  {
    if steps == [] then s else Run(configs, Do(configs, s, steps[0]), steps[1..])
  }

  /** The worker has found nothing and sleeps. */
  function Started(configs: map<string, Config>, now: real): Sys {
    Sys(now, map n | n in configs :: Timing(0, 0, 0, 0.0, now), false, Asleep(None, now, false), None, None)
  }

  // --- In time ---

  predicate Unwoken(s: Sys) { s.worker.Asleep? && !s.event }

  /** It looks at once, or, paused, within the poll interval. */
  predicate Soon(s: Sys)
    requires s.worker.Asleep?
  {
    s.worker.until.Some? && s.worker.until.value <= s.worker.since + if s.worker.paused then POLL_INTERVAL else 0.0
  }

  predicate LooksBy(s: Sys, due: real)
    requires s.worker.Asleep?
  {
    Soon(s) || (s.worker.until.Some? && s.worker.until.value <= due)
  }

  /** The worker is awake or woken, or nothing waits, or it looks by the time the writer is due. */
  predicate InTime(s: Sys, c: Config, w: Timing) {
    Unwoken(s) && w.size > 0 ==> LooksBy(s, DueAt(c, w))
  }

  ghost predicate Punctual(configs: map<string, Config>, s: Sys)
    requires Fits(configs, s)
  {
    forall n | n in s.writers :: InTime(s, configs[n], s.writers[n])
  }

  /** What registered writers have: a batch holds what triggers a flush, and pauses are not negative. */
  predicate Steady(c: Config) {
    c.batchSize >= c.triggerSize && c.backoffBase >= 0.0 && c.backoffMax >= 0.0
  }

  // --- The invariant ---

  /** A pause lasts no longer than the failures in a row account for. */
  predicate Paces(c: Config, w: Timing, now: real) {
    if w.failures == 0 then w.backoffUntil == 0.0 else w.backoffUntil <= now + Backoff(c, w.failures)
  }

  /** While another task flushes this writer: before its first batch is written the worker is in time for
      what would wait if the batch came back; and since what is left behind the batch is nothing, or the
      batch alone triggers, the next record wakes the worker or makes no difference. */
  predicate Recovers(s: Sys, c: Config, w: Timing, wrote: bool) {
    if wrote then w.failures == 0
    else if w.flight == 0 then InTime(s, c, w)
    else Steady(c) && Unwoken(s) ==>
      Soon(s) || (LooksBy(s, DueAt(c, w.(size := w.size + w.flight))) && (w.size == 0 || w.flight >= c.triggerSize))
  }

  ghost predicate WriterOk(s: Sys, c: Config, n: string)
    requires n in s.writers
  {
    var w := s.writers[n];
    && Paces(c, w, s.now)
    && (w.flight > 0 ==> s.mine == Some(n) || (s.other.Some? && s.other.value.name == n))
    && (if s.other.Some? && s.other.value.name == n then Recovers(s, c, w, s.other.value.wrote) else InTime(s, c, w))
  }

  ghost predicate Inv(configs: map<string, Config>, s: Sys) {
    && Fits(configs, s) && s.now >= 0.0
    && (s.mine.Some? ==> s.worker.Flushing?) && (s.other.Some? ==> !s.worker.Flushing?)
    && forall n | n in s.writers :: WriterOk(s, configs[n], n)
  }

  lemma BackoffGrows(c: Config, failures: nat)
    requires Steady(c) && failures > 0
    ensures 0.0 <= Backoff(c, failures) <= Backoff(c, failures + 1)
  {
    PowersArePositive(failures - 1);
    BackoffDoublesUpToLimit(c, failures);
  }

  lemma {:induction false} PowersArePositive(n: nat)
    ensures Pow2(n) >= 1.0
  {
    if n > 0 { PowersArePositive(n - 1); }
  }

  lemma StartIsOk(configs: map<string, Config>, now: real)
    requires now >= 0.0 && forall n | n in configs :: configs[n].Valid()
    ensures Inv(configs, Started(configs, now))
  {
  }

  lemma TickKeeps(configs: map<string, Config>, s: Sys, d: real)
    requires Inv(configs, s)
    ensures Inv(configs, Do(configs, s, Tick(d)))
  {
    var t := Do(configs, s, Tick(d));
    forall n | n in t.writers ensures WriterOk(t, configs[n], n) { assert WriterOk(s, configs[n], n); }
  }

  lemma AppendRecovers(s: Sys, c: Config, w: Timing, wrote: bool)
    requires c.Valid() && Recovers(s, c, w, wrote)
    ensures var v := Appended(c, w); Recovers(s.(event := s.event || Wakes(c, v)), c, v, wrote)
  {
  }

  lemma AppendKeeps(configs: map<string, Config>, s: Sys, name: string)
    requires Inv(configs, s) && name in s.writers
    ensures Inv(configs, Do(configs, s, Append(name)))
  {
    var t := Do(configs, s, Append(name));
    forall n | n in t.writers ensures WriterOk(t, configs[n], n) {
      assert WriterOk(s, configs[n], n);
      if n == name && s.other.Some? && s.other.value.name == n { AppendRecovers(s, configs[n], s.writers[n], s.other.value.wrote); }
    }
  }

  lemma WorkerStepKeeps(configs: map<string, Config>, s: Sys, step: Step)
    requires Inv(configs, s) && (step.Wake? || step.Acquire? || step.Take? || step.Settle? || step.Sleep?)
    ensures Inv(configs, Do(configs, s, step))
  {
    var t := Do(configs, s, step);
    forall n | n in t.writers ensures WriterOk(t, configs[n], n) { assert WriterOk(s, configs[n], n); }
  }

  lemma OtherStepKeeps(configs: map<string, Config>, s: Sys, step: Step)
    requires Inv(configs, s) && (step.OtherBegin? || step.OtherTake? || (step.OtherSettle? && step.outcome == Success))
    ensures Inv(configs, Do(configs, s, step))
  {
    var t := Do(configs, s, step);
    forall n | n in t.writers ensures WriterOk(t, configs[n], n) { assert WriterOk(s, configs[n], n); }
  }

  // --- The end of another task's flush ---

  ghost predicate Ends(configs: map<string, Config>, s: Sys, step: Step)
    requires Fits(configs, s)
  {
    Enabled(configs, s, step) && (step.OtherEnd? || (step.OtherSettle? && step.outcome != Success))
  }

  /** How many records it leaves behind, and when the pause it leaves is over. */
  function Remaining(c: Config, w: Timing, step: Step): nat {
    if step.OtherSettle? then Settled(c, w, step.outcome, 0.0).size else w.size
  }

  function PauseEnds(s: Sys, c: Config, w: Timing, step: Step): real {
    if step.OtherSettle? then s.now + Backoff(c, w.failures + 1) else w.backoffUntil
  }

  /** A flush that has written a batch already, or has failed for a writer that is not steady, leaves
      records that will be due before the worker wakes up. */
  predicate Overtakes(s: Sys, c: Config, w: Timing, wrote: bool, step: Step) {
    && (wrote || (step.OtherSettle? && !Steady(c)))
    && Remaining(c, w, step) > 0 && Unwoken(s) && !Soon(s)
    && (s.worker.until.Some? ==>
          && s.worker.until.value > PauseEnds(s, c, w, step)
          && (Remaining(c, w, step) >= c.triggerSize || s.worker.until.value > w.lastFlushAt + c.flushInterval))
  }

  ghost predicate EndsOvertaking(configs: map<string, Config>, s: Sys, step: Step)
    requires Fits(configs, s)
  {
    Ends(configs, s, step)
    && Overtakes(s, configs[s.other.value.name], s.writers[s.other.value.name], s.other.value.wrote, step)
  }

  /** A failure before anything was written: the batch comes back, or is given up, with a longer pause. */
  lemma FirstFailureIsInTime(s: Sys, c: Config, w: Timing, outcome: Outcome)
    requires s.now >= 0.0 && Steady(c) && Paces(c, w, s.now) && Recovers(s, c, w, false) && w.flight > 0 && outcome != Success
    ensures InTime(s, c, Settled(c, w, outcome, s.now))
  {
    PowersArePositive(0);
    if w.failures > 0 { BackoffGrows(c, w.failures); } else { BackoffGrows(c, 1); }
  }

  lemma EndIsInTimeIff(s: Sys, c: Config, w: Timing, wrote: bool, step: Step)
    requires s.now >= 0.0 && Paces(c, w, s.now) && Recovers(s, c, w, wrote)
    requires if step.OtherSettle? then step.outcome != Success && w.flight > 0 else w.flight == 0
    ensures var v := if step.OtherSettle? then Settled(c, w, step.outcome, s.now) else w;
            InTime(s, c, v) <==> !Overtakes(s, c, w, wrote, step)
  {
    if step.OtherSettle? && !wrote && Steady(c) { FirstFailureIsInTime(s, c, w, step.outcome); }
  }

  /** The end of another task's flush leaves the worker in time exactly when it does not overtake it. */
  lemma EndKeepsIff(configs: map<string, Config>, s: Sys, step: Step)
    requires Inv(configs, s) && Ends(configs, s, step)
    ensures var t := Do(configs, s, step);
            && t.other.None?
            && (Punctual(configs, t) <==> !EndsOvertaking(configs, s, step))
            && (Punctual(configs, t) ==> Inv(configs, t))
  {
    var t, name := Do(configs, s, step), s.other.value.name;
    assert WriterOk(s, configs[name], name);
    EndIsInTimeIff(s, configs[name], s.writers[name], s.other.value.wrote, step);
    assert InTime(t, configs[name], t.writers[name]) <==> !EndsOvertaking(configs, s, step);
    forall n | n in t.writers && n != name ensures WriterOk(t, configs[n], n) && InTime(t, configs[n], t.writers[n]) {
      assert WriterOk(s, configs[n], n);
    }
  }

  // --- Over every run ---

  lemma StepKeeps(configs: map<string, Config>, s: Sys, step: Step)
    requires Inv(configs, s) && !EndsOvertaking(configs, s, step)
    ensures Inv(configs, Do(configs, s, step))
  {
    if Ends(configs, s, step) {
      EndKeepsIff(configs, s, step);
    } else {
      match step {
        case Tick(d) => TickKeeps(configs, s, d);
        case Append(n) => if n in s.writers { AppendKeeps(configs, s, n); }
        case Wake(_) => WorkerStepKeeps(configs, s, step);
        case Acquire => WorkerStepKeeps(configs, s, step);
        case Take(_) => WorkerStepKeeps(configs, s, step);
        case Settle(_) => WorkerStepKeeps(configs, s, step);
        case Sleep(_, _) => WorkerStepKeeps(configs, s, step);
        case OtherEnd =>
        case OtherSettle(outcome) => if outcome == Success { OtherStepKeeps(configs, s, step); }
        case _ => OtherStepKeeps(configs, s, step);
      }
    }
  }

  lemma InvIsPunctual(configs: map<string, Config>, s: Sys)
    requires Inv(configs, s) && s.other.None?
    ensures Punctual(configs, s)
  {
    forall n | n in s.writers ensures InTime(s, configs[n], s.writers[n]) { assert WriterOk(s, configs[n], n); }
  }

  /** Whenever no other flush is under way the worker is in time. */
  ghost predicate AlwaysPunctual(configs: map<string, Config>, s: Sys, steps: seq<Step>)
    requires Fits(configs, s)
    decreases |steps|
  {
    && (s.other.None? ==> Punctual(configs, s))
    && (steps != [] ==> AlwaysPunctual(configs, Do(configs, s, steps[0]), steps[1..]))
  }

  ghost predicate NeverOvertaken(configs: map<string, Config>, s: Sys, steps: seq<Step>)
    requires Fits(configs, s)
    decreases |steps|
  {
    steps != [] ==> !EndsOvertaking(configs, s, steps[0]) && NeverOvertaken(configs, Do(configs, s, steps[0]), steps[1..])
  }

  lemma {:induction false} PunctualIff(configs: map<string, Config>, s: Sys, steps: seq<Step>)
    requires Inv(configs, s)
    ensures AlwaysPunctual(configs, s, steps) <==> NeverOvertaken(configs, s, steps)
    decreases |steps|
  {
    if s.other.None? { InvIsPunctual(configs, s); }
    if steps != [] {
      if EndsOvertaking(configs, s, steps[0]) {
        EndKeepsIff(configs, s, steps[0]);
        assert !AlwaysPunctual(configs, Do(configs, s, steps[0]), steps[1..]);
      } else {
        StepKeeps(configs, s, steps[0]);
        PunctualIff(configs, Do(configs, s, steps[0]), steps[1..]);
      }
    }
  }

  /** From the start, over every interleaving: no deadline is missed exactly when no flush of another task
      ends overtaking the worker. */
  lemma RunIsPunctualIff(configs: map<string, Config>, now: real, steps: seq<Step>)
    requires now >= 0.0 && forall n | n in configs :: configs[n].Valid()
    ensures Fits(configs, Started(configs, now))
    ensures AlwaysPunctual(configs, Started(configs, now), steps) <==> NeverOvertaken(configs, Started(configs, now), steps)
  {
    StartIsOk(configs, now);
    PunctualIff(configs, Started(configs, now), steps);
  }

  /** Other tasks force their flushes, and none fails after it has written a batch. */
  ghost predicate FailsFirstOrNever(configs: map<string, Config>, s: Sys, steps: seq<Step>)
    requires Fits(configs, s)
    decreases |steps|
  {
    steps != [] ==>
      && (steps[0].OtherBegin? ==> steps[0].force)
      && (Ends(configs, s, steps[0]) && steps[0].OtherSettle? ==> !s.other.value.wrote)
      && FailsFirstOrNever(configs, Do(configs, s, steps[0]), steps[1..])
  }

  /** Then no deadline is missed, whatever arrives when and whichever of the worker's own writes fail. */
  lemma {:induction false} ForcedFlushesAreHarmless(configs: map<string, Config>, s: Sys, steps: seq<Step>)
    requires Fits(configs, s) && (forall n | n in s.writers :: Steady(configs[n]))
    requires (s.other.Some? ==> s.other.value.force) && FailsFirstOrNever(configs, s, steps)
    ensures NeverOvertaken(configs, s, steps)
    decreases |steps|
  {
    if steps != [] { ForcedFlushesAreHarmless(configs, Do(configs, s, steps[0]), steps[1..]); }
  }

  lemma SteadyWritersArePunctual(configs: map<string, Config>, now: real, steps: seq<Step>)
    requires now >= 0.0 && forall n | n in configs :: configs[n].Valid() && Steady(configs[n])
    requires FailsFirstOrNever(configs, Started(configs, now), steps)
    ensures AlwaysPunctual(configs, Started(configs, now), steps)
  {
    RunIsPunctualIff(configs, now, steps);
    ForcedFlushesAreHarmless(configs, Started(configs, now), steps);
  }

  /** Nor when only the worker flushes, whatever the configurations. */
  lemma {:induction false} WorkerAloneIsPunctual(configs: map<string, Config>, s: Sys, steps: seq<Step>)
    requires Inv(configs, s) && s.other.None? && forall step | step in steps :: !step.OtherBegin?
    ensures AlwaysPunctual(configs, s, steps)
    decreases |steps|
  {
    InvIsPunctual(configs, s);
    if steps != [] {
      StepKeeps(configs, s, steps[0]);
      assert steps[0] in steps;
      WorkerAloneIsPunctual(configs, Do(configs, s, steps[0]), steps[1..]);
    }
  }

  // --- Missed deadlines ---

  /** Before the wake-up time the worker goes on sleeping, until so many records have come that they
      trigger a flush. */
  lemma {:induction false} SleepsUntilTriggered(configs: map<string, Config>, s: Sys, name: string, steps: seq<Step>)
    requires Fits(configs, s) && name in s.writers && Unwoken(s)
    requires forall step | step in steps :: step.Tick? || step == Append(name)
    requires 0 < s.writers[name].size && s.writers[name].size + |steps| < configs[name].triggerSize && configs[name].maxRetain > 1
    ensures var t := Run(configs, s, steps);
            && t.worker == s.worker && !t.event
            && (s.worker.until.None? || t.now < s.worker.until.value ==> !Enabled(configs, t, Wake(false)))
    decreases |steps|
  {
    if steps != [] {
      assert steps[0] in steps;
      SleepsUntilTriggered(configs, Do(configs, s, steps[0]), name, steps[1..]);
    }
  }

  lemma {:induction false} RunOneMore(configs: map<string, Config>, s: Sys, steps: seq<Step>, step: Step)
    requires Fits(configs, s)
    ensures Run(configs, s, steps + [step]) == Do(configs, Run(configs, s, steps), step)
    decreases |steps|
  {
    if steps == [] {
      assert steps + [step] == [step] && [step][1..] == [];
    } else {
      assert (steps + [step])[1..] == steps[1..] + [step];
      RunOneMore(configs, Do(configs, s, steps[0]), steps[1..], step);
    }
  }

  // A system with one writer.

  function One(c: Config): map<string, Config> { map["x" := c] }

  function At(now: real, w: Timing, event: bool, worker: Worker, mine: bool, other: Option<Other>): Sys {
    Sys(now, map["x" := w], event, worker, if mine then Some("x") else None, other)
  }

  /** From the start these steps lead to that state. */
  ghost predicate Leads(c: Config, steps: seq<Step>, s: Sys) {
    c.Valid() && Fits(One(c), Started(One(c), 0.0)) && Run(One(c), Started(One(c), 0.0), steps) == s
  }

  lemma Begins(c: Config)
    requires c.Valid()
    ensures Leads(c, [], At(0.0, Timing(0, 0, 0, 0.0, 0.0), false, Asleep(None, 0.0, false), false, None))
  {
    assert Started(One(c), 0.0).writers == map["x" := Timing(0, 0, 0, 0.0, 0.0)];
  }

  lemma OneWriter(m: map<string, Timing>, w: Timing)
    requires m.Keys == {"x"} && m["x"] == w
    ensures m == map["x" := w]
  {
  }

  lemma Next(c: Config, steps: seq<Step>, s: Sys, step: Step, t: Sys) returns (more: seq<Step>)
    requires Leads(c, steps, s) && Fits(One(c), s)
    requires var u := Do(One(c), s, step); u.writers.Keys == {"x"} && t == u.(writers := map["x" := u.writers["x"]])
    ensures Leads(c, more, t) && Fits(One(c), t)
  {
    RunOneMore(One(c), Started(One(c), 0.0), steps, step);
    var u := Do(One(c), s, step);
    OneWriter(u.writers, u.writers["x"]);
    more := steps + [step];
  }

  lemma Appends(c: Config, steps: seq<Step>, now: real, w: Timing, event: bool, worker: Worker, other: Option<Other>)
    returns (more: seq<Step>)
    requires Leads(c, steps, At(now, w, event, worker, false, other)) && (other.Some? ==> other.value.name == "x")
    ensures var v := Appended(c, w); Leads(c, more, At(now, v, event || Wakes(c, v), worker, false, other))
  {
    var v := Appended(c, w);
    more := Next(c, steps, At(now, w, event, worker, false, other), Append("x"),
                 At(now, v, event || Wakes(c, v), worker, false, other));
  }

  /** The worker, woken or at its wake-up time, takes the lock. */
  lemma WakesUp(c: Config, steps: seq<Step>, now: real, w: Timing, event: bool, worker: Worker) returns (more: seq<Step>)
    requires Leads(c, steps, At(now, w, event, worker, false, None))
    requires worker.Asleep? && (event || (worker.until.Some? && now >= worker.until.value))
    ensures Leads(c, more, At(now, w, false, Flushing, false, None))
  {
    more := Next(c, steps, At(now, w, event, worker, false, None), Wake(false), At(now, w, false, Waiting, false, None));
    more := Next(c, more, At(now, w, false, Waiting, false, None), Acquire, At(now, w, false, Flushing, false, None));
  }

  lemma FallsAsleep(c: Config, steps: seq<Step>, now: real, w: Timing) returns (more: seq<Step>)
    requires Leads(c, steps, At(now, w, false, Flushing, false, None)) && w.size > 0 && DueAt(c, w) >= now
    ensures Leads(c, more, At(now, w, false, Asleep(Some(DueAt(c, w)), now, false), false, None))
  {
    var s := At(now, w, false, Flushing, false, None);
    assert s.writers["x"] == w;
    more := Next(c, steps, s, Sleep(Some(DueAt(c, w)), false), At(now, w, false, Asleep(Some(DueAt(c, w)), now, false), false, None));
  }

  /** A batch of the worker fails. */
  lemma Fails(c: Config, steps: seq<Step>, now: real, w: Timing) returns (more: seq<Step>)
    requires Leads(c, steps, At(now, w, false, Flushing, false, None)) && w.size > 0
    ensures Leads(c, more, At(now, Settled(c, Taken(c, w), Failed, now), false, Flushing, false, None))
  {
    var u := Taken(c, w);
    more := Next(c, steps, At(now, w, false, Flushing, false, None), Take("x"), At(now, u, false, Flushing, true, None));
    more := Next(c, more, At(now, u, false, Flushing, true, None), Settle(Failed),
                 At(now, Settled(c, u, Failed, now), false, Flushing, false, None));
  }

  lemma OtherBegins(c: Config, steps: seq<Step>, now: real, w: Timing, worker: Worker) returns (more: seq<Step>)
    requires Leads(c, steps, At(now, w, false, worker, false, None)) && worker.Asleep?
    ensures Leads(c, more, At(now, w, false, worker, false, Some(Other("x", true, false))))
  {
    more := Next(c, steps, At(now, w, false, worker, false, None), OtherBegin("x", true),
                 At(now, w, false, worker, false, Some(Other("x", true, false))));
  }

  lemma OtherTakes(c: Config, steps: seq<Step>, now: real, w: Timing, worker: Worker, o: Other) returns (more: seq<Step>)
    requires Leads(c, steps, At(now, w, false, worker, false, Some(o))) && o.name == "x" && w.flight == 0 && w.size > 0
    ensures Leads(c, more, At(now, Taken(c, w), false, worker, false, Some(o)))
  {
    more := Next(c, steps, At(now, w, false, worker, false, Some(o)), OtherTake, At(now, Taken(c, w), false, worker, false, Some(o)));
  }

  lemma OtherSettles(c: Config, steps: seq<Step>, now: real, w: Timing, worker: Worker, o: Other, outcome: Outcome)
    returns (more: seq<Step>)
    requires Leads(c, steps, At(now, w, false, worker, false, Some(o))) && o.name == "x" && w.flight > 0
    ensures Leads(c, more, At(now, Settled(c, w, outcome, now), false, worker, false,
                              if outcome == Success then Some(o.(wrote := true)) else None))
  {
    more := Next(c, steps, At(now, w, false, worker, false, Some(o)), OtherSettle(outcome),
                 At(now, Settled(c, w, outcome, now), false, worker, false,
                    if outcome == Success then Some(o.(wrote := true)) else None));
  }

  const BUSY := Config(1, 1, 10, 60.0, 1000, 30.0, 600.0)

  lemma BusyPauses()
    ensures Backoff(BUSY, 1) == 30.0 && Backoff(BUSY, 2) == 60.0
  {
    assert Pow2(0) == 1.0 && Pow2(1) == 2.0 * Pow2(0);
  }

  /** The worker fails at 0 and at 30 and sleeps until 90. */
  lemma WorkerFailsTwice() returns (steps: seq<Step>)
    ensures Leads(BUSY, steps, At(30.0, Timing(2, 0, 2, 90.0, 0.0), false, Asleep(Some(90.0), 30.0, false), false, None))
  {
    BusyPauses();
    var never, pause := Asleep(None, 0.0, false), Asleep(Some(30.0), 0.0, false);
    Begins(BUSY);
    steps := Appends(BUSY, [], 0.0, Timing(0, 0, 0, 0.0, 0.0), false, never, None);
    steps := Appends(BUSY, steps, 0.0, Timing(1, 0, 0, 0.0, 0.0), true, never, None);
    steps := WakesUp(BUSY, steps, 0.0, Timing(2, 0, 0, 0.0, 0.0), true, never);
    steps := Fails(BUSY, steps, 0.0, Timing(2, 0, 0, 0.0, 0.0));
    var failed := Timing(2, 0, 1, 30.0, 0.0);
    steps := FallsAsleep(BUSY, steps, 0.0, failed);
    steps := Next(BUSY, steps, At(0.0, failed, false, pause, false, None), Tick(30.0), At(30.0, failed, false, pause, false, None));
    steps := WakesUp(BUSY, steps, 30.0, failed, false, pause);
    steps := Fails(BUSY, steps, 30.0, failed);
    steps := FallsAsleep(BUSY, steps, 30.0, Timing(2, 0, 2, 90.0, 0.0));
  }

  /** A run in which a deadline is missed. The worker pauses after two failures; another task writes one
      record, which takes the failures back, and fails on the next: that one is due after the short pause
      of a first failure, at 60, but the worker sleeps on until 90. */
  lemma LateFailureIsForgotten() returns (steps: seq<Step>)
    ensures var s := At(30.0, Timing(1, 0, 1, 60.0, 30.0), false, Asleep(Some(90.0), 30.0, false), false, None);
            Leads(BUSY, steps, s) && Fits(One(BUSY), s) && !Punctual(One(BUSY), s) && DueAt(BUSY, s.writers["x"]) < 90.0
  {
    BusyPauses();
    var asleep, begun, late := Asleep(Some(90.0), 30.0, false), Other("x", true, false), Other("x", true, true);
    steps := WorkerFailsTwice();
    steps := OtherBegins(BUSY, steps, 30.0, Timing(2, 0, 2, 90.0, 0.0), asleep);
    steps := OtherTakes(BUSY, steps, 30.0, Timing(2, 0, 2, 90.0, 0.0), asleep, begun);
    steps := OtherSettles(BUSY, steps, 30.0, Timing(1, 1, 2, 90.0, 0.0), asleep, begun, Success);
    steps := OtherTakes(BUSY, steps, 30.0, Timing(1, 0, 0, 0.0, 30.0), asleep, late);
    steps := OtherSettles(BUSY, steps, 30.0, Timing(0, 1, 0, 0.0, 30.0), asleep, late, Failed);
    NotInTime(BUSY, 30.0, Timing(1, 0, 1, 60.0, 30.0), 90.0, 30.0);
  }

  lemma NotInTime(c: Config, now: real, w: Timing, until: real, since: real)
    requires c.Valid() && w.size > 0 && until > DueAt(c, w) && until > since
    ensures var s := At(now, w, false, Asleep(Some(until), since, false), false, None); Fits(One(c), s) && !Punctual(One(c), s)
  {
    var s := At(now, w, false, Asleep(Some(until), since, false), false, None);
    assert s.writers["x"] == w && !InTime(s, c, w);
  }

  const SMALL := Config(1, 3, 10, 60.0, 1000, 30.0, 600.0)

  /** A run for a writer whose batches are smaller than what triggers a flush: another task's first batch
      fails and comes back to as many records as trigger one, due after the pause, at 30, while the worker
      sleeps until the interval is over, at 60. */
  lemma SmallBatchIsForgotten() returns (steps: seq<Step>)
    ensures var s := At(0.0, Timing(3, 0, 1, 30.0, 0.0), false, Asleep(Some(60.0), 0.0, false), false, None);
            Leads(SMALL, steps, s) && Fits(One(SMALL), s) && !Punctual(One(SMALL), s) && DueAt(SMALL, s.writers["x"]) < 60.0
  {
    assert Pow2(0) == 1.0 && Backoff(SMALL, 1) == 30.0;
    var never, asleep, begun := Asleep(None, 0.0, false), Asleep(Some(60.0), 0.0, false), Other("x", true, false);
    Begins(SMALL);
    steps := Appends(SMALL, [], 0.0, Timing(0, 0, 0, 0.0, 0.0), false, never, None);
    steps := WakesUp(SMALL, steps, 0.0, Timing(1, 0, 0, 0.0, 0.0), true, never);
    steps := FallsAsleep(SMALL, steps, 0.0, Timing(1, 0, 0, 0.0, 0.0));
    steps := Appends(SMALL, steps, 0.0, Timing(1, 0, 0, 0.0, 0.0), false, asleep, None);
    steps := OtherBegins(SMALL, steps, 0.0, Timing(2, 0, 0, 0.0, 0.0), asleep);
    steps := OtherTakes(SMALL, steps, 0.0, Timing(2, 0, 0, 0.0, 0.0), asleep, begun);
    steps := Appends(SMALL, steps, 0.0, Timing(1, 1, 0, 0.0, 0.0), false, asleep, Some(begun));
    steps := OtherSettles(SMALL, steps, 0.0, Timing(2, 1, 0, 0.0, 0.0), asleep, begun, Failed);
    NotInTime(SMALL, 0.0, Timing(3, 0, 1, 30.0, 0.0), 60.0, 0.0);
  }
}
