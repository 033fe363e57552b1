/** Paced sending: each bot's queue sends its calls one at a time in arrival order with a pause in
    between, is bounded, and is drained when the adapter stops. */
module OneBotSendQueue {
  import opened Lists
  import opened Wrappers

  const SEND_INTERVAL := 0.05
  const QUEUE_LIMIT := 500
  const DRAIN_TIMEOUT := 3.0

  /** One bot's queue; `holder` has the lock and `waiters` wait for it, first come first served. */
  datatype BotQueue = BotQueue(size: int, last: real, holder: Option<nat>, waiters: seq<nat>)

  datatype Core = Core(bots: map<string, nat>, queues: map<nat, BotQueue>, pending: int, stopping: bool, closed: bool,
                       drained: Option<nat>)

  datatype Rejected = Stopping | Full

  const FRESH := BotQueue(0, 0.0, None, [])

  // --- One queue ---

  /** An admitted call gets the free lock or waits in line. */
  function Joined(b: BotQueue, id: nat): BotQueue {
    if b.holder.None? && b.waiters == [] then b.(size := b.size + 1, holder := Some(id))
    else b.(size := b.size + 1, waiters := b.waiters + [id])
  }

  /** The first waiter runs and takes the free lock. */
  function Taken(b: BotQueue): BotQueue
    requires b.waiters != []
  {
    b.(holder := Some(b.waiters[0]), waiters := b.waiters[1..])
  }

  /** A call leaves, from the line or with the lock; `sent` is the time its sending ended. */
  function Left(b: BotQueue, id: nat, sent: Option<real>): BotQueue {
    BotQueue(b.size - 1, if sent.Some? then sent.value else b.last, if b.holder == Some(id) then None else b.holder,
             Removed(b.waiters, id))
  }

  // --- The service ---

  function Admission(stopping: bool, size: int): Option<Rejected> {
    if stopping then Some(Stopping) else if size >= QUEUE_LIMIT then Some(Full) else None
  }

  /** The bot's queue, or the one created for it. */
  function QueueOf(bots: map<string, nat>, bot: string, created: nat): nat {
    if bot in bots then bots[bot] else created
  }

  function QueueAt(queues: map<nat, BotQueue>, q: nat): BotQueue {
    if q in queues then queues[q] else FRESH
  }

  class SendQueue {
    var bots: map<string, nat>
    var queues: map<nat, BotQueue>
    var pending: int
    var stopping: bool
    var closed: bool
    var drained: Option<nat>

    function View(): Core
      reads this
    {
      Core(bots, queues, pending, stopping, closed, drained)
    }

    constructor ()
      ensures View() == Core(map[], map[], 0, false, false, None)
    {
      bots, queues, pending, stopping, closed, drained := map[], map[], 0, false, false, None;
    }

    /** `call` up to its wait for the lock, for the call `id`; `created` is the queue made for a bot that has none. */
    method Call(bot: string, created: nat, id: nat) returns (r: Result<nat, Rejected>)
      requires (forall b | b in bots :: bots[b] in queues) && created !in queues
      modifies this
      ensures var q := QueueOf(old(bots), bot, created);
              var queue := QueueAt(old(queues), q);
              match Admission(old(stopping), queue.size)
              case Some(why) => r == Err(why) && View() == old(View())
              case None => r == Ok(q) && View() == old(View()).(bots := old(bots)[bot := q],
                                                                queues := old(queues)[q := Joined(queue, id)],
                                                                pending := old(pending) + 1)
      ensures r == Err(Stopping) <==> old(stopping)
      ensures r == Err(Full) <==> !old(stopping) && bot in old(bots) && old(queues)[old(bots)[bot]].size >= QUEUE_LIMIT
      ensures r.Ok? ==>
        && r.value in queues && bot in bots && bots[bot] == r.value == (if bot in old(bots) then old(bots)[bot] else created)
        && pending == old(pending) + 1 && queues[r.value].size == QueueAt(old(queues), r.value).size + 1
        && (var q := queues[r.value]; q.holder == Some(id) || (q.waiters != [] && q.waiters[|q.waiters| - 1] == id))
    {
      if stopping { return Err(Stopping); }
      var q := created;
      if bot in bots { q := bots[bot]; }
      var queue := if q in queues then queues[q] else FRESH;
      if queue.size >= QUEUE_LIMIT { return Err(Full); }
      bots := bots[bot := q];
      if queue.holder.None? && queue.waiters == [] {
        queue := queue.(holder := Some(id));
      } else {
        queue := queue.(waiters := queue.waiters + [id]);
      }
      queues := queues[q := queue.(size := queue.size + 1)];
      pending := pending + 1;
      r := Ok(q);
    }

    /** The end of `call`, however it ends; returns the event to set, if any. */
    method Leave(q: nat, id: nat, sent: Option<real>) returns (fire: Option<nat>)
      requires q in queues
      modifies this`queues, this`pending
      ensures queues == old(queues)[q := Left(old(queues)[q], id, sent)] && pending == old(pending) - 1
      ensures fire == if pending == 0 then drained else None
      ensures queues[q].size == old(queues)[q].size - 1 && queues[q].holder != Some(id)
      ensures queues[q].last == if sent.Some? then sent.value else old(queues)[q].last
    {
      var queue := queues[q];
      if sent.Some? { queue := queue.(last := sent.value); }
      if queue.holder == Some(id) { queue := queue.(holder := None); }
      queues := queues[q := queue.(size := queue.size - 1, waiters := Removed(queue.waiters, id))];
      pending := pending - 1;
      fire := if pending == 0 then drained else None;
    }

    method Forget(bot: string)
      modifies this`bots
      ensures bots == old(bots) - {bot}
    {
      bots := bots - {bot};
    }

    method Start()
      modifies this`stopping, this`closed
      ensures !stopping && !closed
    {
      stopping, closed := false, false;
    }

    /** `stop` up to its wait for the event; without pending calls it is done. */
    method StopBegin(event: nat) returns (waits: bool)
      modifies this`stopping, this`drained, this`bots
      ensures stopping && waits == (pending != 0)
      ensures if waits then drained == Some(event) && bots == old(bots) else drained == old(drained) && bots == map[]
    {
      stopping := true;
      waits := pending != 0;
      if waits { drained := Some(event); } else { bots := map[]; }
    }

    method StopEnd(timedOut: bool)
      modifies this`closed, this`drained, this`bots
      ensures closed == (old(closed) || timedOut) && drained == None && bots == map[]
    {
      if timedOut { closed := true; }
      drained := None;
      bots := map[];
    }
  }

  // --- The whole system ---

  /** Where an admitted call is: in line, pausing with the lock, or sending since a moment. */
  datatype Phase = InLine | Pausing(until: real) | Sending(start: real)

  datatype Sent = Sent(id: nat, start: real, end: real)

  /** A queue, the unfinished calls on it, and the record of what it has sent. */
  datatype Lane = Lane(queue: BotQueue, mine: map<nat, Phase>, sent: seq<Sent>)

  /** A `stop` waiting for its event, since when, and how often `start` had been called by then. */
  datatype Stop = Stop(event: nat, fired: bool, since: real, starts: nat)

  /** `lanes` holds current and forgotten queues; `calls` maps every unfinished call to its queue. */
  datatype Sys = Sys(now: real, bots: map<string, nat>, lanes: map<nat, Lane>, calls: map<nat, nat>, nextId: nat, pending: int,
                     stopping: bool, closed: bool, drained: Option<nat>, stops: map<nat, Stop>, starts: nat)

  datatype Step =
    | Tick(d: real)
    | Call(bot: string, created: nat)
    | Resume(q: nat)         // the first waiter runs after a release
    | Wake(id: nat)          // the pause is over
    | Finish(id: nat)        // the sending ended, or the call was cancelled
    | Forget(bot: string)
    | Start
    | StopBegin(k: nat)
    | StopReturns(k: nat)
    | StopTimesOut(k: nat)

  function LaneAt(s: Sys, q: nat): Lane {
    if q in s.lanes then s.lanes[q] else Lane(FRESH, map[], [])
  }

  function JoinedLane(l: Lane, id: nat): Lane {
    Lane(Joined(l.queue, id), l.mine[id := InLine], l.sent)
  }

  /** `call` up to the moment it has the lock or waits for it. */
  function Entered(s: Sys, bot: string, created: nat): Sys {
    var q, id := QueueOf(s.bots, bot, created), s.nextId;
    s.(bots := s.bots[bot := q], lanes := s.lanes[q := JoinedLane(LaneAt(s, q), id)],
       calls := s.calls[id := q], nextId := id + 1, pending := s.pending + 1)
  }

  /** With the lock: pause until the interval is over, or send at once. */
  function Begun(l: Lane, id: nat, now: real): Lane {
    var from := l.queue.last + SEND_INTERVAL;
    l.(mine := l.mine[id := if from > now then Pausing(from) else Sending(now)])
  }

  function Gone(l: Lane, id: nat, now: real): Lane {
    var sending := id in l.mine && l.mine[id].Sending?;
    Lane(Left(l.queue, id, if sending then Some(now) else None), l.mine - {id},
         if sending then l.sent + [Sent(id, l.mine[id].start, now)] else l.sent)
  }

  function Fired(stops: map<nat, Stop>, event: Option<nat>): map<nat, Stop> {
    map k | k in stops :: if Some(stops[k].event) == event then stops[k].(fired := true) else stops[k]
  }

  /** The call leaves; the last one sets the event. */
  function Ended(s: Sys, q: nat, id: nat): Sys
    requires q in s.lanes
  {
    s.(lanes := s.lanes[q := Gone(s.lanes[q], id, s.now)], calls := s.calls - {id}, pending := s.pending - 1,
       stops := if s.pending - 1 == 0 then Fired(s.stops, s.drained) else s.stops)
  }

  /** The call has the lock: it looks whether the service was closed meanwhile. */
  function Locked(s: Sys, q: nat, id: nat): Sys
    requires q in s.lanes
  {
    if s.closed then Ended(s, q, id) else s.(lanes := s.lanes[q := Begun(s.lanes[q], id, s.now)])
  }

  predicate Enabled(s: Sys, step: Step) {
    match step
    case Tick(d) => d >= 0.0
    case Call(bot, created) => Admission(s.stopping, LaneAt(s, QueueOf(s.bots, bot, created)).queue.size).None? && created !in s.lanes
    case Resume(q) => q in s.lanes && s.lanes[q].queue.holder.None? && s.lanes[q].queue.waiters != []
    case Wake(id) =>
      id in s.calls && s.calls[id] in s.lanes &&
      var l := s.lanes[s.calls[id]];
      id in l.mine && l.mine[id].Pausing? && s.now >= l.mine[id].until
    case Finish(id) => id in s.calls && s.calls[id] in s.lanes
    case StopBegin(k) => k !in s.stops
    case StopReturns(k) => k in s.stops && s.stops[k].fired
    case StopTimesOut(k) => k in s.stops && s.now >= s.stops[k].since + DRAIN_TIMEOUT
    case _ => true
  }

  function Do(s: Sys, step: Step): Sys {
    if !Enabled(s, step) then s else
      match step
      case Tick(d) => s.(now := s.now + d)
      case Call(bot, created) =>
        var q, id := QueueOf(s.bots, bot, created), s.nextId;
        var joined := Entered(s, bot, created);
        if joined.lanes[q].queue.holder == Some(id) then Locked(joined, q, id) else joined
      case Resume(q) =>
        var l := s.lanes[q];
        Locked(s.(lanes := s.lanes[q := l.(queue := Taken(l.queue))]), q, l.queue.waiters[0])
      case Wake(id) =>
        var q := s.calls[id];
        s.(lanes := s.lanes[q := s.lanes[q].(mine := s.lanes[q].mine[id := Sending(s.now)])])
      case Finish(id) => Ended(s, s.calls[id], id)
      case Forget(bot) => s.(bots := s.bots - {bot})
      case Start => s.(stopping := false, closed := false, starts := s.starts + 1)
      case StopBegin(k) =>
        if s.pending == 0 then s.(stopping := true, bots := map[])
        else s.(stopping := true, drained := Some(k), stops := s.stops[k := Stop(k, false, s.now, s.starts)])
      case StopReturns(k) => s.(drained := None, bots := map[], stops := s.stops - {k})
      case StopTimesOut(k) => s.(closed := true, drained := None, bots := map[], stops := s.stops - {k})
  }

  function Run(s: Sys, steps: seq<Step>): Sys
    decreases |steps|
  {
    if steps == [] then s else Run(Do(s, steps[0]), steps[1..])
  }

  /** Whoever gets the lock pauses exactly for what is left of the interval. */
  lemma BegunPausesForTheRest(l: Lane, id: nat, now: real)
    ensures var m := Begun(l, id, now).mine;
            id in m && m[id] == if now >= l.queue.last + SEND_INTERVAL then Sending(now) else Pausing(l.queue.last + SEND_INTERVAL)
  {
  }

  // --- One lane ---

  ghost predicate Counted(l: Lane) {
    l.queue.size == |l.mine| <= QUEUE_LIMIT
  }

  ghost predicate Ascending(s: seq<nat>) {
    forall i, j :: 0 <= i < j < |s| ==> s[i] < s[j]
  }

  /** Every unfinished call is in line or has the lock; `entering` has it but has not gone on yet. */
  ghost predicate InPlace(l: Lane, entering: Option<nat>) {
    && Ascending(l.queue.waiters)
    && (forall w | w in l.queue.waiters :: w in l.mine && l.mine[w] == InLine && l.queue.holder != Some(w))
    && (l.queue.holder.Some? ==> l.queue.holder.value in l.mine)
    && (entering.Some? ==> l.queue.holder == entering && l.mine[entering.value] == InLine)
    && (forall id | id in l.mine && Some(id) != entering :: l.mine[id] == InLine <==> id in l.queue.waiters)
    && (forall id | id in l.mine && id !in l.queue.waiters :: l.queue.holder == Some(id))
  }

  /** The record is in arrival order, and whoever is still here came later, the holder of the lock first. */
  ghost predicate InOrder(l: Lane, nextId: nat) {
    && (forall i, j :: 0 <= i < j < |l.sent| ==> l.sent[i].id < l.sent[j].id)
    && (forall i, id | 0 <= i < |l.sent| && id in l.mine :: l.sent[i].id < id)
    && (forall i | 0 <= i < |l.sent| :: l.sent[i].id < nextId)
    && (forall id | id in l.mine :: id < nextId)
    && (l.queue.holder.Some? ==> forall w | w in l.queue.waiters :: l.queue.holder.value < w)
  }

  /** Each sending started at least the interval after the one before had ended. */
  ghost predicate Paced(l: Lane, now: real) {
    && 0.0 <= l.queue.last <= now
    && (forall i | 0 <= i < |l.sent| :: l.sent[i].start <= l.sent[i].end <= l.queue.last)
    && (forall i, j | 0 <= i < j < |l.sent| :: l.sent[i].end + SEND_INTERVAL <= l.sent[j].start)
    && (forall id | id in l.mine && l.mine[id].Pausing? :: l.mine[id].until == l.queue.last + SEND_INTERVAL)
    && (forall id | id in l.mine && l.mine[id].Sending? :: l.queue.last + SEND_INTERVAL <= l.mine[id].start <= now)
  }

  ghost predicate Fits(l: Lane, entering: Option<nat>, now: real, nextId: nat) {
    Counted(l) && InPlace(l, entering) && InOrder(l, nextId) && Paced(l, now)
  }

  lemma JoinInPlace(l: Lane, id: nat)
    requires InPlace(l, None) && InOrder(l, id)
    ensures InPlace(JoinedLane(l, id), if Joined(l.queue, id).holder == Some(id) then Some(id) else None)
  {
    assert id !in l.mine;
    var more := l.queue.waiters + [id];
    forall i, j | 0 <= i < j < |more| ensures more[i] < more[j] {
      if j == |l.queue.waiters| { assert more[i] in l.queue.waiters; }
    }
    forall w ensures w in more <==> w in l.queue.waiters || w == id {}
  }

  lemma JoinInOrder(l: Lane, id: nat)
    requires InPlace(l, None) && InOrder(l, id)
    ensures InOrder(JoinedLane(l, id), id + 1)
  {
  }

  lemma JoinCounted(l: Lane, id: nat)
    requires Counted(l) && id !in l.mine && l.queue.size < QUEUE_LIMIT
    ensures Counted(JoinedLane(l, id))
  {
    assert JoinedLane(l, id).mine.Keys == l.mine.Keys + {id};
  }

  lemma JoinPaced(l: Lane, now: real, id: nat)
    requires Paced(l, now)
    ensures Paced(JoinedLane(l, id), now)
  {
  }

  lemma JoinFits(l: Lane, now: real, id: nat)
    requires Fits(l, None, now, id) && l.queue.size < QUEUE_LIMIT
    ensures Fits(JoinedLane(l, id), if Joined(l.queue, id).holder == Some(id) then Some(id) else None, now, id + 1)
  {
    JoinCounted(l, id);
    JoinInPlace(l, id);
    JoinInOrder(l, id);
    JoinPaced(l, now, id);
  }

  lemma TakeInPlace(l: Lane)
    requires InPlace(l, None) && l.queue.holder.None? && l.queue.waiters != []
    ensures InPlace(l.(queue := Taken(l.queue)), Some(l.queue.waiters[0]))
  {
    forall w ensures w in l.queue.waiters <==> w == l.queue.waiters[0] || w in l.queue.waiters[1..] {}
  }

  lemma TakeInOrder(l: Lane, nextId: nat)
    requires InPlace(l, None) && InOrder(l, nextId) && l.queue.holder.None? && l.queue.waiters != []
    ensures InOrder(l.(queue := Taken(l.queue)), nextId)
  {
  }

  lemma TakeFits(l: Lane, now: real, nextId: nat)
    requires Fits(l, None, now, nextId) && l.queue.holder.None? && l.queue.waiters != []
    ensures Fits(l.(queue := Taken(l.queue)), Some(l.queue.waiters[0]), now, nextId)
  {
    TakeInPlace(l);
    TakeInOrder(l, nextId);
    assert Paced(l.(queue := Taken(l.queue)), now);
  }

  /** The call with the lock goes on, pausing or sending. */
  function Moved(l: Lane, id: nat, phase: Phase): Lane {
    l.(mine := l.mine[id := phase])
  }

  lemma MovedInPlace(l: Lane, entering: Option<nat>, id: nat, phase: Phase)
    requires InPlace(l, entering) && l.queue.holder == Some(id) && phase != InLine
    requires entering.Some? ==> entering == Some(id)
    ensures InPlace(Moved(l, id, phase), None)
  {
  }

  lemma MovedInOrder(l: Lane, id: nat, phase: Phase, nextId: nat)
    requires InOrder(l, nextId) && id in l.mine
    ensures InOrder(Moved(l, id, phase), nextId)
  {
    assert Moved(l, id, phase).mine.Keys == l.mine.Keys;
  }

  lemma MovedPaced(l: Lane, id: nat, phase: Phase, now: real)
    requires Paced(l, now)
    requires match phase
             case InLine => true
             case Pausing(until) => until == l.queue.last + SEND_INTERVAL
             case Sending(start) => l.queue.last + SEND_INTERVAL <= start <= now
    ensures Paced(Moved(l, id, phase), now)
  {
  }

  lemma MovedFits(l: Lane, entering: Option<nat>, id: nat, phase: Phase, now: real, nextId: nat)
    requires Fits(l, entering, now, nextId) && l.queue.holder == Some(id) && (entering.Some? ==> entering == Some(id))
    requires match phase
             case InLine => false
             case Pausing(until) => until == l.queue.last + SEND_INTERVAL
             case Sending(start) => l.queue.last + SEND_INTERVAL <= start <= now
    ensures Fits(Moved(l, id, phase), None, now, nextId)
  {
    MovedInPlace(l, entering, id, phase);
    MovedInOrder(l, id, phase, nextId);
    MovedPaced(l, id, phase, now);
    assert Moved(l, id, phase).mine.Keys == l.mine.Keys;
  }

  lemma BeginFits(l: Lane, id: nat, now: real, nextId: nat)
    requires Fits(l, Some(id), now, nextId)
    ensures Fits(Begun(l, id, now), None, now, nextId)
  {
    var from := l.queue.last + SEND_INTERVAL;
    MovedFits(l, Some(id), id, if from > now then Pausing(from) else Sending(now), now, nextId);
  }

  lemma AscendingFrom(x: nat, rest: seq<nat>)
    requires Ascending(rest) && forall y | y in rest :: x < y
    ensures Ascending([x] + rest)
  {
    assert forall j :: 0 <= j < |rest| ==> rest[j] in rest;
  }

  lemma {:induction false} RemovedAscending(s: seq<nat>, id: nat)
    requires Ascending(s)
    ensures Ascending(Removed(s, id))
    ensures forall x :: x in Removed(s, id) <==> x in s && x != id
  {
    assert Distinct(s);
    RemovedFacts(s, id);
    if s != [] && s[0] != id {
      RemovedAscending(s[1..], id);
      forall y | y in Removed(s[1..], id) ensures s[0] < y { assert y in s[1..]; }
      AscendingFrom(s[0], Removed(s[1..], id));
    }
  }

  lemma GoneInPlace(l: Lane, entering: Option<nat>, id: nat, now: real)
    requires InPlace(l, entering) && id in l.mine && (entering.Some? ==> entering == Some(id))
    ensures InPlace(Gone(l, id, now), None)
  {
    RemovedAscending(l.queue.waiters, id);
  }

  lemma GoneInOrder(l: Lane, entering: Option<nat>, id: nat, now: real, nextId: nat)
    requires InPlace(l, entering) && InOrder(l, nextId) && id in l.mine
    ensures InOrder(Gone(l, id, now), nextId)
  {
    RemovedAscending(l.queue.waiters, id);
    var g := Gone(l, id, now);
    forall i, other | 0 <= i < |g.sent| && other in g.mine ensures g.sent[i].id < other {
      assert other in l.queue.waiters || l.queue.holder == Some(other);
      assert id in l.queue.waiters || l.queue.holder == Some(id);
    }
  }

  lemma GonePaced(l: Lane, entering: Option<nat>, id: nat, now: real)
    requires InPlace(l, entering) && Paced(l, now) && id in l.mine && (entering.Some? ==> entering == Some(id))
    ensures Paced(Gone(l, id, now), now)
  {
    forall other | other in l.mine && l.mine[other] != InLine && other != id ensures l.mine[id].InLine? {
      assert l.queue.holder == Some(other);
    }
  }

  lemma GoneFits(l: Lane, entering: Option<nat>, id: nat, now: real, nextId: nat)
    requires Fits(l, entering, now, nextId) && id in l.mine && (entering.Some? ==> entering == Some(id))
    ensures Fits(Gone(l, id, now), None, now, nextId)
  {
    GoneInPlace(l, entering, id, now);
    GoneInOrder(l, entering, id, now, nextId);
    GonePaced(l, entering, id, now);
    assert (l.mine - {id}).Keys == l.mine.Keys - {id};
  }

  lemma WakeFits(l: Lane, id: nat, now: real, nextId: nat)
    requires Fits(l, None, now, nextId) && id in l.mine && l.mine[id].Pausing? && now >= l.mine[id].until
    ensures Fits(l.(mine := l.mine[id := Sending(now)]), None, now, nextId)
  {
    MovedFits(l, None, id, Sending(now), now, nextId);
  }

  lemma LaterFits(l: Lane, now: real, later: real, nextId: nat, more: nat)
    requires Fits(l, None, now, nextId) && now <= later && nextId <= more
    ensures Fits(l, None, later, more)
  {
  }

  // --- The invariant of the whole system ---

  /** `at` is a lane and the call that is just getting its lock. */
  function EnteringAt(at: Option<(nat, nat)>, q: nat): Option<nat> {
    if at.Some? && at.value.0 == q then Some(at.value.1) else None
  }

  ghost predicate LaneFits(lanes: map<nat, Lane>, at: Option<(nat, nat)>, now: real, nextId: nat, q: nat) {
    q in lanes ==> Fits(lanes[q], EnteringAt(at, q), now, nextId)
  }

  /** Every lane is in order. */
  ghost predicate AllFit(lanes: map<nat, Lane>, at: Option<(nat, nat)>, now: real, nextId: nat) {
    0.0 <= now && forall q :: LaneFits(lanes, at, now, nextId, q)
  }

  lemma LaneChanges(lanes: map<nat, Lane>, at: Option<(nat, nat)>, now: real, nextId: nat,
                    q: nat, l: Lane, after: Option<(nat, nat)>, more: nat)
    requires AllFit(lanes, at, now, nextId) && nextId <= more
    requires (at.Some? ==> at.value.0 == q) && (after.Some? ==> after.value.0 == q)
    requires Fits(l, EnteringAt(after, q), now, more)
    ensures AllFit(lanes[q := l], after, now, more)
  {
    var changed := lanes[q := l];
    forall p ensures LaneFits(changed, after, now, more, p) {
      if p != q && p in lanes {
        assert LaneFits(lanes, at, now, nextId, p);
        LaterFits(lanes[p], now, now, nextId, more);
      }
    }
  }

  /** Every unfinished call is on its lane, whether a bot still has that lane or it was forgotten. */
  ghost predicate CallsPlaced(s: Sys) {
    && s.pending == |s.calls|
    && (forall id | id in s.calls :: s.calls[id] in s.lanes && id in s.lanes[s.calls[id]].mine)
    && (forall q, id | q in s.lanes && id in s.lanes[q].mine :: Get(s.calls, id) == Some(q))
    && (forall b | b in s.bots :: s.bots[b] in s.lanes)
  }

  /** While a `stop` waits and nobody calls `start`, nothing is admitted, and its event fires on empty. */
  ghost predicate StopsHold(s: Sys) {
    forall k | k in s.stops ::
      s.stops[k].starts <= s.starts && (s.stops[k].starts == s.starts ==> s.stopping && (s.stops[k].fired ==> s.pending == 0))
  }

  ghost predicate Inv(s: Sys, at: Option<(nat, nat)>) {
    AllFit(s.lanes, at, s.now, s.nextId) && CallsPlaced(s) && StopsHold(s)
  }

  /** A lane that keeps its calls may change. */
  lemma SameCallsPlaced(s: Sys, q: nat, l: Lane)
    requires CallsPlaced(s) && q in s.lanes && l.mine.Keys == s.lanes[q].mine.Keys
    ensures CallsPlaced(s.(lanes := s.lanes[q := l]))
  {
  }

  lemma EndedPlaced(s: Sys, q: nat, id: nat)
    requires CallsPlaced(s) && q in s.lanes && id in s.lanes[q].mine
    ensures CallsPlaced(Ended(s, q, id))
  {
    var t := Ended(s, q, id);
    assert Get(s.calls, id) == Some(q);
    assert t.calls.Keys == s.calls.Keys - {id};
    forall p, other | p in t.lanes && other in t.lanes[p].mine ensures Get(t.calls, other) == Some(p) {
      assert other in s.lanes[p].mine && Get(s.calls, other) == Some(p);
    }
  }

  lemma EndedStops(s: Sys, q: nat, id: nat)
    requires StopsHold(s) && q in s.lanes && s.pending > 0
    ensures StopsHold(Ended(s, q, id))
  {
  }

  lemma EndedKeeps(s: Sys, at: Option<(nat, nat)>, q: nat, id: nat)
    requires Inv(s, at) && q in s.lanes && id in s.lanes[q].mine && (at.Some? ==> at == Some((q, id)))
    ensures Inv(Ended(s, q, id), None)
  {
    assert LaneFits(s.lanes, at, s.now, s.nextId, q);
    GoneFits(s.lanes[q], EnteringAt(at, q), id, s.now, s.nextId);
    LaneChanges(s.lanes, at, s.now, s.nextId, q, Gone(s.lanes[q], id, s.now), None, s.nextId);
    EndedPlaced(s, q, id);
    EndedStops(s, q, id);
  }

  lemma LockedKeeps(s: Sys, q: nat, id: nat)
    requires Inv(s, Some((q, id))) && q in s.lanes
    ensures Inv(Locked(s, q, id), None)
  {
    assert LaneFits(s.lanes, Some((q, id)), s.now, s.nextId, q);
    if s.closed {
      EndedKeeps(s, Some((q, id)), q, id);
    } else {
      var l := Begun(s.lanes[q], id, s.now);
      BeginFits(s.lanes[q], id, s.now, s.nextId);
      LaneChanges(s.lanes, Some((q, id)), s.now, s.nextId, q, l, None, s.nextId);
      assert l.mine.Keys == s.lanes[q].mine.Keys;
      SameCallsPlaced(s, q, l);
    }
  }

  lemma EnteredOn(s: Sys, bot: string, created: nat, p: nat, other: nat)
    requires CallsPlaced(s) && s.nextId !in s.calls
    requires var t := Entered(s, bot, created); p in t.lanes && other in t.lanes[p].mine
    ensures Get(Entered(s, bot, created).calls, other) == Some(p)
  {
    if p in s.lanes && other in s.lanes[p].mine { assert Get(s.calls, other) == Some(p); }
  }

  lemma EnteredPlaced(s: Sys, bot: string, created: nat)
    requires CallsPlaced(s) && s.nextId !in s.calls && s.nextId !in LaneAt(s, QueueOf(s.bots, bot, created)).mine
    ensures CallsPlaced(Entered(s, bot, created))
  {
    var t := Entered(s, bot, created);
    assert t.calls.Keys == s.calls.Keys + {s.nextId};
    forall p, other | p in t.lanes && other in t.lanes[p].mine ensures Get(t.calls, other) == Some(p) {
      EnteredOn(s, bot, created, p, other);
    }
  }

  /** Which call, if any, gets the free lock at once. */
  function Gets(s: Sys, bot: string, created: nat): Option<(nat, nat)> {
    var q := QueueOf(s.bots, bot, created);
    if Joined(LaneAt(s, q).queue, s.nextId).holder == Some(s.nextId) then Some((q, s.nextId)) else None
  }

  lemma NextIdIsNew(s: Sys, q: nat)
    requires AllFit(s.lanes, None, s.now, s.nextId) && CallsPlaced(s)
    ensures s.nextId !in s.calls && s.nextId !in LaneAt(s, q).mine
  {
    assert LaneFits(s.lanes, None, s.now, s.nextId, q);
    forall id | id in s.calls ensures id < s.nextId { assert LaneFits(s.lanes, None, s.now, s.nextId, s.calls[id]); }
  }

  lemma JoinedFits(s: Sys, bot: string, created: nat)
    requires AllFit(s.lanes, None, s.now, s.nextId) && Enabled(s, Call(bot, created))
    ensures var q := QueueOf(s.bots, bot, created);
            Fits(JoinedLane(LaneAt(s, q), s.nextId), EnteringAt(Gets(s, bot, created), q), s.now, s.nextId + 1)
  {
    var q := QueueOf(s.bots, bot, created);
    assert LaneFits(s.lanes, None, s.now, s.nextId, q);
    JoinFits(LaneAt(s, q), s.now, s.nextId);
  }

  lemma EnteredStops(s: Sys, bot: string, created: nat)
    requires StopsHold(s) && !s.stopping
    ensures StopsHold(Entered(s, bot, created))
  {
  }

  /** The system has exactly these lanes now. */
  lemma SystemFits(s: Sys, lanes: map<nat, Lane>, at: Option<(nat, nat)>, now: real, nextId: nat)
    requires AllFit(lanes, at, now, nextId) && s.lanes == lanes && s.now == now && s.nextId == nextId
    ensures AllFit(s.lanes, at, s.now, s.nextId)
  {
  }

  lemma EnteredLanes(s: Sys, bot: string, created: nat)
    requires AllFit(s.lanes, None, s.now, s.nextId) && Enabled(s, Call(bot, created))
    ensures var q := QueueOf(s.bots, bot, created);
            AllFit(s.lanes[q := JoinedLane(LaneAt(s, q), s.nextId)], Gets(s, bot, created), s.now, s.nextId + 1)
  {
    var q := QueueOf(s.bots, bot, created);
    JoinedFits(s, bot, created);
    LaneChanges(s.lanes, None, s.now, s.nextId, q, JoinedLane(LaneAt(s, q), s.nextId), Gets(s, bot, created), s.nextId + 1);
  }

  lemma EnteredFits(s: Sys, bot: string, created: nat)
    requires AllFit(s.lanes, None, s.now, s.nextId) && Enabled(s, Call(bot, created))
    ensures var t := Entered(s, bot, created); AllFit(t.lanes, Gets(s, bot, created), t.now, t.nextId)
  {
    var q := QueueOf(s.bots, bot, created);
    EnteredLanes(s, bot, created);
    SystemFits(Entered(s, bot, created), s.lanes[q := JoinedLane(LaneAt(s, q), s.nextId)], Gets(s, bot, created), s.now, s.nextId + 1);
  }

  lemma EnteredCalls(s: Sys, bot: string, created: nat)
    requires Inv(s, None) && Enabled(s, Call(bot, created))
    ensures CallsPlaced(Entered(s, bot, created)) && StopsHold(Entered(s, bot, created))
  {
    NextIdIsNew(s, QueueOf(s.bots, bot, created));
    EnteredPlaced(s, bot, created);
    EnteredStops(s, bot, created);
  }

  lemma EnteredKeeps(s: Sys, bot: string, created: nat)
    requires Inv(s, None) && Enabled(s, Call(bot, created))
    ensures Inv(Entered(s, bot, created), Gets(s, bot, created))
  {
    EnteredFits(s, bot, created);
    EnteredCalls(s, bot, created);
  }

  lemma CallKeeps(s: Sys, bot: string, created: nat)
    requires Inv(s, None) && Enabled(s, Call(bot, created))
    ensures Inv(Do(s, Call(bot, created)), None)
  {
    EnteredKeeps(s, bot, created);
    if Gets(s, bot, created).Some? { LockedKeeps(Entered(s, bot, created), QueueOf(s.bots, bot, created), s.nextId); }
  }

  lemma ResumeKeeps(s: Sys, q: nat)
    requires Inv(s, None) && Enabled(s, Resume(q))
    ensures Inv(Do(s, Resume(q)), None)
  {
    var l := s.lanes[q].(queue := Taken(s.lanes[q].queue));
    var id := s.lanes[q].queue.waiters[0];
    assert LaneFits(s.lanes, None, s.now, s.nextId, q);
    TakeFits(s.lanes[q], s.now, s.nextId);
    LaneChanges(s.lanes, None, s.now, s.nextId, q, l, Some((q, id)), s.nextId);
    SameCallsPlaced(s, q, l);
    LockedKeeps(s.(lanes := s.lanes[q := l]), q, id);
  }

  lemma WakeKeeps(s: Sys, id: nat)
    requires Inv(s, None) && Enabled(s, Wake(id))
    ensures Inv(Do(s, Wake(id)), None)
  {
    var q := s.calls[id];
    var l := s.lanes[q].(mine := s.lanes[q].mine[id := Sending(s.now)]);
    assert LaneFits(s.lanes, None, s.now, s.nextId, q);
    WakeFits(s.lanes[q], id, s.now, s.nextId);
    LaneChanges(s.lanes, None, s.now, s.nextId, q, l, None, s.nextId);
    assert l.mine.Keys == s.lanes[q].mine.Keys;
    SameCallsPlaced(s, q, l);
  }

  lemma TickFits(lanes: map<nat, Lane>, now: real, later: real, nextId: nat)
    requires AllFit(lanes, None, now, nextId) && now <= later
    ensures AllFit(lanes, None, later, nextId)
  {
    forall q ensures LaneFits(lanes, None, later, nextId, q) {
      assert LaneFits(lanes, None, now, nextId, q);
      if q in lanes { LaterFits(lanes[q], now, later, nextId, nextId); }
    }
  }

  lemma TickPlaced(s: Sys, later: real)
    requires CallsPlaced(s) && StopsHold(s)
    ensures CallsPlaced(s.(now := later)) && StopsHold(s.(now := later))
  {
  }

  lemma TickKeeps(s: Sys, d: real)
    requires Inv(s, None) && d >= 0.0
    ensures Inv(Do(s, Tick(d)), None)
  {
    TickFits(s.lanes, s.now, s.now + d, s.nextId);
    SystemFits(Do(s, Tick(d)), s.lanes, None, s.now + d, s.nextId);
    TickPlaced(s, s.now + d);
  }

  predicate IsSwitch(step: Step) {
    step.Forget? || step.Start? || step.StopBegin? || step.StopReturns? || step.StopTimesOut?
  }

  lemma SwitchStops(s: Sys, step: Step)
    requires StopsHold(s) && Enabled(s, step) && IsSwitch(step)
    ensures StopsHold(Do(s, step))
  {
  }

  lemma SwitchPlaced(s: Sys, step: Step)
    requires CallsPlaced(s) && Enabled(s, step) && IsSwitch(step)
    ensures CallsPlaced(Do(s, step))
  {
  }

  /** No lane and no call changes. */
  lemma SwitchKeeps(s: Sys, step: Step)
    requires Inv(s, None) && Enabled(s, step) && IsSwitch(step)
    ensures Inv(Do(s, step), None)
  {
    SwitchStops(s, step);
    SwitchPlaced(s, step);
    SystemFits(Do(s, step), s.lanes, None, s.now, s.nextId);
  }

  lemma StepKeeps(s: Sys, step: Step)
    requires Inv(s, None)
    ensures Inv(Do(s, step), None)
  {
    if Enabled(s, step) {
      match step {
        case Tick(d) => TickKeeps(s, d);
        case Call(bot, created) => CallKeeps(s, bot, created);
        case Resume(q) => ResumeKeeps(s, q);
        case Wake(id) => WakeKeeps(s, id);
        case Finish(id) => EndedKeeps(s, None, s.calls[id], id);
        case _ => SwitchKeeps(s, step);
      }
    }
  }

  // --- The steps are the operations ---

  /** A call that is not refused joins its queue, or is dropped at once on a closed service that has the lock
      free. */
  lemma CallIsOperation(s: Sys, bot: string, created: nat)
    requires Inv(s, None) && created !in s.lanes
    requires !s.stopping && LaneAt(s, QueueOf(s.bots, bot, created)).queue.size < QUEUE_LIMIT
    ensures var t, q := Do(s, Call(bot, created)), QueueOf(s.bots, bot, created);
            var joined := Joined(LaneAt(s, q).queue, s.nextId);
            && t.nextId == s.nextId + 1 && t.bots == s.bots[bot := q] && q in t.lanes
            && t.lanes[q].queue == if joined.holder == Some(s.nextId) && s.closed then Left(joined, s.nextId, None) else joined
  {
    NextIdIsNew(s, QueueOf(s.bots, bot, created));
  }

  lemma ResumeIsOperation(s: Sys, q: nat)
    requires Inv(s, None) && q in s.lanes && s.lanes[q].queue.holder.None? && s.lanes[q].queue.waiters != []
    ensures var t, l := Do(s, Resume(q)), s.lanes[q].queue;
            q in t.lanes && t.lanes[q].queue == if s.closed then Left(Taken(l), l.waiters[0], None) else Taken(l)
  {
    assert LaneFits(s.lanes, None, s.now, s.nextId, q);
    assert s.lanes[q].queue.waiters[0] in s.lanes[q].queue.waiters;
  }

  /** A pause that is over ends in sending; a call that ends leaves its queue, with the time if it was sending. */
  lemma CallGoesOn(s: Sys, id: nat)
    requires id in s.calls && s.calls[id] in s.lanes && id in s.lanes[s.calls[id]].mine
    ensures var q, l := s.calls[id], s.lanes[s.calls[id]];
            && (l.mine[id].Pausing? && s.now >= l.mine[id].until ==>
                  var t := Do(s, Wake(id)); q in t.lanes && Get(t.lanes[q].mine, id) == Some(Sending(s.now)))
            && var t := Do(s, Finish(id));
               && id !in t.calls && q in t.lanes
               && t.lanes[q].queue == Left(l.queue, id, if l.mine[id].Sending? then Some(s.now) else None)
  {
  }

  lemma SwitchesAreOperations(s: Sys, step: Step)
    ensures var t := Do(s, step);
            match step
            case Tick(d) => d >= 0.0 ==> t == s.(now := s.now + d)
            case Forget(bot) => t == s.(bots := s.bots - {bot})
            case Start => t == s.(stopping := false, closed := false, starts := t.starts)
            case StopBegin(k) =>
              k !in s.stops ==> t.stopping && (k in t.stops <==> s.pending != 0) && t.calls == s.calls && t.closed == s.closed
            case StopReturns(k) =>
              k in s.stops && s.stops[k].fired ==> k !in t.stops && t.drained == None && t.bots == map[] && t.closed == s.closed
            case StopTimesOut(k) =>
              k in s.stops && s.now >= s.stops[k].since + DRAIN_TIMEOUT ==>
                k !in t.stops && t.drained == None && t.bots == map[] && t.closed
            case _ => true
  {
  }

  // --- Over every run ---

  const START := Sys(0.0, map[], map[], map[], 0, 0, false, false, None, map[], 0)

  lemma {:induction false} RunKeeps(s: Sys, steps: seq<Step>)
    requires Inv(s, None)
    ensures Inv(Run(s, steps), None)
    decreases |steps|
  {
    if steps != [] {
      StepKeeps(s, steps[0]);
      RunKeeps(Do(s, steps[0]), steps[1..]);
    }
  }

  function CallsOn(s: Sys, q: nat): set<nat> {
    set id | id in s.calls && s.calls[id] == q
  }

  /** `_pending` counts the unfinished calls over all queues, forgotten ones too; each queue's size
      counts its own and stays within the limit. */
  lemma PendingIsExact(steps: seq<Step>, q: nat)
    ensures var s := Run(START, steps);
            && s.pending == |s.calls|
            && (q in s.lanes ==> s.lanes[q].queue.size == |CallsOn(s, q)| <= QUEUE_LIMIT)
  {
    RunKeeps(START, steps);
    var s := Run(START, steps);
    if q in s.lanes {
      assert LaneFits(s.lanes, None, s.now, s.nextId, q);
      forall id ensures id in CallsOn(s, q) <==> id in s.lanes[q].mine.Keys {
        if id in s.lanes[q].mine { assert Get(s.calls, id) == Some(q); }
      }
      assert CallsOn(s, q) == s.lanes[q].mine.Keys;
    }
  }

  /** Each queue sends one call at a time, in arrival order, and each sending starts at least the
      interval after the one before it ended. */
  lemma SendsArePaced(steps: seq<Step>, q: nat)
    requires q in Run(START, steps).lanes
    ensures var l := Run(START, steps).lanes[q];
            && (forall i, j | 0 <= i < j < |l.sent| ::
                  l.sent[i].id < l.sent[j].id && l.sent[i].end + SEND_INTERVAL <= l.sent[j].start)
            && (forall a, b | a in l.mine && b in l.mine && l.mine[a] != InLine && l.mine[b] != InLine :: a == b)
            && (forall i, id | 0 <= i < |l.sent| && id in l.mine :: l.sent[i].id < id)
            && (forall i, id | 0 <= i < |l.sent| && id in l.mine && l.mine[id].Sending? ::
                  l.sent[i].end + SEND_INTERVAL <= l.mine[id].start)
            && (forall a, b | a in l.mine && b in l.mine && l.mine[a] != InLine && l.mine[b] == InLine :: a < b)
  {
    RunKeeps(START, steps);
    var s := Run(START, steps);
    assert LaneFits(s.lanes, None, s.now, s.nextId, q);
  }

  /** `stop` returns without timing out only when nothing is pending, unless `start` was called while
      it waited; exactly when a waiting one will is `StopDrainsIff`. */
  lemma StopDrains(steps: seq<Step>, k: nat)
    ensures var s := Run(START, steps);
            && (Enabled(s, StopReturns(k)) && s.stops[k].starts == s.starts ==> s.pending == 0 && s.calls == map[] && s.stopping)
            && (k !in s.stops && k !in Do(s, StopBegin(k)).stops ==> s.pending == 0 && s.calls == map[])
  {
    RunKeeps(START, steps);
    if Run(START, steps).pending == 0 { NothingPending(Run(START, steps)); }
  }

  lemma NothingPending(s: Sys)
    requires CallsPlaced(s) && s.pending == 0
    ensures s.calls == map[]
  {
  }

  /** Nothing is admitted any more. */
  lemma {:induction false} DrainedUntilStarted(s: Sys, steps: seq<Step>)
    requires s.stopping && s.calls == map[] && Start !in steps
    ensures Run(s, steps).stopping && Run(s, steps).calls == map[]
    decreases |steps|
  {
    if steps != [] {
      assert steps[0] != Start;
      if steps[0].Resume? { ResumeWithoutCalls(s, steps[0].q); }
      DrainedUntilStarted(Do(s, steps[0]), steps[1..]);
    }
  }

  lemma ResumeWithoutCalls(s: Sys, q: nat)
    requires s.calls == map[]
    ensures Do(s, Resume(q)).calls == map[] && Do(s, Resume(q)).stopping == s.stopping
  {
    assert s.calls - {if Enabled(s, Resume(q)) then s.lanes[q].queue.waiters[0] else 0} == map[];
  }

  // Exactly when a waiting `stop` keeps its promise.

  /** However the run goes on without another `start`, this `stop` can return without timing out only
      with nothing pending. */
  ghost predicate WillDrain(s: Sys, k: nat) {
    forall steps | Start !in steps && Enabled(Run(s, steps), StopReturns(k)) :: Run(s, steps).calls == map[]
  }

  /** If the event of this `stop` has fired nothing is pending, and nothing can be pending again: calls are
      refused, or dropped at once. A `stop` whose event was replaced cannot return at all. */
  predicate IsDraining(s: Sys, k: nat) {
    k in s.stops ==>
      && (s.stops[k].fired ==> s.calls == map[])
      && (s.stopping || s.closed || (!s.stops[k].fired && s.drained != Some(k)))
  }

  ghost predicate OwnEvents(s: Sys) {
    forall k | k in s.stops :: s.stops[k].event == k
  }

  lemma EventsAreOwnStep(s: Sys, step: Step)
    requires OwnEvents(s)
    ensures OwnEvents(Do(s, step))
  {
  }

  lemma {:induction false} EventsAreOwn(s: Sys, steps: seq<Step>)
    requires OwnEvents(s)
    ensures OwnEvents(Run(s, steps))
    decreases |steps|
  {
    if steps != [] {
      EventsAreOwnStep(s, steps[0]);
      EventsAreOwn(Do(s, steps[0]), steps[1..]);
    }
  }

  lemma NobodyInLane(l: Lane)
    requires Counted(l) && InPlace(l, None) && l.mine == map[]
    ensures l.queue.size == 0 && l.queue.holder == None && l.queue.waiters == []
  {
    WaitersAreMine(l);
  }

  lemma WaitersAreMine(l: Lane)
    requires InPlace(l, None)
    ensures l.queue.waiters != [] ==> l.mine != map[]
  {
    if l.queue.waiters != [] { assert l.queue.waiters[0] in l.mine; }
  }

  /** Without calls every lane is empty. */
  lemma EmptyLane(s: Sys, q: nat)
    requires Inv(s, None) && s.calls == map[]
    ensures var l := LaneAt(s, q); l.queue.size == 0 && l.queue.holder == None && l.queue.waiters == []
  {
    if q in s.lanes {
      assert LaneFits(s.lanes, None, s.now, s.nextId, q);
      forall id ensures id !in s.lanes[q].mine { assert id in s.lanes[q].mine ==> Get(s.calls, id) == Some(q); }
      NobodyInLane(s.lanes[q]);
    }
  }

  /** On a closed service an arriving call that finds nobody is dropped at once. */
  lemma ClosedCallEnds(s: Sys, bot: string, created: nat)
    requires Inv(s, None) && s.calls == map[] && s.closed && Enabled(s, Call(bot, created))
    ensures Do(s, Call(bot, created)).calls == map[]
  {
    EmptyLane(s, QueueOf(s.bots, bot, created));
    assert Do(s, Call(bot, created)).calls == map[s.nextId := QueueOf(s.bots, bot, created)] - {s.nextId};
  }

  lemma DrainingStep(s: Sys, step: Step, k: nat)
    requires Inv(s, None) && OwnEvents(s) && IsDraining(s, k) && step != Start
    ensures IsDraining(Do(s, step), k)
  {
    if Enabled(s, step) {
      match step {
        case Call(bot, created) => DrainingCall(s, bot, created, k);
        case Resume(q) => DrainingResume(s, q, k);
        case Finish(id) => DrainingEnd(s, s.calls[id], id, k);
        case _ =>
      }
    }
  }

  lemma DrainingEnd(s: Sys, q: nat, id: nat, k: nat)
    requires CallsPlaced(s) && OwnEvents(s) && IsDraining(s, k) && q in s.lanes && id in s.calls
    ensures IsDraining(Ended(s, q, id), k)
  {
    var t := Ended(s, q, id);
    assert t.calls.Keys == s.calls.Keys - {id};
    assert |s.calls.Keys - {id}| == |s.calls.Keys| - 1;
    assert t.pending == |t.calls|;
  }

  lemma DrainingResume(s: Sys, q: nat, k: nat)
    requires Inv(s, None) && OwnEvents(s) && IsDraining(s, k) && Enabled(s, Resume(q))
    ensures IsDraining(Do(s, Resume(q)), k)
  {
    var l := s.lanes[q].(queue := Taken(s.lanes[q].queue));
    var id := s.lanes[q].queue.waiters[0];
    var t := s.(lanes := s.lanes[q := l]);
    assert LaneFits(s.lanes, None, s.now, s.nextId, q);
    assert id in s.lanes[q].queue.waiters && id in s.lanes[q].mine;
    assert Get(s.calls, id) == Some(q);
    SameCallsPlaced(s, q, l);
    if s.closed { DrainingEnd(t, q, id, k); }
  }

  lemma DrainingCall(s: Sys, bot: string, created: nat, k: nat)
    requires Inv(s, None) && OwnEvents(s) && IsDraining(s, k) && Enabled(s, Call(bot, created))
    ensures IsDraining(Do(s, Call(bot, created)), k)
  {
    if k in s.stops && s.stops[k].fired {
      ClosedCallEnds(s, bot, created);
    } else {
      EnteredCalls(s, bot, created);
      var t := Entered(s, bot, created);
      if Gets(s, bot, created).Some? && s.closed { DrainingEnd(t, QueueOf(s.bots, bot, created), s.nextId, k); }
    }
  }

  lemma {:induction false} DrainingStays(s: Sys, steps: seq<Step>, k: nat)
    requires Inv(s, None) && OwnEvents(s) && IsDraining(s, k) && Start !in steps
    ensures IsDraining(Run(s, steps), k)
    decreases |steps|
  {
    if steps != [] {
      assert steps[0] != Start;
      DrainingStep(s, steps[0], k);
      StepKeeps(s, steps[0]);
      EventsAreOwnStep(s, steps[0]);
      DrainingStays(Do(s, steps[0]), steps[1..], k);
    }
  }

  lemma {:induction false} Beyond(used: set<nat>) returns (q: nat)
    ensures forall u | u in used :: u < q
  {
    q := 0;
    if used != {} {
      var u :| u in used;
      var rest := Beyond(used - {u});
      q := if u < rest then rest else u + 1;
      assert forall v | v in used :: v == u || v in used - {u};
    }
  }

  /** An idle service that takes calls can always get one, which is then pending. */
  lemma CallComes(s: Sys) returns (step: Step)
    requires Inv(s, None) && s.calls == map[] && !s.stopping && !s.closed
    ensures step != Start
    ensures var t := Do(s, step);
            t.calls != map[] && t.(lanes := s.lanes, calls := s.calls, bots := s.bots, pending := s.pending, nextId := s.nextId) == s
  {
    var created := Beyond(s.lanes.Keys);
    step := Call("", created);
    EmptyLane(s, QueueOf(s.bots, "", created));
    assert Enabled(s, step);
    assert s.nextId in Do(s, step).calls;
  }

  lemma {:induction false} RunConcat(s: Sys, a: seq<Step>, b: seq<Step>)
    ensures Run(s, a + b) == Run(Run(s, a), b)
    decreases |a|
  {
    if a == [] { assert a + b == b; } else {
      assert (a + b)[1..] == a[1..] + b;
      RunConcat(Do(s, a[0]), a[1..], b);
    }
  }

  lemma RunOne(s: Sys, step: Step)
    ensures Run(s, [step]) == Do(s, step)
  {
    assert [step][1..] == [];
  }

  lemma OneCallEnds(s: Sys, id: nat, k: nat)
    requires Inv(s, None) && id in s.calls && k in s.stops && s.drained == Some(k) && s.stops[k].event == k
    ensures var t := Do(s, Finish(id));
            && Inv(t, None) && t.calls == s.calls - {id} && |t.calls| < |s.calls| && t.drained == s.drained
            && k in t.stops && t.stops[k].event == k && (t.calls == map[] ==> t.stops[k].fired)
            && t.stopping == s.stopping && t.closed == s.closed
  {
    StepKeeps(s, Finish(id));
    assert (s.calls - {id}).Keys == s.calls.Keys - {id};
    assert |s.calls.Keys - {id}| == |s.calls.Keys| - 1;
  }

  /** All calls can end; the event of the last `stop` fires with the last of them. */
  lemma {:induction false} CallsEnd(s: Sys, k: nat) returns (steps: seq<Step>)
    requires Inv(s, None) && s.calls != map[] && k in s.stops && s.drained == Some(k) && s.stops[k].event == k
    ensures Start !in steps
    ensures var t := Run(s, steps);
            && t.calls == map[] && k in t.stops && t.stops[k].fired
            && t.stopping == s.stopping && t.closed == s.closed
    decreases |s.calls|
  {
    var id :| id in s.calls;
    OneCallEnds(s, id, k);
    var t := Do(s, Finish(id));
    RunOne(s, Finish(id));
    steps := [Finish(id)];
    if t.calls != map[] {
      var more := CallsEnd(t, k);
      RunConcat(s, [Finish(id)], more);
      steps := [Finish(id)] + more;
    }
  }

  /** The event can still fire. */
  lemma EventFires(s: Sys, k: nat) returns (steps: seq<Step>)
    requires Inv(s, None) && OwnEvents(s) && k in s.stops && s.drained == Some(k) && !s.stopping && !s.closed
    ensures Start !in steps
    ensures var t := Run(s, steps);
            t.calls == map[] && k in t.stops && t.stops[k].fired && !t.stopping && !t.closed
  {
    if s.calls == map[] {
      var first := CallComes(s);
      StepKeeps(s, first);
      var ends := CallsEnd(Do(s, first), k);
      steps := [first] + ends;
    } else {
      steps := CallsEnd(s, k);
    }
  }

  lemma BreaksDraining(s: Sys, k: nat) returns (steps: seq<Step>)
    requires Inv(s, None) && OwnEvents(s) && k in s.stops && !IsDraining(s, k)
    ensures Start !in steps
    ensures var t := Run(s, steps); Enabled(t, StopReturns(k)) && t.calls != map[]
  {
    steps := [];
    if !s.stops[k].fired { steps := EventFires(s, k); }
    var t := Run(s, steps);
    RunKeeps(s, steps);
    if t.calls == map[] {
      var last := CallComes(t);
      RunConcat(s, steps, [last]);
      RunOne(t, last);
      steps := steps + [last];
    }
  }

  /** A waiting `stop` keeps its promise, however the run goes on until the next `start`, exactly when it
      is draining. */
  lemma StopDrainsIff(before: seq<Step>, k: nat)
    requires k in Run(START, before).stops
    ensures var s := Run(START, before); WillDrain(s, k) <==> IsDraining(s, k)
  {
    var s := Run(START, before);
    RunKeeps(START, before);
    EventsAreOwn(START, before);
    if IsDraining(s, k) {
      forall steps | Start !in steps && Enabled(Run(s, steps), StopReturns(k)) ensures Run(s, steps).calls == map[] {
        DrainingStays(s, steps, k);
      }
    } else {
      var steps := BreaksDraining(s, k);
      assert !WillDrain(s, k);
    }
  }

  /** A run in which the promise is broken: `start` comes after the last call has ended and before `stop` returns. */
  lemma StartedWhileStopping() returns (steps: seq<Step>)
    ensures var s := Run(START, steps); Enabled(s, StopReturns(0)) && s.calls == map[] && !WillDrain(s, 0)
  {
    steps := [Call("bot", 0), StopBegin(0), Finish(0), Start];
    var a := Do(START, steps[0]);
    assert a.calls == map[0 := 0];
    var b := Do(a, steps[1]);
    var c := Do(b, steps[2]);
    assert c.calls == map[];
    var d := Do(c, steps[3]);
    RunOfFour(START, steps);
    StopDrainsIff(steps, 0);
  }

  lemma RunOfFour(s: Sys, steps: seq<Step>)
    requires |steps| == 4
    ensures Run(s, steps) == Do(Do(Do(Do(s, steps[0]), steps[1]), steps[2]), steps[3])
  {
    var a := Do(s, steps[0]);
    var b := Do(a, steps[1]);
    var c := Do(b, steps[2]);
    var two := steps[1..][1..];
    assert two == [steps[2], steps[3]] && two[1..] == [steps[3]];
    assert Run(c, two[1..]) == Run(Do(c, steps[3]), []);
    assert Run(a, steps[1..]) == Run(b, two) == Run(c, two[1..]);
  }

  /** On this lane the call is at most in line, and was never sent. */
  ghost predicate UnsentOn(l: Lane, id: nat) {
    (id in l.mine ==> l.mine[id] == InLine) && forall i | 0 <= i < |l.sent| :: l.sent[i].id != id
  }

  ghost predicate Unsent(s: Sys, id: nat) {
    forall q | q in s.lanes :: UnsentOn(s.lanes[q], id)
  }

  lemma GoneUnsent(l: Lane, other: nat, id: nat, now: real)
    requires UnsentOn(l, id)
    ensures UnsentOn(Gone(l, other, now), id)
  {
  }

  lemma EndedUnsent(s: Sys, q: nat, other: nat, id: nat)
    requires Unsent(s, id) && q in s.lanes
    ensures Unsent(Ended(s, q, other), id)
  {
    GoneUnsent(s.lanes[q], other, id, s.now);
  }

  lemma EnteredUnsent(s: Sys, bot: string, created: nat, id: nat)
    requires Unsent(s, id)
    ensures Unsent(Entered(s, bot, created), id)
  {
    var q := QueueOf(s.bots, bot, created);
    assert q in s.lanes ==> UnsentOn(s.lanes[q], id);
    assert UnsentOn(JoinedLane(LaneAt(s, q), s.nextId), id);
  }

  lemma ClosedStep(s: Sys, step: Step, id: nat)
    requires s.closed && step != Start && Unsent(s, id)
    ensures Do(s, step).closed && Unsent(Do(s, step), id)
  {
    if Enabled(s, step) {
      match step {
        case Call(bot, created) =>
          EnteredUnsent(s, bot, created, id);
          EndedUnsent(Entered(s, bot, created), QueueOf(s.bots, bot, created), s.nextId, id);
        case Resume(q) =>
          var taken := s.(lanes := s.lanes[q := s.lanes[q].(queue := Taken(s.lanes[q].queue))]);
          assert UnsentOn(s.lanes[q], id);
          assert Unsent(taken, id);
          EndedUnsent(taken, q, s.lanes[q].queue.waiters[0], id);
        case Wake(other) => assert UnsentOn(s.lanes[s.calls[other]], id);
        case Finish(other) => EndedUnsent(s, s.calls[other], other, id);
        case _ =>
      }
    }
  }

  /** Once a `stop` has timed out, no call that is still in line is sent any more, until `start`. */
  lemma {:induction false} ClosedSendsNoMore(s: Sys, steps: seq<Step>, id: nat)
    requires s.closed && Start !in steps && Unsent(s, id)
    ensures Unsent(Run(s, steps), id)
    decreases |steps|
  {
    if steps != [] {
      assert steps[0] != Start;
      ClosedStep(s, steps[0], id);
      ClosedSendsNoMore(Do(s, steps[0]), steps[1..], id);
    }
  }

  ghost predicate NotSentOn(l: Lane, id: nat) {
    (id in l.mine ==> !l.mine[id].Sending?) && forall i | 0 <= i < |l.sent| :: l.sent[i].id != id
  }

  /** Neither sent nor being sent. */
  ghost predicate NotSent(s: Sys, id: nat) {
    forall q | q in s.lanes :: NotSentOn(s.lanes[q], id)
  }

  /** However the run goes on until the next `start`, the call is not sent. */
  ghost predicate WillNotSend(s: Sys, id: nat) {
    forall steps | Start !in steps :: NotSent(Run(s, steps), id)
  }

  lemma WokenIsSent(s: Sys, q: nat, id: nat)
    requires q in s.lanes && id in s.lanes[q].mine && Get(s.calls, id) == Some(q) && Enabled(s, Wake(id))
    ensures !NotSent(Do(s, Wake(id)), id)
  {
    assert !NotSentOn(Do(s, Wake(id)).lanes[q], id);
  }

  /** A call that pauses with the lock looks at nothing any more before it sends. */
  lemma PausingWakes(s: Sys, q: nat, id: nat) returns (steps: seq<Step>)
    requires CallsPlaced(s) && q in s.lanes && id in s.lanes[q].mine && s.lanes[q].mine[id].Pausing?
    ensures Start !in steps && !NotSent(Run(s, steps), id)
  {
    var until := s.lanes[q].mine[id].until;
    var tick := Tick(if until > s.now then until - s.now else 0.0);
    assert Get(s.calls, id) == Some(q);
    WokenIsSent(Do(s, tick), q, id);
    steps := [tick, Wake(id)];
    RunConcat(s, [tick], [Wake(id)]);
    assert steps == [tick] + [Wake(id)];
    RunOne(s, tick);
    RunOne(Do(s, tick), Wake(id));
  }

  /** After a `stop` has timed out exactly the calls still in line are not sent any more: one that pauses
      with the lock still is. */
  lemma ClosedSendsIff(before: seq<Step>, id: nat)
    requires Run(START, before).closed
    ensures var s := Run(START, before); WillNotSend(s, id) <==> Unsent(s, id)
  {
    var s := Run(START, before);
    RunKeeps(START, before);
    if Unsent(s, id) {
      forall steps | Start !in steps ensures NotSent(Run(s, steps), id) {
        ClosedSendsNoMore(s, steps, id);
        assert forall q | q in Run(s, steps).lanes :: UnsentOn(Run(s, steps).lanes[q], id);
      }
    } else {
      var q :| q in s.lanes && !UnsentOn(s.lanes[q], id);
      if id in s.lanes[q].mine && s.lanes[q].mine[id].Pausing? {
        var steps := PausingWakes(s, q, id);
        assert !WillNotSend(s, id);
      } else {
        assert !NotSentOn(s.lanes[q], id) && Run(s, []) == s;
        assert !NotSent(Run(s, []), id);
      }
    }
  }

  /** The lane of the bot at `now`: these two calls, the first with the lock. */
  ghost predicate HoldsTwo(s: Sys, now: real, first: Phase) {
    && s.now == now && !s.closed && s.drained == None && s.stops == map[] && s.calls == map[0 := 0, 1 := 0] && s.pending == 2
    && 0 in s.lanes && s.lanes[0].queue == BotQueue(2, 0.0, Some(0), [1]) && s.lanes[0].mine == map[0 := first, 1 := InLine]
  }

  /** Only the second call is left, and has not got the lock yet, while `stop` has been waiting. */
  ghost predicate HoldsSecond(s: Sys, now: real, since: real) {
    && s.now == now && !s.closed && s.calls == map[1 := 0] && s.pending == 1
    && 0 in s.lanes && s.lanes[0].queue == BotQueue(1, now, None, [1]) && s.lanes[0].mine == map[1 := InLine]
    && 0 in s.stops && s.stops[0].since == since
  }

  lemma TwoCallsCome() returns (steps: seq<Step>)
    ensures HoldsTwo(Run(START, steps), 0.0, Pausing(SEND_INTERVAL))
  {
    steps := [Call("bot", 0), Call("bot", 1)];
    var s := Do(START, steps[0]);
    assert s.lanes[0].queue == BotQueue(1, 0.0, Some(0), []) && s.lanes[0].mine[0] == Pausing(SEND_INTERVAL) && s.bots["bot"] == 0;
    var t := Do(s, steps[1]);
    assert t.lanes[0].mine == map[0 := Pausing(SEND_INTERVAL), 1 := InLine];
    assert t.calls == map[0 := 0, 1 := 0];
    RunOne(START, steps[0]);
    RunOne(s, steps[1]);
    RunConcat(START, [steps[0]], [steps[1]]);
    assert [steps[0]] + [steps[1]] == steps;
  }

  lemma FirstIsSent(s: Sys) returns (steps: seq<Step>)
    requires HoldsTwo(s, 0.0, Pausing(SEND_INTERVAL))
    ensures HoldsTwo(Run(s, steps), SEND_INTERVAL, Sending(SEND_INTERVAL))
  {
    steps := [Tick(SEND_INTERVAL)] + [Wake(0)];
    var t := Do(s, Tick(SEND_INTERVAL));
    var u := Do(t, Wake(0));
    assert u.lanes[0].mine == map[0 := Sending(SEND_INTERVAL), 1 := InLine];
    RunOne(s, Tick(SEND_INTERVAL));
    RunOne(t, Wake(0));
    RunConcat(s, [Tick(SEND_INTERVAL)], [Wake(0)]);
  }

  lemma FirstTakesLong(s: Sys) returns (steps: seq<Step>)
    requires HoldsTwo(s, SEND_INTERVAL, Sending(SEND_INTERVAL))
    ensures HoldsSecond(Run(s, steps), SEND_INTERVAL + DRAIN_TIMEOUT, SEND_INTERVAL)
  {
    var a := Do(s, StopBegin(0));
    var b := Do(a, Tick(DRAIN_TIMEOUT));
    var c := Do(b, Finish(0));
    assert c.lanes[0].mine == map[1 := InLine] && c.calls == map[1 := 0];
    RunOne(s, StopBegin(0));
    RunOne(a, Tick(DRAIN_TIMEOUT));
    RunOne(b, Finish(0));
    RunConcat(s, [StopBegin(0)], [Tick(DRAIN_TIMEOUT)]);
    RunConcat(s, [StopBegin(0)] + [Tick(DRAIN_TIMEOUT)], [Finish(0)]);
    steps := [StopBegin(0)] + [Tick(DRAIN_TIMEOUT)] + [Finish(0)];
  }

  lemma SecondPauses(s: Sys) returns (steps: seq<Step>)
    requires HoldsSecond(s, SEND_INTERVAL + DRAIN_TIMEOUT, SEND_INTERVAL)
    ensures var t := Run(s, steps);
            && t.closed && 0 in t.lanes && 1 in t.lanes[0].mine && t.lanes[0].mine[1].Pausing?
  {
    var a := Do(s, Resume(0));
    assert a.lanes[0].mine[1] == Pausing(SEND_INTERVAL + DRAIN_TIMEOUT + SEND_INTERVAL);
    RunOne(s, Resume(0));
    RunOne(a, StopTimesOut(0));
    RunConcat(s, [Resume(0)], [StopTimesOut(0)]);
    steps := [Resume(0)] + [StopTimesOut(0)];
  }

  /** A run in which a call is sent although `stop` has timed out and closed the service: the call before it
      ends just before the timeout, so that it has the lock and pauses when the time is over. */
  lemma SentAfterStop() returns (before: seq<Step>, after: seq<Step>)
    ensures var s := Run(START, before); s.closed && 0 in s.lanes && 1 in s.lanes[0].mine && s.lanes[0].mine[1].Pausing?
    ensures Start !in after && !NotSent(Run(Run(START, before), after), 1)
  {
    var two := TwoCallsCome();
    var sent := FirstIsSent(Run(START, two));
    RunConcat(START, two, sent);
    var long := FirstTakesLong(Run(START, two + sent));
    RunConcat(START, two + sent, long);
    var pauses := SecondPauses(Run(START, two + sent + long));
    RunConcat(START, two + sent + long, pauses);
    before := two + sent + long + pauses;
    RunKeeps(START, before);
    after := PausingWakes(Run(START, before), 0, 1);
  }

  lemma SupersededStep(s: Sys, step: Step, k: nat)
    requires k in s.stops && s.stops[k].event == k && !s.stops[k].fired && s.drained != Some(k) && step != StopBegin(k)
    ensures var t := Do(s, step); k in t.stops ==> t.stops[k].event == k && !t.stops[k].fired && t.drained != Some(k)
  {
  }

  /** Of two overlapping `stop`s the earlier one never sees its event, even when everything drains: the
      later one has replaced it, so the earlier one times out and closes the service. */
  lemma {:induction false} SupersededStopTimesOut(s: Sys, steps: seq<Step>, k: nat)
    requires k in s.stops && s.stops[k].event == k && !s.stops[k].fired && s.drained != Some(k)
    requires StopBegin(k) !in steps
    ensures var t := Run(s, steps); k in t.stops ==> !t.stops[k].fired
    decreases |steps|
  {
    if steps != [] {
      assert steps[0] != StopBegin(k);
      var t := Do(s, steps[0]);
      SupersededStep(s, steps[0], k);
      if k in t.stops {
        SupersededStopTimesOut(t, steps[1..], k);
      } else {
        StopStaysGone(t, steps[1..], k);
      }
    }
  }

  lemma {:induction false} StopStaysGone(s: Sys, steps: seq<Step>, k: nat)
    requires k !in s.stops && StopBegin(k) !in steps
    ensures k !in Run(s, steps).stops
    decreases |steps|
  {
    if steps != [] {
      assert steps[0] != StopBegin(k);
      StopStaysGone(Do(s, steps[0]), steps[1..], k);
    }
  }

  /** A `start` during a `stop` that then times out leaves the service open and closed at once: calls
      are admitted but, by `ClosedSendsNoMore`, never sent. */
  lemma OpenButClosed() returns (steps: seq<Step>)
    ensures var s := Run(START, steps); !s.stopping && s.closed
  {
    var two := TwoCallsCome();
    var sent := FirstIsSent(Run(START, two));
    RunConcat(START, two, sent);
    var s := Run(START, two + sent);
    var rest := [StopBegin(0), Start, Tick(DRAIN_TIMEOUT), StopTimesOut(0)];
    var a := Do(s, rest[0]);
    var b := Do(a, rest[1]);
    var c := Do(b, rest[2]);
    RunOfFour(s, rest);
    RunConcat(START, two + sent, rest);
    steps := two + sent + rest;
  }
}
