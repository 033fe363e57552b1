/** Reference-counted generations of proxy connection pools: requests keep the generation they
    started on, and a retired generation is cleaned up once nobody uses it. */
module ProxyGenerations {
  import opened Wrappers
  import opened Lists

  datatype PoolKey = PoolKey(client: nat, proxy: Option<string>)

  /** `pools` maps a key to the transport opened for it. */
  datatype Generation = Generation(users: int, pools: map<PoolKey, nat>)

  datatype Runtime = Runtime(current: nat, retired: seq<nat>, generations: map<nat, Generation>, stopping: bool)

  datatype Refused = Stopping | Unreleased

  // --- One operation on the runtime, between two suspension points ---

  /** `n` more users; these three do nothing to a generation that does not exist. */
  function Joined(r: Runtime, g: nat, n: int): Runtime {
    if g !in r.generations then r else r.(generations := r.generations[g := r.generations[g].(users := r.generations[g].users + n)])
  }

  function Pooled(r: Runtime, g: nat, key: PoolKey, transport: nat): Runtime {
    if g !in r.generations || key in r.generations[g].pools then r
    else r.(generations := r.generations[g := r.generations[g].(pools := r.generations[g].pools[key := transport])])
  }

  function Popped(r: Runtime, g: nat, key: PoolKey): Runtime {
    if g !in r.generations then r else r.(generations := r.generations[g := r.generations[g].(pools := r.generations[g].pools - {key})])
  }

  /** Publishing what `prepare` returned: the current generation itself, or a new one. */
  function Published(r: Runtime, g: nat): Runtime {
    if g == r.current then r
    else r.(current := g, retired := r.retired + [r.current], generations := r.generations[g := Generation(0, map[])])
  }

  function Dropped(r: Runtime, g: nat): Runtime {
    r.(retired := Removed(r.retired, g))
  }

  /** Exactly that pool is gone from that generation. */
  lemma PoppedIs(r: Runtime, g: nat, key: PoolKey, h: nat, k: PoolKey)
    ensures var q := Popped(r, g, key);
            && q.current == r.current && q.retired == r.retired && q.stopping == r.stopping && q.generations.Keys == r.generations.Keys
            && (h in r.generations ==>
                  && q.generations[h].users == r.generations[h].users
                  && Get(q.generations[h].pools, k) == if h == g && k == key then None else Get(r.generations[h].pools, k))
  {
  }

  /** Exactly that generation is no longer on the retired list, and nothing else has changed. */
  lemma DroppedIs(r: Runtime, g: nat)
    requires Distinct(r.retired)
    ensures var q := Dropped(r, g);
            && q == r.(retired := q.retired) && Distinct(q.retired) && forall h :: h in q.retired <==> h in r.retired && h != g
  {
    RemovedFacts(r.retired, g);
  }

  class ProxyRuntime {
    var current: nat
    var retired: seq<nat>
    var generations: map<nat, Generation>
    var stopping: bool

    function View(): Runtime
      reads this
    {
      Runtime(current, retired, generations, stopping)
    }

    constructor ()
      ensures View() == Runtime(0, [], map[0 := Generation(0, map[])], false)
    {
      current, retired, generations, stopping := 0, [], map[0 := Generation(0, map[])], false;
    }

    /** `prepared` is what `prepare` returned: the current generation itself or a new one. */
    method Publish(prepared: nat) returns (refused: Option<Refused>)
      requires prepared == current || prepared !in generations
      modifies this
      ensures old(stopping) ==> refused == Some(Stopping) && View() == old(View())
      ensures !old(stopping) ==> refused == None && View() == Published(old(View()), prepared)
      ensures !old(stopping) && prepared != old(current) ==>
        && current == prepared && retired == old(retired) + [old(current)]
        && generations == old(generations)[prepared := Generation(0, map[])]
      ensures prepared == old(current) ==> View() == old(View())
    {
      if stopping { return Some(Stopping); }
      if prepared != current {
        retired := retired + [current];
        current := prepared;
        generations := generations[prepared := Generation(0, map[])];
      }
      refused := None;
    }

    /** Entering a scope. `inherited` is the generation of a live scope of the surrounding context, and
        `again` tells that this very task opened it and names no owner of its own: then the scope is
        entered again, without another user. */
    method EnterScope(inherited: Option<nat>, again: bool) returns (r: Result<nat, Refused>)
      requires current in generations && (inherited.Some? ==> inherited.value in generations)
      modifies this`generations
      ensures old(stopping) ==> r == Err(Stopping) && View() == old(View())
      ensures !old(stopping) ==> r == Ok(if inherited.Some? then inherited.value else current)
      ensures !old(stopping) ==> View() == if inherited.Some? && again then old(View()) else Joined(old(View()), r.value, 1)
      ensures r.Ok? ==> generations[r.value].users == old(generations)[r.value].users + if inherited.Some? && again then 0 else 1
    {
      if stopping { return Err(Stopping); }
      if inherited.Some? && again { return Ok(inherited.value); }
      var g := if inherited.Some? then inherited.value else current;
      generations := generations[g := generations[g].(users := generations[g].users + 1)];
      r := Ok(g);
    }

    method LeaveScope(g: nat)
      requires g in generations
      modifies this`generations
      ensures View() == Joined(old(View()), g, -1)
    {
      generations := generations[g := generations[g].(users := generations[g].users - 1)];
    }

    method Lease(g: nat)
      requires g in generations
      modifies this`generations
      ensures View() == Joined(old(View()), g, 1)
    {
      generations := generations[g := generations[g].(users := generations[g].users + 1)];
    }

    method PoolFor(g: nat, key: PoolKey, created: nat) returns (transport: nat)
      requires g in generations
      modifies this`generations
      ensures View() == Pooled(old(View()), g, key, created)
      ensures key in old(generations)[g].pools ==> transport == old(generations)[g].pools[key] && View() == old(View())
      ensures key !in old(generations)[g].pools ==>
        transport == created
        && generations == old(generations)[g := Generation(old(generations)[g].users, old(generations)[g].pools[key := created])]
      ensures key in generations[g].pools && transport == generations[g].pools[key]
    {
      if key !in generations[g].pools {
        generations := generations[g := generations[g].(pools := generations[g].pools[key := created])];
      }
      transport := generations[g].pools[key];
    }

    /** `reap` with nobody else running: idle retired generations lose their pools and are dropped,
        in order, until a transport fails to close; nothing else changes. */
    method Reap() returns (ok: bool)
      requires Distinct(retired) && forall g | g in retired :: g in generations
      modifies this`retired, this`generations
      ensures ok ==> retired == Busy(old(View()), old(retired)) && Cleaned(old(View()), generations, old(retired))
      ensures !ok ==> exists i :: Interrupted(old(View()), View(), i)
    {
      ghost var before := View();
      var snapshot := retired;
      ReapedNone(before);
      for i := 0 to |snapshot|
        invariant Reaped(before, View(), i)
      {
        ok := ReapOne(before, snapshot[i], i);
        if !ok { return; }
      }
      ReapedAll(before, View());
      ok := true;
    }

    method ReapOne(ghost before: Runtime, g: nat, ghost i: nat) returns (ok: bool)
      requires Distinct(before.retired) && forall h | h in before.retired :: h in before.generations
      requires i < |before.retired| && g == before.retired[i] && Reaped(before, View(), i)
      modifies this`retired, this`generations
      ensures if ok then Reaped(before, View(), i + 1) else Interrupted(before, View(), i)
    {
      ReapedStep(before, View(), i);
      ok := true;
      if generations[g].users == 0 {
        ok := CloseAll(g);
        InterruptedStep(before, old(View()), i, generations[g].pools);
        if ok { retired := Removed(retired, g); }
      }
    }

    /** The inner loop of `reap`: each transport is closed before its pool is forgotten. */
    method CloseAll(g: nat) returns (ok: bool)
      requires g in generations
      modifies this`generations
      ensures generations.Keys == old(generations).Keys
      ensures generations == old(generations)[g := Generation(old(generations)[g].users, generations[g].pools)]
      ensures generations[g].pools.Keys <= old(generations)[g].pools.Keys
      ensures ok ==> generations[g].pools == map[]
    {
      var keys := generations[g].pools.Keys;
      while keys != {}
        invariant generations.Keys == old(generations).Keys
        invariant generations == old(generations)[g := Generation(old(generations)[g].users, generations[g].pools)]
        invariant generations[g].pools.Keys == keys <= old(generations)[g].pools.Keys
      {
        var key :| key in keys;
        var closed: bool := *;
        if !closed { return false; }
        generations := generations[g := generations[g].(pools := generations[g].pools - {key})];
        keys := keys - {key};
      }
      ok := true;
    }
  }

  /** The idle generations of the list have lost their pools, and nothing else has changed. */
  ghost predicate Cleaned(before: Runtime, now: map<nat, Generation>, list: seq<nat>) {
    && now.Keys == before.generations.Keys
    && forall g | g in now ::
         now[g] == if g in list && before.generations[g].users == 0 then Generation(0, map[]) else before.generations[g]
  }

  lemma CleanedStep(before: Runtime, now: map<nat, Generation>, list: seq<nat>, i: nat)
    requires Distinct(list) && i < |list| && list[i] in before.generations && Cleaned(before, now, list[..i])
    ensures now[list[i]] == before.generations[list[i]]
    ensures Cleaned(before, if now[list[i]].users == 0 then now[list[i] := Generation(0, map[])] else now, list[..i + 1])
  {
    assert list[..i + 1] == list[..i] + [list[i]];
  }

  /** Reaping has dealt with the first `i` retired generations. */
  ghost predicate Reaped(before: Runtime, now: Runtime, i: nat)
    requires forall g | g in before.retired :: g in before.generations
  {
    && i <= |before.retired|
    && now.retired == Busy(before, before.retired[..i]) + before.retired[i..]
    && Cleaned(before, now.generations, before.retired[..i])
  }

  lemma ReapedNone(r: Runtime)
    requires forall g | g in r.retired :: g in r.generations
    ensures Reaped(r, r, 0)
  {
  }

  lemma ReapedAll(before: Runtime, now: Runtime)
    requires forall g | g in before.retired :: g in before.generations
    requires Reaped(before, now, |before.retired|)
    ensures now.retired == Busy(before, before.retired) && Cleaned(before, now.generations, before.retired)
  {
    assert before.retired[..|before.retired|] == before.retired;
  }

  /** Reaping stopped while closing the pools of the generation at `i` of the retired list. */
  ghost predicate Interrupted(before: Runtime, now: Runtime, i: nat)
    requires forall g | g in before.retired :: g in before.generations
  {
    && i < |before.retired|
    && var g := before.retired[i];
       && g in now.generations
       && now.generations[g].users == before.generations[g].users == 0
       && now.generations[g].pools.Keys <= before.generations[g].pools.Keys
       && now.retired == Busy(before, before.retired[..i]) + before.retired[i..]
       && Cleaned(before, now.generations[g := before.generations[g]], before.retired[..i])
  }

  lemma InterruptedStep(before: Runtime, now: Runtime, i: nat, pools: map<PoolKey, nat>)
    requires Distinct(before.retired) && forall g | g in before.retired :: g in before.generations
    requires i < |before.retired| && Reaped(before, now, i)
    requires before.generations[before.retired[i]].users == 0 && pools.Keys <= before.generations[before.retired[i]].pools.Keys
    ensures Interrupted(before, now.(generations := now.generations[before.retired[i] := Generation(0, pools)]), i)
  {
    var g := before.retired[i];
    CleanedStep(before, now.generations, before.retired, i);
    assert now.generations[g := Generation(0, pools)][g := before.generations[g]] == now.generations;
  }

  lemma ReapedStep(before: Runtime, now: Runtime, i: nat)
    requires Distinct(before.retired) && forall g | g in before.retired :: g in before.generations
    requires i < |before.retired| && Reaped(before, now, i)
    ensures var g := before.retired[i];
            && now.generations[g] == before.generations[g]
            && Reaped(before, if now.generations[g].users != 0 then now
                              else now.(retired := Removed(now.retired, g), generations := now.generations[g := Generation(0, map[])]), i + 1)
  {
    BusyStep(before, before.retired, i);
    CleanedStep(before, now.generations, before.retired, i);
  }

  /** The generations of the list that are in use. */
  function Busy(r: Runtime, list: seq<nat>): seq<nat>
    requires forall g | g in list :: g in r.generations
  {
    if list == [] then []
    else
      var last := list[|list| - 1];
      Busy(r, list[..|list| - 1]) + if r.generations[last].users == 0 then [] else [last]
  }

  lemma {:induction false} BusyIsPart(r: Runtime, list: seq<nat>, g: nat)
    requires forall h | h in list :: h in r.generations
    ensures g in Busy(r, list) <==> g in list && r.generations[g].users != 0
  {
    if list != [] {
      InitOrLast(list, g);
      BusyIsPart(r, list[..|list| - 1], g);
    }
  }

  lemma BusyStep(r: Runtime, list: seq<nat>, i: nat)
    requires forall g | g in list :: g in r.generations
    requires Distinct(list) && i < |list|
    ensures var now := Busy(r, list[..i]) + list[i..];
            Busy(r, list[..i + 1]) + list[i + 1..] == if r.generations[list[i]].users == 0 then Removed(now, list[i]) else now
  {
    var g := list[i];
    assert list[..i + 1][..i] == list[..i];
    assert list[i..] == [g] + list[i + 1..];
    BusyIsPart(r, list[..i], g);
    RemovedFromMiddle(Busy(r, list[..i]), g, list[i + 1..]);
    assert Busy(r, list[..i]) + list[i..] == Busy(r, list[..i]) + [g] + list[i + 1..];
  }

  // --- The whole system ---

  /** A loop that closes pools, between two of its suspension points. */
  datatype Sweep = Resting | Sweeping(rest: seq<nat>, visit: Option<Visit>) | Swept

  datatype Visit = Visit(generation: nat, keys: set<PoolKey>)

  /** `scopes` are the live request scopes and `streams` the leased response streams not yet closed,
      each with its generation; `depth` says how often a scope was entered again; `requests` are on
      their way inside a scope; `closing` are the streams whose close has begun. `reap` holds the
      close lock. */
  datatype Sys = Sys(r: Runtime, scopes: map<nat, nat>, depth: map<nat, nat>, requests: map<nat, nat>,
                     streams: map<nat, nat>, closing: set<nat>, reap: Sweep, shutdown: Sweep)

  datatype Step =
    | Use(use: Use)
    | Publish(generation: nat)
    | ClientClose(generation: nat, key: PoolKey)
    | Reap(reap: Reap)
    | End(end: End)

  datatype Use =
    | EnterScope(id: nat, inherited: Option<nat>)   // the scope of the surrounding context, if any
    | EnterAgain(id: nat)                           // by the task that opened it
    | LeaveAgain(id: nat)
    | LeaveScope(id: nat)
    | Send(id: nat, scope: nat, key: PoolKey, transport: nat)
    | SendCustom(id: nat, scope: nat)               // the client brought its own transport: no pool
    | Fail(id: nat)
    | Answer(id: nat, stream: nat)
    | CloseBegin(stream: nat)
    | CloseEnd(stream: nat)

  datatype Reap = ReapBegin | ReapVisit | ReapClose(key: PoolKey, ok: bool) | ReapDrop | ReapEnd

  datatype End = Stop | ShutdownBegin | ShutdownVisit | ShutdownClose(key: PoolKey, ok: bool) | ShutdownNext | ShutdownEnd

  predicate Visiting(w: Sweep) { w.Sweeping? && w.visit.Some? }

  predicate Between(w: Sweep) { w.Sweeping? && w.visit.None? }

  function Keys(r: Runtime, g: nat): set<PoolKey> {
    if g in r.generations then r.generations[g].pools.Keys else {}
  }

  function Users(r: Runtime, g: nat): int {
    if g in r.generations then r.generations[g].users else 0
  }

  function Seen(v: Visit, key: PoolKey): Visit {
    v.(keys := v.keys - {key})
  }

  function Depth(s: Sys, id: nat): nat {
    if id in s.depth then s.depth[id] else 0
  }

  /** A scope is left by its own task, so not while one of its requests is on its way or while it is
      entered again. */
  predicate CanUse(s: Sys, use: Use) {
    match use
    case EnterScope(id, _) => id !in s.scopes && !s.r.stopping
    case EnterAgain(id) => id in s.scopes && !s.r.stopping
    case LeaveAgain(id) => id in s.scopes && Depth(s, id) > 0
    case LeaveScope(id) => id in s.scopes && Depth(s, id) == 0 && forall q | q in s.requests :: s.requests[q] != id
    case Send(id, scope, _, _) => id !in s.requests && scope in s.scopes
    case SendCustom(id, scope) => id !in s.requests && scope in s.scopes
    case Fail(id) => id in s.requests
    case Answer(id, stream) => id in s.requests && s.requests[id] in s.scopes && stream !in s.streams
    case CloseBegin(stream) => stream in s.streams && stream !in s.closing
    case CloseEnd(stream) => stream in s.closing && stream in s.streams
  }

  function DoUse(s: Sys, use: Use): Sys {
    if !CanUse(s, use) then s else
      match use
      case EnterScope(id, inherited) =>
        var g := if inherited.Some? && inherited.value in s.scopes then s.scopes[inherited.value] else s.r.current;
        s.(r := Joined(s.r, g, 1), scopes := s.scopes[id := g])
      case EnterAgain(id) => s.(depth := s.depth[id := Depth(s, id) + 1])
      case LeaveAgain(id) => s.(depth := s.depth[id := Depth(s, id) - 1])
      case LeaveScope(id) => s.(r := Joined(s.r, s.scopes[id], -1), scopes := s.scopes - {id})
      case Send(id, scope, key, transport) =>
        s.(r := Pooled(s.r, s.scopes[scope], key, transport), requests := s.requests[id := scope])
      case SendCustom(id, scope) => s.(requests := s.requests[id := scope])
      case Fail(id) => s.(requests := s.requests - {id})
      case Answer(id, stream) =>
        var g := s.scopes[s.requests[id]];
        s.(r := Joined(s.r, g, 1), requests := s.requests - {id}, streams := s.streams[stream := g])
      case CloseBegin(stream) => s.(closing := s.closing + {stream})
      case CloseEnd(stream) =>
        s.(r := Joined(s.r, s.streams[stream], -1), streams := s.streams - {stream}, closing := s.closing - {stream})
  }

  predicate CanReap(s: Sys, reap: Reap) {
    match reap
    case ReapBegin => s.reap == Resting
    case ReapVisit => Between(s.reap) && s.reap.rest != []
    case ReapClose(key, _) => Visiting(s.reap) && key in s.reap.visit.value.keys
    case ReapDrop => Visiting(s.reap) && s.reap.visit.value.keys == {}
    case ReapEnd => Between(s.reap) && s.reap.rest == []
  }

  function DoReap(s: Sys, reap: Reap): Sys {
    if !CanReap(s, reap) then s else
      match reap
      case ReapBegin => s.(reap := Sweeping(s.r.retired, None))
      case ReapVisit =>
        var g := s.reap.rest[0];
        s.(reap := Sweeping(s.reap.rest[1..], if Users(s.r, g) != 0 then None else Some(Visit(g, Keys(s.r, g)))))
      case ReapClose(key, ok) =>
        var v := s.reap.visit.value;
        if !ok then s.(reap := Resting)
        else s.(r := Popped(s.r, v.generation, key), reap := s.reap.(visit := Some(Seen(v, key))))
      case ReapDrop => s.(r := Dropped(s.r, s.reap.visit.value.generation), reap := s.reap.(visit := None))
      case ReapEnd => s.(reap := Resting)
  }

  predicate CanEnd(s: Sys, end: End) {
    match end
    case Stop => true
    case ShutdownBegin => s.r.stopping && !s.shutdown.Sweeping? && forall g | g in s.r.retired + [s.r.current] :: Users(s.r, g) == 0
    case ShutdownVisit => Between(s.shutdown) && s.shutdown.rest != []
    case ShutdownClose(key, _) => Visiting(s.shutdown) && key in s.shutdown.visit.value.keys
    case ShutdownNext => Visiting(s.shutdown) && s.shutdown.visit.value.keys == {}
    case ShutdownEnd => Between(s.shutdown) && s.shutdown.rest == []
  }

  function DoEnd(s: Sys, end: End): Sys {
    if !CanEnd(s, end) then s else
      match end
      case Stop => s.(r := s.r.(stopping := true))
      case ShutdownBegin => s.(shutdown := Sweeping(s.r.retired + [s.r.current], None))
      case ShutdownVisit =>
        var g := s.shutdown.rest[0];
        s.(shutdown := Sweeping(s.shutdown.rest[1..], Some(Visit(g, Keys(s.r, g)))))
      case ShutdownClose(key, ok) =>
        var v := s.shutdown.visit.value;
        if !ok then s.(shutdown := Resting)
        else s.(r := Popped(s.r, v.generation, key), shutdown := s.shutdown.(visit := Some(Seen(v, key))))
      case ShutdownNext => s.(shutdown := s.shutdown.(visit := None))
      case ShutdownEnd => s.(shutdown := Swept)
  }

  /** A step that is not enabled does nothing; only `prepare`'s result is published. */
  function Do(s: Sys, step: Step): Sys {
    match step
    case Use(use) => DoUse(s, use)
    case Publish(g) => if s.r.stopping || (g != s.r.current && g in s.r.generations) then s else s.(r := Published(s.r, g))
    case ClientClose(g, key) => s.(r := Popped(s.r, g, key))
    case Reap(reap) => DoReap(s, reap)
    case End(end) => DoEnd(s, end)
  }

  function Run(s: Sys, steps: seq<Step>): Sys
    decreases |steps|
  {
    if steps == [] then s else Run(Do(s, steps[0]), steps[1..])
  }

  lemma {:induction false} RunGoesOn(s: Sys, steps: seq<Step>, step: Step)
    ensures Run(s, []) == s && Run(s, steps + [step]) == Do(Run(s, steps), step)
    decreases |steps|
  {
    if steps == [] {
      assert [] + [step] == [step] && [step][1..] == [];
    } else {
      RunGoesOn(Do(s, steps[0]), steps[1..], step);
      assert (steps + [step])[1..] == steps[1..] + [step];
    }
  }

  /** A scope is on the generation of the live surrounding one, else on the current one; a request opens its pool
      in the generation of its scope; a stream stays on that generation. */
  lemma UsesAreOperations(s: Sys, use: Use)
    ensures var t := DoUse(s, use);
            match use
            case EnterScope(id, inherited) => id !in s.scopes && !s.r.stopping ==>
                  var g := if inherited.Some? && inherited.value in s.scopes then s.scopes[inherited.value] else s.r.current;
                  t.r == Joined(s.r, g, 1) && t.scopes == s.scopes[id := g]
            case EnterAgain(id) =>
              id in s.scopes && !s.r.stopping ==>
                t.r == s.r && t.scopes == s.scopes && Depth(t, id) == Depth(s, id) + 1
            case LeaveAgain(id) =>
              id in s.scopes && Depth(s, id) > 0 ==>
                t.r == s.r && t.scopes == s.scopes && Depth(t, id) == Depth(s, id) - 1
            case LeaveScope(id) =>
              id in s.scopes && Depth(s, id) == 0 && (forall q | q in s.requests :: s.requests[q] != id) ==>
                t.r == Joined(s.r, s.scopes[id], -1) && t.scopes == s.scopes - {id}
            case Send(id, scope, key, transport) =>
              id !in s.requests && scope in s.scopes ==>
                t.r == Pooled(s.r, s.scopes[scope], key, transport) && t.requests == s.requests[id := scope]
            case SendCustom(id, scope) =>
              id !in s.requests && scope in s.scopes ==>
                t.r == s.r && t.requests == s.requests[id := scope]
            case Fail(id) => id in s.requests ==> t.r == s.r && t.requests == s.requests - {id}
            case Answer(id, stream) => id in s.requests && s.requests[id] in s.scopes && stream !in s.streams ==>
                  var g := s.scopes[s.requests[id]];
                  t.r == Joined(s.r, g, 1) && t.streams == s.streams[stream := g] && t.requests == s.requests - {id}
            case CloseBegin(stream) =>
              stream in s.streams && stream !in s.closing ==>
                t.r == s.r && stream in t.closing && t.streams == s.streams
            case CloseEnd(stream) =>
              stream in s.closing && stream in s.streams ==>
                t.r == Joined(s.r, s.streams[stream], -1) && t.streams == s.streams - {stream}
  {
  }

  /** A reap never gets stuck: whatever state it is in, its next step can be taken, and leads where it should. */
  lemma ReapGoesOn(s: Sys, key: PoolKey)
    ensures s.reap == Resting ==> DoReap(s, ReapBegin) == s.(reap := Sweeping(s.r.retired, None))
    ensures Between(s.reap) && s.reap.rest == [] ==> DoReap(s, ReapEnd) == s.(reap := Resting)
    ensures Between(s.reap) && s.reap.rest != [] ==>
              var g := s.reap.rest[0];
              DoReap(s, ReapVisit) ==
              s.(reap := Sweeping(s.reap.rest[1..], if Users(s.r, g) != 0 then None else Some(Visit(g, Keys(s.r, g)))))
    ensures Visiting(s.reap) && key in s.reap.visit.value.keys ==>
              var v := s.reap.visit.value;
              && DoReap(s, ReapClose(key, true)) ==
                 s.(r := Popped(s.r, v.generation, key), reap := s.reap.(visit := Some(v.(keys := v.keys - {key}))))
              && DoReap(s, ReapClose(key, false)) == s.(reap := Resting)
    ensures Visiting(s.reap) && s.reap.visit.value.keys == {} ==>
              DoReap(s, ReapDrop) == s.(r := Dropped(s.r, s.reap.visit.value.generation), reap := s.reap.(visit := None))
  {
  }

  /** So with a shutdown, which begins when nobody uses anything any more. */
  lemma ShutdownGoesOn(s: Sys, key: PoolKey)
    ensures DoEnd(s, Stop) == s.(r := s.r.(stopping := true))
    ensures s.r.stopping && !s.shutdown.Sweeping? && (forall g | g in s.r.retired + [s.r.current] :: Users(s.r, g) == 0) ==>
              DoEnd(s, ShutdownBegin) == s.(shutdown := Sweeping(s.r.retired + [s.r.current], None))
    ensures Between(s.shutdown) && s.shutdown.rest == [] ==> DoEnd(s, ShutdownEnd) == s.(shutdown := Swept)
    ensures Between(s.shutdown) && s.shutdown.rest != [] ==>
              var g := s.shutdown.rest[0];
              DoEnd(s, ShutdownVisit) == s.(shutdown := Sweeping(s.shutdown.rest[1..], Some(Visit(g, Keys(s.r, g)))))
    ensures Visiting(s.shutdown) && key in s.shutdown.visit.value.keys ==>
              var v := s.shutdown.visit.value;
              && DoEnd(s, ShutdownClose(key, true)) ==
                 s.(r := Popped(s.r, v.generation, key), shutdown := s.shutdown.(visit := Some(v.(keys := v.keys - {key}))))
              && DoEnd(s, ShutdownClose(key, false)) == s.(shutdown := Resting)
    ensures Visiting(s.shutdown) && s.shutdown.visit.value.keys == {} ==>
              DoEnd(s, ShutdownNext) == s.(shutdown := s.shutdown.(visit := None))
  {
  }

  // --- The invariant ---

  function On(m: map<nat, nat>, g: nat): set<nat> {
    set id | id in m && m[id] == g
  }

  /** How many scopes or streams are on a generation. */
  function Holders(m: map<nat, nat>, g: nat): nat {
    |On(m, g)|
  }

  lemma HoldersAdd(m: map<nat, nat>, id: nat, g: nat, h: nat)
    requires id !in m
    ensures Holders(m[id := g], h) == Holders(m, h) + if g == h then 1 else 0
  {
    assert On(m[id := g], h) == if g == h then On(m, h) + {id} else On(m, h);
  }

  lemma HoldersRemove(m: map<nat, nat>, id: nat, h: nat)
    requires id in m
    ensures Holders(m - {id}, h) == Holders(m, h) - if m[id] == h then 1 else 0
  {
    HoldersAdd(m - {id}, id, m[id], h);
    assert (m - {id})[id := m[id]] == m;
  }

  lemma HoldersCount(m: map<nat, nat>, id: nat)
    requires id in m
    ensures Holders(m, m[id]) > 0
  {
    assert id in On(m, m[id]);
  }

  /** The runtime's own lists. */
  ghost predicate Kept(r: Runtime) {
    && r.current in r.generations && r.current !in r.retired
    && Distinct(r.retired) && forall g | g in r.retired :: g in r.generations
  }

  /** Scopes and streams are on generations that exist, requests in live scopes. */
  ghost predicate Placed(s: Sys) {
    && (forall id | id in s.scopes :: s.scopes[id] in s.r.generations)
    && (forall id | id in s.streams :: s.streams[id] in s.r.generations)
    && (forall q | q in s.requests :: s.requests[q] in s.scopes)
  }

  ghost predicate UsersAre(r: Runtime, a: map<nat, nat>, b: map<nat, nat>) {
    forall g | g in r.generations :: r.generations[g].users == Holders(a, g) + Holders(b, g)
  }

  /** `users` counts the live scopes and the unclosed leased streams. */
  ghost predicate Counted(s: Sys) {
    UsersAre(s.r, s.scopes, s.streams)
  }

  /** A generation that is gone has no user and no pool left. */
  ghost predicate DropsAreClean(r: Runtime) {
    forall g | g in r.generations && g != r.current && g !in r.retired :: r.generations[g] == Generation(0, map[])
  }

  /** Still to be looked at by the reaping task: retired generations, each once. */
  ghost predicate ReapListIsRetired(r: Runtime, reap: Sweep) {
    reap.Sweeping? ==>
      && Distinct(reap.rest) && (forall g | g in reap.rest :: g in r.retired)
      && (reap.visit.Some? ==> reap.visit.value.generation in r.retired && reap.visit.value.generation !in reap.rest)
  }

  /** Being closed by the reaping task: a generation nobody uses, all of whose pools it knows. */
  ghost predicate ReapVisitsIdle(r: Runtime, reap: Sweep) {
    Visiting(reap) ==>
      var v := reap.visit.value;
      Idle(r, v.generation) && r.generations[v.generation].pools.Keys <= v.keys
  }

  /** Nobody uses the generation, and it is not the current one. */
  ghost predicate Idle(r: Runtime, g: nat) {
    g in r.generations && g != r.current && r.generations[g].users == 0
  }

  /** While shutdown closes pools there are no users, and it will come to every pool. */
  ghost predicate ShutdownIsSafe(r: Runtime, shutdown: Sweep) {
    shutdown != Resting ==>
      && r.stopping
      && forall g | g in r.generations :: r.generations[g].users == 0 && WillClose(shutdown, g, r.generations[g].pools.Keys)
  }

  predicate WillClose(w: Sweep, g: nat, keys: set<PoolKey>) {
    keys == {} || (w.Sweeping? && (g in w.rest || (w.visit.Some? && w.visit.value.generation == g && keys <= w.visit.value.keys)))
  }

  /** What does not depend on who is using the generations. */
  ghost predicate Tidy(r: Runtime, reap: Sweep, shutdown: Sweep) {
    Kept(r) && DropsAreClean(r) && ReapListIsRetired(r, reap) && ReapVisitsIdle(r, reap) && ShutdownIsSafe(r, shutdown)
  }

  ghost predicate Inv(s: Sys) {
    Placed(s) && Counted(s) && Tidy(s.r, s.reap, s.shutdown)
  }

  // --- Using the generations ---

  /** Nothing but the contents of generations changes, and none that is idle gets a user or a pool. */
  ghost predicate OnlyUse(r: Runtime, q: Runtime) {
    && q.current == r.current && q.retired == r.retired && q.stopping == r.stopping && q.generations.Keys == r.generations.Keys
    && forall g | g in r.generations && r.generations[g].users == 0 && (r.stopping || g != r.current) :: q.generations[g] == r.generations[g]
  }

  lemma OnlyUseIsTidy(r: Runtime, q: Runtime, reap: Sweep, shutdown: Sweep)
    requires Tidy(r, reap, shutdown) && OnlyUse(r, q)
    ensures Tidy(q, reap, shutdown)
  {
  }

  lemma JoinIsOnlyUse(r: Runtime, g: nat, n: int)
    requires Users(r, g) > 0 || (g == r.current && !r.stopping)
    ensures OnlyUse(r, Joined(r, g, n))
  {
  }

  lemma PoolIsOnlyUse(r: Runtime, g: nat, key: PoolKey, transport: nat)
    requires Users(r, g) > 0
    ensures OnlyUse(r, Pooled(r, g, key, transport))
  {
  }

  lemma EnterIsOnlyUse(s: Sys, id: nat, inherited: Option<nat>)
    requires Inv(s) && CanUse(s, EnterScope(id, inherited))
    ensures OnlyUse(s.r, DoUse(s, EnterScope(id, inherited)).r)
  {
    if inherited.Some? && inherited.value in s.scopes { HoldersCount(s.scopes, inherited.value); }
    JoinIsOnlyUse(s.r, DoUse(s, EnterScope(id, inherited)).scopes[id], 1);
  }

  lemma LeaveIsOnlyUse(s: Sys, id: nat)
    requires Inv(s) && CanUse(s, LeaveScope(id))
    ensures OnlyUse(s.r, DoUse(s, LeaveScope(id)).r)
  {
    HoldersCount(s.scopes, id);
    JoinIsOnlyUse(s.r, s.scopes[id], -1);
  }

  lemma SendIsOnlyUse(s: Sys, id: nat, scope: nat, key: PoolKey, transport: nat)
    requires Inv(s) && CanUse(s, Send(id, scope, key, transport))
    ensures OnlyUse(s.r, DoUse(s, Send(id, scope, key, transport)).r)
  {
    HoldersCount(s.scopes, scope);
    PoolIsOnlyUse(s.r, s.scopes[scope], key, transport);
  }

  lemma AnswerIsOnlyUse(s: Sys, id: nat, stream: nat)
    requires Inv(s) && CanUse(s, Answer(id, stream))
    ensures OnlyUse(s.r, DoUse(s, Answer(id, stream)).r)
  {
    HoldersCount(s.scopes, s.requests[id]);
    JoinIsOnlyUse(s.r, s.scopes[s.requests[id]], 1);
  }

  lemma CloseIsOnlyUse(s: Sys, stream: nat)
    requires Inv(s) && CanUse(s, CloseEnd(stream))
    ensures OnlyUse(s.r, DoUse(s, CloseEnd(stream)).r)
  {
    HoldersCount(s.streams, stream);
    JoinIsOnlyUse(s.r, s.streams[stream], -1);
  }

  lemma UseIsOnlyUse(s: Sys, use: Use)
    requires Inv(s)
    ensures OnlyUse(s.r, DoUse(s, use).r)
  {
    if CanUse(s, use) {
      match use {
        case EnterScope(id, inherited) => EnterIsOnlyUse(s, id, inherited);
        case LeaveScope(id) => LeaveIsOnlyUse(s, id);
        case Send(id, scope, key, transport) => SendIsOnlyUse(s, id, scope, key, transport);
        case Answer(id, stream) => AnswerIsOnlyUse(s, id, stream);
        case CloseEnd(stream) => CloseIsOnlyUse(s, stream);
        case _ => assert DoUse(s, use).r == s.r;
      }
    }
  }

  lemma UseKeeps(s: Sys, use: Use)
    requires Inv(s)
    ensures Inv(DoUse(s, use))
  {
    var t := DoUse(s, use);
    UseKeepsPlaced(s, use);
    UseKeepsCounted(s, use);
    UseIsOnlyUse(s, use);
    OnlyUseIsTidy(s.r, t.r, s.reap, s.shutdown);
  }

  lemma UseKeepsPlaced(s: Sys, use: Use)
    requires Placed(s) && Kept(s.r)
    ensures Placed(DoUse(s, use))
  {
  }

  lemma HolderJoins(r: Runtime, m: map<nat, nat>, other: map<nat, nat>, id: nat, g: nat)
    requires UsersAre(r, m, other) && id !in m && g in r.generations
    ensures UsersAre(Joined(r, g, 1), m[id := g], other)
  {
    forall h { HoldersAdd(m, id, g, h); }
  }

  lemma HolderLeaves(r: Runtime, m: map<nat, nat>, other: map<nat, nat>, id: nat)
    requires UsersAre(r, m, other) && id in m && m[id] in r.generations
    ensures UsersAre(Joined(r, m[id], -1), m - {id}, other)
  {
    forall h { HoldersRemove(m, id, h); }
  }

  lemma UsersCommute(r: Runtime, a: map<nat, nat>, b: map<nat, nat>)
    requires UsersAre(r, a, b)
    ensures UsersAre(r, b, a)
  {
  }

  lemma PoolKeepsUsers(r: Runtime, a: map<nat, nat>, b: map<nat, nat>, g: nat, key: PoolKey, transport: nat)
    requires UsersAre(r, a, b)
    ensures UsersAre(Pooled(r, g, key, transport), a, b)
  {
  }

  lemma UseKeepsCounted(s: Sys, use: Use)
    requires Placed(s) && Kept(s.r) && Counted(s)
    ensures Counted(DoUse(s, use))
  {
    if CanUse(s, use) {
      var t := DoUse(s, use);
      match use {
        case EnterScope(id, _) => HolderJoins(s.r, s.scopes, s.streams, id, t.scopes[id]);
        case LeaveScope(id) => HolderLeaves(s.r, s.scopes, s.streams, id);
        case Send(_, scope, key, transport) => PoolKeepsUsers(s.r, s.scopes, s.streams, s.scopes[scope], key, transport);
        case Answer(id, stream) =>
          UsersCommute(s.r, s.scopes, s.streams);
          HolderJoins(s.r, s.streams, s.scopes, stream, t.streams[stream]);
          UsersCommute(t.r, t.streams, t.scopes);
        case CloseEnd(stream) =>
          UsersCommute(s.r, s.scopes, s.streams);
          HolderLeaves(s.r, s.streams, s.scopes, stream);
          UsersCommute(t.r, t.streams, t.scopes);
        case _ => assert t.r == s.r && t.scopes == s.scopes && t.streams == s.streams;
      }
    }
  }

  // --- Publishing, reaping, shutting down ---

  /** Who holds which generation does not change, and no user count does. */
  ghost predicate SameHolders(s: Sys, t: Sys) {
    && t.scopes == s.scopes && t.streams == s.streams && t.requests == s.requests
    && s.r.generations.Keys <= t.r.generations.Keys
    && forall g | g in t.r.generations :: t.r.generations[g].users == if g in s.r.generations then s.r.generations[g].users else 0
  }

  lemma SameHoldersKeep(s: Sys, t: Sys)
    requires Placed(s) && Counted(s) && SameHolders(s, t)
    ensures Placed(t) && Counted(t)
  {
    forall g | g in t.r.generations ensures t.r.generations[g].users == Holders(t.scopes, g) + Holders(t.streams, g) {
      if g !in s.r.generations { assert On(s.scopes, g) == {} && On(s.streams, g) == {}; }
    }
  }

  lemma PublishIsTidy(r: Runtime, reap: Sweep, shutdown: Sweep, g: nat)
    requires Tidy(r, reap, shutdown) && !r.stopping && (g == r.current || g !in r.generations)
    ensures Tidy(Published(r, g), reap, shutdown)
  {
  }

  lemma PopIsTidy(r: Runtime, reap: Sweep, shutdown: Sweep, g: nat, key: PoolKey)
    requires Tidy(r, reap, shutdown)
    ensures Tidy(Popped(r, g, key), reap, shutdown)
  {
    if g in r.generations {
      var pools := r.generations[g].pools;
      assert (pools - {key}).Keys <= pools.Keys;
      assert pools == map[] ==> pools - {key} == map[];
    }
  }

  lemma ReapCloseIsTidy(s: Sys, key: PoolKey, ok: bool)
    requires Inv(s) && CanReap(s, ReapClose(key, ok))
    ensures var t := DoReap(s, ReapClose(key, ok)); Tidy(t.r, t.reap, t.shutdown)
  {
    PopIsTidy(s.r, s.reap, s.shutdown, s.reap.visit.value.generation, key);
  }

  lemma ReapDropIsTidy(s: Sys)
    requires Inv(s) && CanReap(s, ReapDrop)
    ensures var t := DoReap(s, ReapDrop); Tidy(t.r, t.reap, t.shutdown)
  {
    RemovedFacts(s.r.retired, s.reap.visit.value.generation);
  }

  lemma ReapIsTidy(s: Sys, reap: Reap)
    requires Inv(s)
    ensures var t := DoReap(s, reap); Tidy(t.r, t.reap, t.shutdown)
  {
    if CanReap(s, reap) {
      match reap {
        case ReapClose(key, ok) => ReapCloseIsTidy(s, key, ok);
        case ReapDrop => ReapDropIsTidy(s);
        case _ =>
      }
    }
  }

  lemma ShutdownBeginIsTidy(s: Sys)
    requires Inv(s) && CanEnd(s, ShutdownBegin)
    ensures Tidy(s.r, s.reap, Sweeping(s.r.retired + [s.r.current], None))
  {
    var all := s.r.retired + [s.r.current];
    assert s.r.current in all;
    forall g | g in s.r.generations ensures s.r.generations[g].users == 0 && (s.r.generations[g].pools.Keys == {} || g in all) {
      assert g in s.r.retired ==> g in all;
      if g in all { assert Users(s.r, g) == 0; }
    }
  }

  lemma ShutdownVisitIsTidy(s: Sys)
    requires Inv(s) && CanEnd(s, ShutdownVisit)
    ensures var t := DoEnd(s, ShutdownVisit); Tidy(t.r, t.reap, t.shutdown)
  {
    forall g | g in s.shutdown.rest ensures g == s.shutdown.rest[0] || g in s.shutdown.rest[1..] {}
  }

  lemma ShutdownCloseIsTidy(s: Sys, key: PoolKey, ok: bool)
    requires Inv(s) && CanEnd(s, ShutdownClose(key, ok))
    ensures var t := DoEnd(s, ShutdownClose(key, ok)); Tidy(t.r, t.reap, t.shutdown)
  {
    PopIsTidy(s.r, s.reap, s.shutdown, s.shutdown.visit.value.generation, key);
  }

  lemma EndIsTidy(s: Sys, end: End)
    requires Inv(s)
    ensures var t := DoEnd(s, end); Tidy(t.r, t.reap, t.shutdown)
  {
    if CanEnd(s, end) {
      match end {
        case ShutdownBegin => ShutdownBeginIsTidy(s);
        case ShutdownVisit => ShutdownVisitIsTidy(s);
        case ShutdownClose(key, ok) => ShutdownCloseIsTidy(s, key, ok);
        case _ =>
      }
    }
  }

  lemma PopSameHolders(s: Sys, t: Sys, g: nat, key: PoolKey)
    requires t.scopes == s.scopes && t.streams == s.streams && t.requests == s.requests && t.r == Popped(s.r, g, key)
    ensures SameHolders(s, t)
  {
  }

  lemma ReapSameHolders(s: Sys, reap: Reap)
    ensures SameHolders(s, DoReap(s, reap))
  {
    if CanReap(s, reap) && reap.ReapClose? && reap.ok {
      PopSameHolders(s, DoReap(s, reap), s.reap.visit.value.generation, reap.key);
    }
  }

  lemma EndSameHolders(s: Sys, end: End)
    ensures SameHolders(s, DoEnd(s, end))
  {
    if CanEnd(s, end) && end.ShutdownClose? && end.ok {
      PopSameHolders(s, DoEnd(s, end), s.shutdown.visit.value.generation, end.key);
    }
  }

  lemma ReapKeeps(s: Sys, reap: Reap)
    requires Inv(s)
    ensures Inv(DoReap(s, reap))
  {
    ReapIsTidy(s, reap);
    ReapSameHolders(s, reap);
    SameHoldersKeep(s, DoReap(s, reap));
  }

  lemma EndKeeps(s: Sys, end: End)
    requires Inv(s)
    ensures Inv(DoEnd(s, end))
  {
    EndIsTidy(s, end);
    EndSameHolders(s, end);
    SameHoldersKeep(s, DoEnd(s, end));
  }

  lemma PublishKeeps(s: Sys, g: nat)
    requires Inv(s)
    ensures Inv(Do(s, Publish(g)))
  {
    var t := Do(s, Publish(g));
    if t != s { PublishIsTidy(s.r, s.reap, s.shutdown, g); }
    SameHoldersKeep(s, t);
  }

  lemma ClientCloseKeeps(s: Sys, g: nat, key: PoolKey)
    requires Inv(s)
    ensures Inv(Do(s, ClientClose(g, key)))
  {
    PopIsTidy(s.r, s.reap, s.shutdown, g, key);
    SameHoldersKeep(s, Do(s, ClientClose(g, key)));
  }

  lemma StepKeeps(s: Sys, step: Step)
    requires Inv(s)
    ensures Inv(Do(s, step))
  {
    match step {
      case Use(use) => UseKeeps(s, use);
      case Publish(g) => PublishKeeps(s, g);
      case ClientClose(g, key) => ClientCloseKeeps(s, g, key);
      case Reap(reap) => ReapKeeps(s, reap);
      case End(end) => EndKeeps(s, end);
    }
  }

  // --- Over every run ---

  const START := Sys(Runtime(0, [], map[0 := Generation(0, map[])], false), map[], map[], map[], map[], {}, Resting, Resting)

  lemma StartIsFine()
    ensures Inv(START)
  {
    assert On(map[], 0) == {};
  }

  /** Every interleaving keeps the invariant: in particular `users` stays exact, and a generation is
      gone only when it has no user and no pool. */
  lemma {:induction false} RunKeeps(s: Sys, steps: seq<Step>)
    requires Inv(s)
    ensures Inv(Run(s, steps))
    decreases |steps|
  {
    if steps != [] {
      StepKeeps(s, steps[0]);
      RunKeeps(Do(s, steps[0]), steps[1..]);
    }
  }

  /** What may happen to an idle generation: it stays idle and only loses pools. */
  ghost predicate OnlyLosesPools(r: Runtime, q: Runtime, g: nat)
    requires Idle(r, g)
  {
    Idle(q, g) && q.generations[g].pools.Keys <= r.generations[g].pools.Keys
  }

  lemma IdleStep(s: Sys, step: Step, g: nat)
    requires Inv(s) && Idle(s.r, g)
    ensures OnlyLosesPools(s.r, Do(s, step).r, g)
  {
    match step {
      case Use(use) => UseIsOnlyUse(s, use);
      case Reap(reap) => ReapOnlyLosesPools(s, reap, g);
      case End(end) => EndOnlyLosesPools(s, end, g);
      case _ =>
    }
  }

  lemma ReapOnlyLosesPools(s: Sys, reap: Reap, g: nat)
    requires Idle(s.r, g)
    ensures OnlyLosesPools(s.r, DoReap(s, reap).r, g)
  {
  }

  lemma EndOnlyLosesPools(s: Sys, end: End, g: nat)
    requires Idle(s.r, g)
    ensures OnlyLosesPools(s.r, DoEnd(s, end).r, g)
  {
  }

  /** A generation that is no longer current and has no user never gains a user or a pool again. */
  lemma {:induction false} IdleForever(s: Sys, steps: seq<Step>, g: nat)
    requires Inv(s) && Idle(s.r, g)
    ensures OnlyLosesPools(s.r, Run(s, steps).r, g)
    decreases |steps|
  {
    if steps != [] {
      IdleStep(s, steps[0], g);
      StepKeeps(s, steps[0]);
      IdleForever(Do(s, steps[0]), steps[1..], g);
    }
  }

  /** What reaping closes belongs to a retired generation without scopes, streams or requests. */
  lemma ReapClosesOnlyIdle(steps: seq<Step>, key: PoolKey, ok: bool)
    requires CanReap(Run(START, steps), ReapClose(key, ok))
    ensures var t := Run(START, steps);
            var g := t.reap.visit.value.generation;
            && g in t.r.retired
            && (forall id | id in t.scopes :: t.scopes[id] != g)
            && (forall id | id in t.streams :: t.streams[id] != g)
            && (forall q | q in t.requests :: t.requests[q] in t.scopes && t.scopes[t.requests[q]] != g)
  {
    var t := Run(START, steps);
    var g := t.reap.visit.value.generation;
    StartIsFine();
    RunKeeps(START, steps);
    forall id | id in t.scopes ensures t.scopes[id] != g { HoldersCount(t.scopes, id); }
    forall id | id in t.streams ensures t.streams[id] != g { HoldersCount(t.streams, id); }
  }

  /** A generation is dropped only when its pool map is empty. */
  lemma ReapDropsOnlyEmpty(steps: seq<Step>)
    requires CanReap(Run(START, steps), ReapDrop)
    ensures var t := Run(START, steps);
            var g := t.reap.visit.value.generation;
            g in t.r.retired && Get(t.r.generations, g) == Some(Generation(0, map[]))
  {
    StartIsFine();
    RunKeeps(START, steps);
  }

  ghost predicate Finished(r: Runtime) {
    r.stopping && forall g | g in r.generations :: r.generations[g] == Generation(0, map[])
  }

  lemma FinishedReap(s: Sys, reap: Reap)
    requires Finished(s.r)
    ensures Finished(DoReap(s, reap).r)
  {
  }

  lemma FinishedEnd(s: Sys, end: End)
    requires Finished(s.r)
    ensures Finished(DoEnd(s, end).r)
  {
  }

  lemma FinishedStep(s: Sys, step: Step)
    requires Inv(s) && Finished(s.r)
    ensures Finished(Do(s, step).r)
  {
    match step {
      case Use(use) => UseIsOnlyUse(s, use);
      case Reap(reap) => FinishedReap(s, reap);
      case End(end) => FinishedEnd(s, end);
      case _ =>
    }
  }

  /** Once shutdown has gone through, no generation has a user or a pool, whatever runs afterwards. */
  lemma {:induction false} ShutdownIsFinal(s: Sys, steps: seq<Step>)
    requires Inv(s) && (s.shutdown == Swept || Finished(s.r))
    ensures Finished(Run(s, steps).r)
    decreases |steps|
  {
    assert Finished(s.r);
    if steps != [] {
      FinishedStep(s, steps[0]);
      StepKeeps(s, steps[0]);
      ShutdownIsFinal(Do(s, steps[0]), steps[1..]);
    }
  }
}
