/** One state-changing operation at a time: a lock that its owner may re-enter, that refuses tasks
    spawned inside the running operation, and that shutdown can quiesce. */
module MutationCoordinator {
  import opened Lists
  import opened Wrappers

  type Task = nat

  type Token = nat

  datatype State = Open | Quiescing | Closed

  /** `locked`, `waiters` and `woken` are the asyncio lock: first come first served, and after a
      release the first waiter is woken but the lock stays free until that task runs. `inherited` is
      the context variable of each task. `cancel` is the cancellation event of the running operation. */
  datatype Coordinator = Coordinator(locked: bool, waiters: seq<Task>, woken: bool, state: State, owner: Option<Task>,
                                     transaction: Option<Token>, nextToken: Token, inherited: map<Task, Token>,
                                     cancel: Option<bool>, idle: bool)

  datatype Outcome = Nested | CrossTask | Refused(state: State) | Busy | Entered | Waits

  // --- One operation, between two suspension points ---

  function Carries(c: Coordinator, t: Task): Option<Token> {
    Get(c.inherited, t)
  }

  function Calling(c: Coordinator, t: Task, failIfBusy: bool): Outcome {
    if c.owner == Some(t) then Nested
    else if c.transaction.Some? && Carries(c, t) == c.transaction then CrossTask
    else if c.state != Open then Refused(c.state)
    else if failIfBusy && c.locked then Busy
    else if c.locked || c.waiters != [] then Waits
    else Entered
  }

  /** The body starts: a fresh transaction, owned by the task and put into its context. */
  function Begun(c: Coordinator, t: Task): Coordinator {
    c.(locked := true, owner := Some(t), transaction := Some(c.nextToken), nextToken := c.nextToken + 1,
       inherited := c.inherited[t := c.nextToken], cancel := Some(false), idle := false)
  }

  function Called(c: Coordinator, t: Task, failIfBusy: bool): Coordinator {
    match Calling(c, t, failIfBusy)
    case Entered => Begun(c, t)
    case Waits => c.(waiters := c.waiters + [t])
    case _ => c
  }

  function Released(c: Coordinator): Coordinator {
    c.(locked := false, woken := c.waiters != [])
  }

  /** The woken first waiter runs; it takes the lock and looks at the state again. */
  function Resumed(c: Coordinator): Coordinator
    requires c.waiters != []
  {
    var d := c.(waiters := c.waiters[1..], woken := false, locked := true);
    if c.state != Open then Released(d) else Begun(d, c.waiters[0])
  }

  /** The body ends; the context variable gets back what it held before. */
  function Ended(c: Coordinator, t: Task, before: Option<Token>): Coordinator {
    var inherited := if before.Some? then c.inherited[t := before.value] else c.inherited - {t};
    Released(c.(owner := None, transaction := None, inherited := inherited, cancel := None, idle := true))
  }

  /** A cancelled waiter leaves the queue and passes a wake-up on. */
  function GivenUp(c: Coordinator, t: Task): Coordinator {
    var waiters := Removed(c.waiters, t);
    c.(waiters := waiters, woken := !c.locked && waiters != [])
  }

  /** `quiesce` up to its wait. */
  function Quiesced(c: Coordinator): Coordinator {
    c.(state := Quiescing, cancel := if c.cancel.Some? then Some(true) else None)
  }

  class RuntimeMutationCoordinator {
    var locked: bool
    var waiters: seq<Task>
    var woken: bool
    var state: State
    var ownerTask: Option<Task>
    var transaction: Option<Token>
    var nextToken: Token
    var inherited: map<Task, Token>
    var cancelEvent: Option<bool>
    var idle: bool

    function View(): Coordinator
      reads this
    {
      Coordinator(locked, waiters, woken, state, ownerTask, transaction, nextToken, inherited, cancelEvent, idle)
    }

    constructor ()
      ensures View() == INITIAL
    {
      locked, waiters, woken, state, ownerTask, transaction := false, [], false, Open, None, None;
      nextToken, inherited, cancelEvent, idle := 0, map[], None, true;
    }

    /** The task's context holds the running transaction. */
    predicate IsCrossTask(t: Task)
      reads this
    {
      transaction.Some? && t in inherited && transaction.value == inherited[t]
    }

    /** The body of this task runs, with this transaction in its context. */
    ghost predicate Owned(t: Task, token: Token)
      reads this
    {
      && locked && ownerTask == Some(t) && transaction == Some(token) && nextToken == token + 1
      && t in inherited && inherited[t] == token && cancelEvent == Some(false) && !idle
    }

    /** `_check_enter`. */
    method CheckEnter(t: Task, failIfBusy: bool) returns (refused: Option<Outcome>)
      requires ownerTask != Some(t)
      ensures var o := Calling(View(), t, failIfBusy);
              refused == if o in {Entered, Waits} then None else Some(o)
      ensures refused == if IsCrossTask(t) then Some(CrossTask)
                         else if state != Open then Some(Refused(state))
                         else if failIfBusy && locked then Some(Busy) else None
    {
      if transaction.Some? && t in inherited && Some(inherited[t]) == transaction { return Some(CrossTask); }
      if state != Open { return Some(Refused(state)); }
      if failIfBusy && locked { return Some(Busy); }
      return None;
    }

    /** `operation` up to its body or to its wait for the lock; `before` is what to reset the context to. */
    method Operation(t: Task, failIfBusy: bool) returns (outcome: Outcome, before: Option<Token>)
      modifies this
      ensures outcome == Calling(old(View()), t, failIfBusy)
      ensures View() == Called(old(View()), t, failIfBusy) && before == Carries(old(View()), t)
      ensures outcome == if old(ownerTask) == Some(t) then Nested
                         else if old(IsCrossTask(t)) then CrossTask
                         else if old(state) != Open then Refused(old(state))
                         else if failIfBusy && old(locked) then Busy
                         else if old(locked) || old(waiters) != [] then Waits else Entered
      ensures outcome == Waits ==> waiters == old(waiters) + [t] && ownerTask == old(ownerTask) && locked == old(locked)
      ensures outcome == Entered ==> Owned(t, old(nextToken)) && waiters == [] && state == Open
      ensures outcome != Waits && outcome != Entered ==> View() == old(View())
    {
      before := Get(inherited, t);
      if ownerTask == Some(t) { return Nested, before; }
      var refused := CheckEnter(t, failIfBusy);
      if refused.Some? { return refused.value, before; }
      if locked || waiters != [] {
        waiters := waiters + [t];
        return Waits, before;
      }
      locked := true;
      StartBody(t);
      outcome := Entered;
    }

    method StartBody(t: Task)
      requires locked
      modifies this
      ensures View() == Begun(old(View()), t)
    {
      ownerTask := Some(t);
      transaction := Some(nextToken);
      nextToken := nextToken + 1;
      inherited := inherited[t := transaction.value];
      idle := false;
      cancelEvent := Some(false);
    }

    method Release()
      modifies this
      ensures View() == Released(old(View()))
    {
      locked := false;
      woken := waiters != [];
    }

    method Resume() returns (t: Task, entered: bool)
      requires waiters != []
      modifies this
      ensures View() == Resumed(old(View())) && t == old(waiters[0]) && entered == (old(state) == Open)
      ensures waiters == old(waiters)[1..] && state == old(state)
      ensures if entered then Owned(t, old(nextToken)) && !woken
              else !locked && (woken <==> waiters != []) && ownerTask == old(ownerTask) && transaction == old(transaction)
    {
      t := waiters[0];
      waiters, woken, locked := waiters[1..], false, true;
      entered := state == Open;
      if entered { StartBody(t); } else { Release(); }
    }

    method EndBody(t: Task, before: Option<Token>)
      modifies this
      ensures View() == Ended(old(View()), t, before)
      ensures !locked && ownerTask == None && transaction == None && cancelEvent == None && idle
      ensures waiters == old(waiters) && (woken <==> waiters != [])
      ensures Get(inherited, t) == before && forall u :: u != t ==> Get(inherited, u) == Get(old(inherited), u)
    {
      cancelEvent, ownerTask, transaction := None, None, None;
      inherited := if before.Some? then inherited[t := before.value] else inherited - {t};
      idle := true;
      Release();
    }

    /** Returns whether it is done at once; otherwise the caller waits for `idle`. */
    method Quiesce() returns (done: bool)
      modifies this
      ensures View() == Quiesced(old(View())) && done == !old(locked)
      ensures state == Quiescing && (old(cancelEvent).Some? ==> cancelEvent == Some(true)) && ownerTask == old(ownerTask)
    {
      state := Quiescing;
      if cancelEvent.Some? { cancelEvent := Some(true); }
      done := !locked;
    }

    method Close()
      modifies this`state
      ensures View() == old(View()).(state := Closed)
    {
      state := Closed;
    }

    method Reopen()
      modifies this`state
      ensures View() == old(View()).(state := Open)
    {
      state := Open;
    }
  }

  const INITIAL := Coordinator(false, [], false, Open, None, None, 0, map[], None, true)

  /** A body that begins on a free lock and ends leaves no trace but the used token: context, lock and event
      are as before. */
  lemma BodyLeavesNoTrace(c: Coordinator, t: Task)
    requires !c.locked && c.owner.None? && c.transaction.None? && c.cancel.None? && c.idle && c.waiters == [] && !c.woken
    ensures Ended(Begun(c, t), t, Carries(c, t)) == c.(nextToken := c.nextToken + 1)
  {
    assert c.inherited[t := c.nextToken] - {t} == c.inherited - {t};
    assert t !in c.inherited ==> c.inherited - {t} == c.inherited;
    assert t in c.inherited ==> c.inherited[t := c.nextToken][t := c.inherited[t]] == c.inherited;
  }

  /** A waiter that gives up is gone, the others keep their places, and a free lock wakes the first of them. */
  lemma GivenUpIsGone(c: Coordinator, a: seq<Task>, t: Task, b: seq<Task>)
    requires c.waiters == a + [t] + b && t !in a
    ensures GivenUp(c, t) == c.(waiters := a + b, woken := !c.locked && a + b != [])
  {
    RemovedFromMiddle(a, t, b);
  }

  // --- The whole system ---

  /** A `quiesce` waiting for idle: how often the coordinator had been reopened when it began, and
      whether the event has fired. */
  datatype Wait = Wait(opens: nat, fired: bool)

  /** `bodies` are the operation bodies running, with what their context held before; `inside` are the
      tasks spawned, however deep, inside the running operation, and its owner. */
  datatype Sys = Sys(c: Coordinator, tasks: set<Task>, bodies: map<Task, Option<Token>>, inside: set<Task>,
                     quiesces: map<nat, Wait>, opens: nat)

  datatype Step =
    | Spawn(parent: Task, child: Task)
    | Call(t: Task, failIfBusy: bool)
    | Resume
    | GiveUp(t: Task)
    | End(t: Task)
    | Quiesce(q: nat)
    | QuiesceReturns(q: nat)
    | QuiesceTimesOut(q: nat)
    | Close
    | Reopen

  predicate Enabled(s: Sys, step: Step) {
    match step
    case Spawn(parent, child) => parent in s.tasks && child !in s.tasks
    case Call(t, _) => t in s.tasks && t !in s.c.waiters
    case Resume => s.c.woken && s.c.waiters != []
    case GiveUp(t) => t in s.c.waiters
    case End(t) => t in s.bodies
    case Quiesce(q) => q !in s.quiesces
    case QuiesceReturns(q) => q in s.quiesces && s.quiesces[q].fired
    case QuiesceTimesOut(q) => q in s.quiesces
    case Close => true
    case Reopen => true
  }

  function Entering(s: Sys, c: Coordinator, t: Task): Sys {
    s.(c := c, bodies := s.bodies[t := Carries(s.c, t)], inside := {t})
  }

  function Fired(quiesces: map<nat, Wait>): map<nat, Wait> {
    map q | q in quiesces :: quiesces[q].(fired := true)
  }

  function Do(s: Sys, step: Step): Sys {
    if !Enabled(s, step) then s else
      match step
      case Spawn(parent, child) =>
        s.(tasks := s.tasks + {child}, inside := if parent in s.inside then s.inside + {child} else s.inside,
           c := if parent in s.c.inherited then s.c.(inherited := s.c.inherited[child := s.c.inherited[parent]])
                else s.c.(inherited := s.c.inherited - {child}))
      case Call(t, failIfBusy) =>
        var c := Called(s.c, t, failIfBusy);
        if Calling(s.c, t, failIfBusy) == Entered then Entering(s, c, t) else s.(c := c)
      case Resume => if s.c.state == Open then Entering(s, Resumed(s.c), s.c.waiters[0]) else s.(c := Resumed(s.c))
      case GiveUp(t) => s.(c := GivenUp(s.c, t))
      case End(t) => s.(c := Ended(s.c, t, s.bodies[t]), bodies := s.bodies - {t}, inside := {}, quiesces := Fired(s.quiesces))
      case Quiesce(q) =>
        if s.c.locked then s.(c := Quiesced(s.c), quiesces := s.quiesces[q := Wait(s.opens, false)]) else s.(c := Quiesced(s.c))
      case QuiesceReturns(q) => s.(quiesces := s.quiesces - {q})
      case QuiesceTimesOut(q) => s.(quiesces := s.quiesces - {q}, c := Quiesced(s.c).(state := s.c.state))
      case Close => s.(c := s.c.(state := Closed))
      case Reopen => s.(c := s.c.(state := Open), opens := s.opens + 1)
  }

  function Run(s: Sys, steps: seq<Step>): Sys
    decreases |steps|
  {
    if steps == [] then s else Run(Do(s, steps[0]), steps[1..])
  }

  /** The steps do to the coordinator what its methods do, and start and end bodies accordingly. */
  lemma StepsAreOperations(s: Sys, step: Step)
    ensures var t := Do(s, step);
            match step
            case Spawn(parent, child) =>
              parent in s.tasks && child !in s.tasks ==>
                child in t.tasks && Carries(t.c, child) == Carries(s.c, parent) && t.c.(inherited := s.c.inherited) == s.c
            case Call(u, failIfBusy) =>
              u in s.tasks && u !in s.c.waiters ==>
                t.c == Called(s.c, u, failIfBusy) && t.bodies.Keys == s.bodies.Keys + if Calling(s.c, u, failIfBusy).Entered? then {u} else {}
            case Resume =>
              s.c.woken && s.c.waiters != [] ==>
                t.c == Resumed(s.c) && t.bodies.Keys == s.bodies.Keys + if s.c.state == Open then {s.c.waiters[0]} else {}
            case GiveUp(u) => u in s.c.waiters ==> t.c == GivenUp(s.c, u) && t.bodies == s.bodies
            case End(u) =>
              u in s.bodies ==>
                t.c == Ended(s.c, u, s.bodies[u]) && t.bodies == s.bodies - {u} && forall q | q in t.quiesces :: t.quiesces[q].fired
            case Quiesce(q) => q !in s.quiesces ==> t.c == Quiesced(s.c) && (q in t.quiesces <==> s.c.locked)
            case QuiesceReturns(q) => q in s.quiesces && s.quiesces[q].fired ==> t.c == s.c && q !in t.quiesces
            case QuiesceTimesOut(q) =>
              q in s.quiesces ==>
                t.c == Quiesced(s.c).(state := s.c.state) && q !in t.quiesces
            case Close => t.c == s.c.(state := Closed) && t.bodies == s.bodies
            case Reopen => t.c == s.c.(state := Open) && t.bodies == s.bodies
  {
  }

  // --- The invariant ---

  /** No wake-up is lost: a free lock with waiters has woken the first of them. */
  ghost predicate LockIsFair(c: Coordinator) {
    c.woken <==> !c.locked && c.waiters != []
  }

  /** At most one body runs; the lock, the owner, the transaction, the event and the flag all tell. */
  ghost predicate OneBody(s: Sys) {
    && s.bodies.Keys == (if s.c.owner.Some? then {s.c.owner.value} else {})
    && (s.c.locked <==> s.c.owner.Some?)
    && (s.c.transaction.Some? <==> s.c.owner.Some?)
    && (s.c.cancel.Some? <==> s.c.owner.Some?)
    && (s.c.idle <==> s.c.owner.None?)
  }

  /** Transactions are never reused. */
  ghost predicate TokensAreFresh(s: Sys) {
    && (forall t | t in s.c.inherited :: s.c.inherited[t] < s.c.nextToken)
    && (forall t | t in s.bodies :: s.bodies[t].Some? ==> s.bodies[t].value < s.c.nextToken)
    && (s.c.transaction.Some? ==> s.c.transaction.value < s.c.nextToken)
  }

  ghost predicate TasksExist(s: Sys) {
    && (forall t | t in s.c.inherited :: t in s.tasks)
    && (forall t | t in s.c.waiters :: t in s.tasks)
    && (forall t | t in s.bodies :: t in s.tasks)
  }

  /** A task waits at most once, and not while its body runs. */
  ghost predicate WaitersAreApart(s: Sys) {
    Distinct(s.c.waiters) && forall t | t in s.c.waiters :: t !in s.bodies
  }

  /** The tasks whose context holds the running transaction are exactly those spawned inside it, and
      none of them waits for the lock. */
  ghost predicate InsideIsKnown(s: Sys) {
    if s.c.owner.None? then s.inside == {}
    else
      && s.c.owner.value in s.inside
      && (forall t | t in s.inside :: t in s.tasks && t !in s.c.waiters)
      && (forall t | t in s.tasks :: t in s.inside <==> Carries(s.c, t) == s.c.transaction)
  }

  /** While a `quiesce` waits and nobody reopens, nothing can start, and what runs was asked to stop. */
  ghost predicate QuiesceHolds(s: Sys) {
    forall q | q in s.quiesces ::
      && s.quiesces[q].opens <= s.opens
      && (s.quiesces[q].opens == s.opens ==>
            && s.c.state != Open
            && (s.quiesces[q].fired ==> s.bodies == map[])
            && (!s.quiesces[q].fired ==> s.c.cancel == Some(true)))
  }

  ghost predicate Inv(s: Sys) {
    LockIsFair(s.c) && OneBody(s) && TokensAreFresh(s) && TasksExist(s) && WaitersAreApart(s) && InsideIsKnown(s) && QuiesceHolds(s)
  }

  lemma SpawnKeeps(s: Sys, parent: Task, child: Task)
    requires Inv(s)
    ensures Inv(Do(s, Spawn(parent, child)))
  {
  }

  /** A body starts on a free lock, for a task that waits no longer. */
  lemma EnteringKeeps(s: Sys, t: Task, waiters: seq<Task>)
    requires Inv(s) && !s.c.locked && s.c.state == Open && t in s.tasks
    requires Distinct(waiters) && t !in waiters && forall u | u in waiters :: u in s.c.waiters
    ensures Inv(Entering(s, Begun(s.c.(waiters := waiters, woken := false), t), t))
  {
    var after := Entering(s, Begun(s.c.(waiters := waiters, woken := false), t), t);
    assert InsideIsKnown(after) by {
      assert forall u | u in s.tasks && u != t :: Carries(after.c, u) == Carries(s.c, u) != after.c.transaction;
    }
  }

  lemma CallKeeps(s: Sys, t: Task, failIfBusy: bool)
    requires Inv(s)
    ensures Inv(Do(s, Call(t, failIfBusy)))
  {
    if Enabled(s, Call(t, failIfBusy)) {
      match Calling(s.c, t, failIfBusy) {
        case Entered => EnteringKeeps(s, t, []);
        case Waits => WaitingKeeps(s, t);
        case _ =>
      }
    }
  }

  lemma WaitingKeeps(s: Sys, t: Task)
    requires Inv(s) && t in s.tasks && t !in s.c.waiters && s.c.owner != Some(t)
    requires s.c.transaction.Some? ==> Carries(s.c, t) != s.c.transaction
    requires s.c.locked || s.c.waiters != []
    ensures Inv(s.(c := s.c.(waiters := s.c.waiters + [t])))
  {
  }

  lemma ResumeKeeps(s: Sys)
    requires Inv(s)
    ensures Inv(Do(s, Resume))
  {
    if Enabled(s, Resume) {
      if s.c.state == Open { EnteringKeeps(s, s.c.waiters[0], s.c.waiters[1..]); }
    }
  }

  lemma GiveUpKeeps(s: Sys, t: Task)
    requires Inv(s)
    ensures Inv(Do(s, GiveUp(t)))
  {
    RemovedFacts(s.c.waiters, t);
  }

  lemma EndKeeps(s: Sys, t: Task)
    requires Inv(s)
    ensures Inv(Do(s, End(t)))
  {
  }

  lemma QuiesceKeeps(s: Sys, q: nat)
    requires Inv(s)
    ensures Inv(Do(s, Quiesce(q)))
  {
  }

  lemma WaitEndsKeeps(s: Sys, q: nat)
    requires Inv(s)
    ensures Inv(Do(s, QuiesceReturns(q))) && Inv(Do(s, QuiesceTimesOut(q)))
  {
  }

  lemma SwitchKeeps(s: Sys)
    requires Inv(s)
    ensures Inv(Do(s, Close)) && Inv(Do(s, Reopen))
  {
  }

  lemma StepKeeps(s: Sys, step: Step)
    requires Inv(s)
    ensures Inv(Do(s, step))
  {
    match step {
      case Spawn(parent, child) => SpawnKeeps(s, parent, child);
      case Call(t, failIfBusy) => CallKeeps(s, t, failIfBusy);
      case Resume => ResumeKeeps(s);
      case GiveUp(t) => GiveUpKeeps(s, t);
      case End(t) => EndKeeps(s, t);
      case Quiesce(q) => QuiesceKeeps(s, q);
      case QuiesceReturns(q) => WaitEndsKeeps(s, q);
      case QuiesceTimesOut(q) => WaitEndsKeeps(s, q);
      case Close => SwitchKeeps(s);
      case Reopen => SwitchKeeps(s);
    }
  }

  // --- Over every run ---

  const START := Sys(INITIAL, {0}, map[], {}, map[], 0)

  lemma {:induction false} RunKeeps(s: Sys, steps: seq<Step>)
    requires Inv(s)
    ensures Inv(Run(s, steps))
    decreases |steps|
  {
    if steps != [] {
      StepKeeps(s, steps[0]);
      RunKeeps(Do(s, steps[0]), steps[1..]);
    }
  }

  /** Whatever the interleaving, two operation bodies never run at the same time. */
  lemma AtMostOneBody(steps: seq<Step>, t: Task, u: Task)
    requires t in Run(START, steps).bodies && u in Run(START, steps).bodies
    ensures t == u && Run(START, steps).c.locked && Run(START, steps).c.owner == Some(t)
  {
    RunKeeps(START, steps);
    assert t in Run(START, steps).bodies.Keys && u in Run(START, steps).bodies.Keys;
  }

  /** A task spawned inside the running operation, however deep, is refused and does not wait for the
      operation it belongs to; no other task is refused for that reason. */
  lemma InheritedContextIsRefused(steps: seq<Step>, t: Task, failIfBusy: bool)
    requires t in Run(START, steps).tasks
    ensures var s := Run(START, steps);
            && (Calling(s.c, t, failIfBusy) == CrossTask <==> t in s.inside && s.c.owner != Some(t))
            && (t in s.inside ==> t !in s.c.waiters && Do(s, Call(t, failIfBusy)) == s)
  {
    RunKeeps(START, steps);
  }

  /** Nobody waits for ever for a wake-up: with waiters, a body runs or the first waiter is woken. */
  lemma WaitersAreServed(steps: seq<Step>)
    requires Run(START, steps).c.waiters != []
    ensures var s := Run(START, steps); Enabled(s, Resume) || exists t :: Enabled(s, End(t))
  {
    RunKeeps(START, steps);
    var s := Run(START, steps);
    if s.c.locked {
      assert s.c.owner.value in s.bodies.Keys;
      assert Enabled(s, End(s.c.owner.value));
    }
  }

  /** No body runs and none can start. */
  ghost predicate Quiet(s: Sys) {
    s.bodies == map[] && s.c.state != Open
  }

  /** `quiesce` returns True, at once or after its wait, with nothing running, unless the coordinator
      was reopened while it waited; exactly when a waiting one will is `QuiesceReturnsQuietIff`. */
  lemma QuiesceMakesQuiet(steps: seq<Step>, q: nat)
    ensures var s := Run(START, steps);
            && (Enabled(s, Quiesce(q)) && !s.c.locked ==> Quiet(Do(s, Quiesce(q))))
            && (Enabled(s, QuiesceReturns(q)) && s.quiesces[q].opens == s.opens ==> Quiet(Do(s, QuiesceReturns(q))))
  {
    RunKeeps(START, steps);
    var s := Run(START, steps);
    if !s.c.locked {
      assert s.bodies.Keys == {};
      assert s.bodies == map[];
    }
  }

  /** From then on, until `reopen`, no body starts. */
  lemma {:induction false} QuietUntilReopened(s: Sys, steps: seq<Step>)
    requires Quiet(s) && Reopen !in steps
    ensures Quiet(Run(s, steps))
    decreases |steps|
  {
    if steps != [] {
      assert steps[0] != Reopen;
      QuietUntilReopened(Do(s, steps[0]), steps[1..]);
    }
  }

  // Exactly when a waiting `quiesce` keeps its promise.

  /** However the run goes on without another `reopen`, this `quiesce` can return True only with no body
      running. */
  ghost predicate WillReturnQuiet(s: Sys, q: nat) {
    forall steps | Reopen !in steps && Enabled(Run(s, steps), QuiesceReturns(q)) ::
      Do(Run(s, steps), QuiesceReturns(q)).bodies == map[]
  }

  /** Nothing can start, and if the event of this `quiesce` has fired nothing runs. */
  predicate IsShut(s: Sys, q: nat) {
    s.c.state != Open && (q in s.quiesces && s.quiesces[q].fired ==> s.bodies == map[])
  }

  lemma ShutStep(s: Sys, step: Step, q: nat)
    requires Inv(s) && IsShut(s, q) && step != Reopen
    ensures IsShut(Do(s, step), q)
  {
    if Enabled(s, step) && step.End? {
      assert s.bodies.Keys == {step.t};
      assert s.bodies - {step.t} == map[];
    }
  }

  lemma {:induction false} ShutStays(s: Sys, steps: seq<Step>, q: nat)
    requires Inv(s) && IsShut(s, q) && Reopen !in steps
    ensures IsShut(Run(s, steps), q)
    decreases |steps|
  {
    if steps != [] {
      assert steps[0] != Reopen;
      ShutStep(s, steps[0], q);
      StepKeeps(s, steps[0]);
      ShutStays(Do(s, steps[0]), steps[1..], q);
    }
  }

  /** On an open coordinator that runs no body, the first waiter or else any task can start one. */
  lemma SomebodyStarts(s: Sys) returns (step: Step)
    requires Inv(s) && s.c.state == Open && s.bodies == map[] && 0 in s.tasks
    ensures step != Reopen
    ensures var t := Do(s, step); t.bodies != map[] && t.quiesces == s.quiesces && t.c.state == Open && t.tasks == s.tasks
  {
    assert s.bodies.Keys == {};
    step := if s.c.waiters != [] then Resume else Call(0, false);
    var t := if s.c.waiters != [] then s.c.waiters[0] else 0;
    assert t in Do(s, step).bodies;
  }

  lemma BodyEnds(s: Sys) returns (step: Step)
    requires Inv(s) && s.bodies != map[]
    ensures step != Reopen
    ensures var t := Do(s, step);
            && t.bodies == map[] && t.c.state == s.c.state && t.tasks == s.tasks
            && forall q | q in s.quiesces :: q in t.quiesces && t.quiesces[q].fired
  {
    var owner := s.c.owner.value;
    assert owner in s.bodies.Keys;
    step := End(owner);
    assert s.bodies - {owner} == map[];
  }

  lemma {:induction false} RunConcat(s: Sys, a: seq<Step>, b: seq<Step>)
    ensures Run(s, a + b) == Run(Run(s, a), b)
    decreases |a|
  {
    if a == [] { assert a + b == b; } else {
      assert (a + b)[1..] == a[1..] + b;
      RunConcat(Do(s, a[0]), a[1..], b);
    }
  }

  lemma RunOne(s: Sys, step: Step)
    ensures Run(s, [step]) == Do(s, step)
  {
    assert [step][1..] == [];
  }

  lemma {:induction false} TasksStay(s: Sys, steps: seq<Step>)
    ensures s.tasks <= Run(s, steps).tasks
    decreases |steps|
  {
    if steps != [] { TasksStay(Do(s, steps[0]), steps[1..]); }
  }

  /** Once open, a body ends if one runs, and else after one has started, so that the event fires. */
  lemma EventFires(s: Sys, q: nat) returns (steps: seq<Step>)
    requires Inv(s) && 0 in s.tasks && q in s.quiesces && s.c.state == Open
    ensures Reopen !in steps
    ensures var t := Run(s, steps); t.bodies == map[] && t.c.state == Open && 0 in t.tasks && Enabled(t, QuiesceReturns(q))
  {
    if s.bodies == map[] {
      var start := SomebodyStarts(s);
      StepKeeps(s, start);
      var end := BodyEnds(Do(s, start));
      RunOne(s, start);
      RunOne(Do(s, start), end);
      RunConcat(s, [start], [end]);
      steps := [start] + [end];
    } else {
      var end := BodyEnds(s);
      RunOne(s, end);
      steps := [end];
    }
  }

  /** Then another one starts. */
  lemma OpenBreaksPromise(s: Sys, q: nat) returns (steps: seq<Step>)
    requires Inv(s) && 0 in s.tasks && q in s.quiesces && s.c.state == Open
    ensures Reopen !in steps
    ensures var t := Run(s, steps); Enabled(t, QuiesceReturns(q)) && Do(t, QuiesceReturns(q)).bodies != map[]
  {
    steps := EventFires(s, q);
    RunKeeps(s, steps);
    var t := Run(s, steps);
    var again := SomebodyStarts(t);
    RunConcat(s, steps, [again]);
    RunOne(t, again);
    steps := steps + [again];
  }

  /** A waiting `quiesce` keeps its promise, however the run goes on until the next `reopen`, exactly when
      the coordinator is not open and, if the event has fired already, no body runs. */
  lemma QuiesceReturnsQuietIff(before: seq<Step>, q: nat)
    requires q in Run(START, before).quiesces
    ensures var s := Run(START, before); WillReturnQuiet(s, q) <==> IsShut(s, q)
  {
    var s := Run(START, before);
    RunKeeps(START, before);
    TasksStay(START, before);
    if IsShut(s, q) {
      forall steps | Reopen !in steps && Enabled(Run(s, steps), QuiesceReturns(q))
        ensures Do(Run(s, steps), QuiesceReturns(q)).bodies == map[]
      {
        ShutStays(s, steps, q);
      }
    } else if s.c.state == Open {
      var steps := OpenBreaksPromise(s, q);
      assert !WillReturnQuiet(s, q);
    } else {
      assert Run(s, []) == s && Enabled(Run(s, []), QuiesceReturns(q));
      assert !WillReturnQuiet(s, q);
    }
  }

  /** A run in which the promise is broken: `reopen` comes while `quiesce` waits, and its event has fired. */
  lemma ReopenedQuiesce() returns (steps: seq<Step>)
    ensures var s := Run(START, steps); Enabled(s, QuiesceReturns(0)) && s.bodies == map[] && !WillReturnQuiet(s, 0)
  {
    steps := [Call(0, false), Quiesce(0), End(0), Reopen];
    var a := Do(START, steps[0]);
    var b := Do(a, steps[1]);
    var c := Do(b, steps[2]);
    var d := Do(c, steps[3]);
    assert Run(START, steps) == d by {
      assert Run(d, []) == d;
      assert Run(c, [steps[3]]) == d;
      assert Run(b, steps[2..]) == Run(c, steps[2..][1..]) && steps[2..][1..] == [steps[3]];
      assert Run(a, steps[1..]) == Run(b, steps[1..][1..]) && steps[1..][1..] == steps[2..];
    }
    QuiesceReturnsQuietIff(steps, 0);
  }

  /** While a `quiesce` waits and nobody reopens, the running operation sees that it should stop. */
  lemma QuiesceAsksToStop(steps: seq<Step>, q: nat)
    requires q in Run(START, steps).quiesces
    ensures var s := Run(START, steps);
            s.quiesces[q].opens == s.opens && s.bodies != map[] ==> s.c.cancel == Some(true)
  {
    RunKeeps(START, steps);
  }
}
