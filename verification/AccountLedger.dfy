/** Gold accounts: balances, log rows and fee reservations, changed by transactions that either
    complete or leave nothing behind. */
module AccountLedger {
  import opened Wrappers
  import Lists

  const MAX_GOLD: int := 0x7fff_ffff
  const INITIAL_GOLD: int := 100

  datatype Handle = BUY | GET | PLUGIN

  datatype Log = Log(user: string, amount: nat, handle: Handle, source: string)

  datatype State = Reserved | Committed | Released

  /** A fee reservation; its position in `ops` stands for its unique id. */
  datatype Operation = Operation(user: string, amount: nat, handle: Handle, source: string, state: State)

  /** A reservation that was settled: by a log row or by a refund. */
  datatype Settlement = Logged(op: nat) | Refunded(op: nat)

  /** The rows.  A purged operation is None.  `settled` records the settlements carried out. */
  datatype Ledger = Ledger(gold: map<string, int>, logs: seq<Log>, ops: seq<Option<Operation>>, settled: seq<Settlement>)

  datatype Error =
    | AmountInvalid
    | GoldOutOfRange
    | InsufficientGold
    | RefundOutOfRange
    | ReceiptInvalid
    | OperationMissing
    | AccountNotLocked
    | Interrupted

  datatype Call =
    | SetGold(user: string, gold: int)
    | AddGold(user: string, gold: int, source: string)
    | ReduceGold(user: string, gold: int, handle: Handle, source: string)
    | ReserveGold(user: string, gold: int, handle: Handle, source: string)
    | Finish(user: string, op: nat, action: State)

  // --- What one call does to the rows ---

  function Opened(l: Ledger, user: string): Ledger {
    if user in l.gold then l else l.(gold := l.gold[user := INITIAL_GOLD])
  }

  function Apply(l: Ledger, c: Call): Result<Ledger, Error>
    requires c.user in l.gold
  {
    var u := c.user;
    match c
    case SetGold(_, g) =>
      if !(0 <= g <= MAX_GOLD) then Err(GoldOutOfRange)
      else
        var delta := g - l.gold[u];
        var after := l.(gold := l.gold[u := g]);
        if delta == 0 then Ok(after)
        else Ok(after.(logs := l.logs + [Log(u, if delta > 0 then delta else -delta, if delta > 0 then GET else PLUGIN, "superuser_set")]))
    case AddGold(_, g, source) =>
      if g <= 0 then Err(AmountInvalid)
      else if l.gold[u] > MAX_GOLD - g then Err(GoldOutOfRange)
      else Ok(l.(gold := l.gold[u := l.gold[u] + g], logs := l.logs + [Log(u, g, GET, source)]))
    case ReduceGold(_, g, handle, source) =>
      if g <= 0 then Err(AmountInvalid)
      else if l.gold[u] < g then Err(InsufficientGold)
      else Ok(l.(gold := l.gold[u := l.gold[u] - g], logs := l.logs + [Log(u, g, handle, source)]))
    case ReserveGold(_, g, handle, source) =>
      if g <= 0 then Err(AmountInvalid)
      else if l.gold[u] < g then Err(InsufficientGold)
      else Ok(l.(gold := l.gold[u := l.gold[u] - g], ops := l.ops + [Some(Operation(u, g, handle, source, Reserved))]))
    case Finish(_, op, action) =>
      if op >= |l.ops| || l.ops[op].None? then Err(OperationMissing)
      else
        var o := l.ops[op].value;
        if o.user != u then Err(ReceiptInvalid)
        else if o.state != Reserved then Ok(l)
        else if o.amount == 0 then Err(AmountInvalid)
        else if action == Committed then
          Ok(l.(logs := l.logs + [Log(u, o.amount, o.handle, o.source)],
                ops := l.ops[op := Some(o.(state := action))], settled := l.settled + [Logged(op)]))
        else if l.gold[u] > MAX_GOLD - o.amount then Err(RefundOutOfRange)
        else
          Ok(l.(gold := l.gold[u := l.gold[u] + o.amount],
                ops := l.ops[op := Some(o.(state := action))], settled := l.settled + [Refunded(op)]))
  }

  // --- The law of the ledger ---

  function Balance(l: Ledger, user: string): int {
    if user in l.gold then l.gold[user] else INITIAL_GOLD
  }

  /** What an operation still holds back from its user. */
  function Held(o: Option<Operation>, user: string): nat {
    if o.Some? && o.value.user == user && o.value.state == Reserved then o.value.amount else 0
  }

  function Open(ops: seq<Option<Operation>>, user: string): nat {
    if ops == [] then 0 else Open(ops[..|ops| - 1], user) + Held(ops[|ops| - 1], user)
  }

  function Worth(x: Log, user: string): int {
    if x.user != user then 0 else if x.handle == GET then x.amount as int else -(x.amount as int)
  }

  /** Credits minus debits: GET rows count up, all others down. */
  function Net(logs: seq<Log>, user: string): int {
    if logs == [] then 0 else Net(logs[..|logs| - 1], user) + Worth(logs[|logs| - 1], user)
  }

  lemma {:induction false} OpenUpdate(ops: seq<Option<Operation>>, i: nat, o: Option<Operation>, user: string)
    requires i < |ops|
    ensures Open(ops[i := o], user) == Open(ops, user) - Held(ops[i], user) + Held(o, user)
  {
    var n := |ops| - 1;
    if i == n {
      assert ops[i := o][..n] == ops[..n];
    } else {
      assert ops[i := o][..n] == ops[..n][i := o];
      OpenUpdate(ops[..n], i, o, user);
    }
  }

  lemma OpenAppend(ops: seq<Option<Operation>>, o: Option<Operation>, user: string)
    ensures Open(ops + [o], user) == Open(ops, user) + Held(o, user)
  {
    assert (ops + [o])[..|ops|] == ops;
  }

  lemma NetAppend(logs: seq<Log>, x: Log, user: string)
    ensures Net(logs + [x], user) == Net(logs, user) + Worth(x, user)
  {
    assert (logs + [x])[..|logs|] == logs;
  }

  /** Gold in hand and gold held back are the initial gold plus credits minus debits. */
  ghost predicate Balanced(l: Ledger, user: string) {
    Balance(l, user) + Open(l.ops, user) == INITIAL_GOLD + Net(l.logs, user)
  }

  ghost predicate InRange(l: Ledger) {
    forall u | u in l.gold :: 0 <= l.gold[u] <= MAX_GOLD
  }

  /** A reservation is settled at most once, and its state says how. */
  ghost predicate SettledOnce(ops: seq<Option<Operation>>, settled: seq<Settlement>) {
    && (forall a, b :: 0 <= a < b < |settled| ==> settled[a].op != settled[b].op)
    && (forall a :: 0 <= a < |settled| ==>
      && settled[a].op < |ops|
      && (ops[settled[a].op].Some? ==> ops[settled[a].op].value.state == if settled[a].Logged? then Committed else Released))
    && (forall i :: 0 <= i < |ops| && ops[i].Some? && ops[i].value.state != Reserved ==> HasSettlement(settled, i))
  }

  ghost predicate HasSettlement(settled: seq<Settlement>, op: nat) {
    exists a :: 0 <= a < |settled| && settled[a].op == op
  }

  /** Reservations hold a positive amount and are spent, not earned. */
  ghost predicate OpsOk(l: Ledger) {
    forall i :: 0 <= i < |l.ops| && l.ops[i].Some? ==> l.ops[i].value.amount > 0 && l.ops[i].value.handle != GET
  }

  ghost predicate Sound(l: Ledger) {
    && InRange(l) && SettledOnce(l.ops, l.settled) && OpsOk(l)
    && (forall u :: Balanced(l, u))
  }

  /** A reservation is finished by committing or by releasing it; there is no third way. */
  predicate EndsProperly(c: Call) {
    c.Finish? ==> c.action != Reserved
  }

  /** Money is not spent under the handle for earning it. */
  predicate SpendsProperly(c: Call) {
    EndsProperly(c) && (c.ReduceGold? || c.ReserveGold? ==> c.handle != GET)
  }

  /** The call books gold that is spent under the handle for earning it: at once, or by committing a
      reservation made under that handle. */
  predicate Misbooks(l: Ledger, c: Call) {
    match c
    case ReduceGold(_, _, handle, _) => handle == GET
    case Finish(_, op, action) =>
      action == Committed && op < |l.ops| && l.ops[op].Some? && l.ops[op].value.state == Reserved && l.ops[op].value.handle == GET
    case _ => false
  }

  /** Adding one log row keeps the law exactly when the row is worth what the balance changed by. */
  lemma LogBalance(l: Ledger, t: Ledger, x: Log, user: string)
    requires t.logs == l.logs + [x] && t.ops == l.ops && Balanced(l, user)
    ensures Balanced(t, user) <==> Balance(t, user) == Balance(l, user) + Worth(x, user)
  {
    NetAppend(l.logs, x, user);
  }

  lemma LogIsWorth(x: Log, user: string)
    ensures Worth(x, user) == if user != x.user then 0 else if x.handle == GET then x.amount as int else -(x.amount as int)
  {
  }

  lemma SetBalance(l: Ledger, owner: string, gold: int, user: string)
    requires owner in l.gold && Balanced(l, user) && Apply(l, SetGold(owner, gold)).Ok?
    ensures Balanced(Apply(l, SetGold(owner, gold)).value, user)
  {
    var t := Apply(l, SetGold(owner, gold)).value;
    var delta := gold - l.gold[owner];
    if delta == 0 {
      SameBalance(l, t, user);
    } else {
      var x := Log(owner, if delta > 0 then delta else -delta, if delta > 0 then GET else PLUGIN, "superuser_set");
      LogIsWorth(x, user);
      LogBalance(l, t, x, user);
    }
  }

  lemma SameBalance(l: Ledger, t: Ledger, user: string)
    requires t.logs == l.logs && t.ops == l.ops && Balance(t, user) == Balance(l, user) && Balanced(l, user)
    ensures Balanced(t, user)
  {
  }

  lemma AddBalance(l: Ledger, owner: string, gold: int, source: string, user: string)
    requires owner in l.gold && Balanced(l, user) && Apply(l, AddGold(owner, gold, source)).Ok?
    ensures Balanced(Apply(l, AddGold(owner, gold, source)).value, user)
  {
    LogIsWorth(Log(owner, gold, GET, source), user);
    LogBalance(l, Apply(l, AddGold(owner, gold, source)).value, Log(owner, gold, GET, source), user);
  }

  lemma ReduceBalance(l: Ledger, owner: string, gold: int, handle: Handle, source: string, user: string)
    requires owner in l.gold && Balanced(l, user) && Apply(l, ReduceGold(owner, gold, handle, source)).Ok?
    ensures Balanced(Apply(l, ReduceGold(owner, gold, handle, source)).value, user) <==> !(handle == GET && user == owner)
  {
    LogIsWorth(Log(owner, gold, handle, source), user);
    LogBalance(l, Apply(l, ReduceGold(owner, gold, handle, source)).value, Log(owner, gold, handle, source), user);
  }

  lemma ReserveBalance(l: Ledger, owner: string, gold: int, handle: Handle, source: string, user: string)
    requires owner in l.gold && Balanced(l, user) && Apply(l, ReserveGold(owner, gold, handle, source)).Ok?
    ensures Balanced(Apply(l, ReserveGold(owner, gold, handle, source)).value, user)
  {
    OpenAppend(l.ops, Some(Operation(owner, gold, handle, source, Reserved)), user);
  }

  /** Settling sets free what the reservation held back. */
  lemma SettledHoldsNothing(l: Ledger, op: nat, action: State, user: string)
    requires op < |l.ops| && l.ops[op].Some? && action != Reserved
    ensures Open(l.ops[op := Some(l.ops[op].value.(state := action))], user) == Open(l.ops, user) - Held(l.ops[op], user)
  {
    OpenUpdate(l.ops, op, Some(l.ops[op].value.(state := action)), user);
  }

  /** A reservation that is still to be settled by its owner. */
  predicate Settles(l: Ledger, owner: string, op: nat) {
    op < |l.ops| && l.ops[op].Some? && var o := l.ops[op].value; o.state == Reserved && o.user == owner && o.amount > 0
  }

  /** Committing trades a reservation for a log row, and so keeps the law exactly when it was not made
      under the earning handle. */
  lemma CommitBalance(l: Ledger, owner: string, op: nat, user: string)
    requires owner in l.gold && Balanced(l, user) && Settles(l, owner, op)
    ensures var r := Apply(l, Finish(owner, op, Committed));
            r.Ok? && (Balanced(r.value, user) <==> !(l.ops[op].value.handle == GET && user == owner))
  {
    var o := l.ops[op].value;
    SettledHoldsNothing(l, op, Committed, user);
    NetAppend(l.logs, Log(owner, o.amount, o.handle, o.source), user);
  }

  /** Releasing trades it for a refund and keeps the law whatever the handle. */
  lemma ReleaseBalance(l: Ledger, owner: string, op: nat, user: string)
    requires owner in l.gold && Balanced(l, user) && Settles(l, owner, op) && l.gold[owner] <= MAX_GOLD - l.ops[op].value.amount
    ensures var r := Apply(l, Finish(owner, op, Released)); r.Ok? && Balanced(r.value, user)
  {
    SettledHoldsNothing(l, op, Released, user);
  }

  lemma FinishBalance(l: Ledger, owner: string, op: nat, action: State, user: string)
    requires owner in l.gold && action != Reserved && Balanced(l, user) && Apply(l, Finish(owner, op, action)).Ok?
    ensures Balanced(Apply(l, Finish(owner, op, action)).value, user) <==> !(Misbooks(l, Finish(owner, op, action)) && user == owner)
  {
    if l.ops[op].value.state == Reserved {
      if action == Committed { CommitBalance(l, owner, op, user); } else { ReleaseBalance(l, owner, op, user); }
    }
  }

  /** The condition on handles is exact for every call: from a balanced account, an accepted call leaves
      the account balanced if and only if it does not book spending as earning there. */
  lemma KeepsIffBooked(l: Ledger, c: Call, user: string)
    requires c.user in l.gold && EndsProperly(c) && Balanced(l, user) && Apply(l, c).Ok?
    ensures Balanced(Apply(l, c).value, user) <==> !(Misbooks(l, c) && user == c.user)
  {
    match c {
      case SetGold(owner, gold) => SetBalance(l, owner, gold, user);
      case AddGold(owner, gold, source) => AddBalance(l, owner, gold, source, user);
      case ReduceGold(owner, gold, handle, source) => ReduceBalance(l, owner, gold, handle, source, user);
      case ReserveGold(owner, gold, handle, source) => ReserveBalance(l, owner, gold, handle, source, user);
      case Finish(owner, op, action) => FinishBalance(l, owner, op, action, user);
    }
  }

  lemma ReserveKeepsOnce(ops: seq<Option<Operation>>, settled: seq<Settlement>, o: Operation)
    requires SettledOnce(ops, settled) && o.state == Reserved
    ensures SettledOnce(ops + [Some(o)], settled)
  {
  }

  lemma SettleKeepsOnce(ops: seq<Option<Operation>>, settled: seq<Settlement>, op: nat, action: State)
    requires SettledOnce(ops, settled) && op < |ops| && ops[op].Some? && ops[op].value.state == Reserved && action != Reserved
    ensures SettledOnce(ops[op := Some(ops[op].value.(state := action))],
                        settled + [if action == Committed then Logged(op) else Refunded(op)])
  {
    var more := settled + [if action == Committed then Logged(op) else Refunded(op)];
    assert more[|settled|].op == op;
    forall i | 0 <= i < |ops| && HasSettlement(settled, i) ensures HasSettlement(more, i) {
      var a :| 0 <= a < |settled| && settled[a].op == i;
      assert more[a].op == i;
    }
  }

  lemma SettlementKept(l: Ledger, c: Call)
    requires c.user in l.gold && EndsProperly(c) && SettledOnce(l.ops, l.settled) && Apply(l, c).Ok?
    ensures SettledOnce(Apply(l, c).value.ops, Apply(l, c).value.settled)
  {
    match c {
      case ReserveGold(owner, gold, handle, source) =>
        ReserveKeepsOnce(l.ops, l.settled, Operation(owner, gold, handle, source, Reserved));
      case Finish(_, op, action) => if l.ops[op].value.state == Reserved { SettleKeepsOnce(l.ops, l.settled, op, action); }
      case _ =>
    }
  }

  lemma CallKeeps(l: Ledger, c: Call)
    requires Sound(l) && c.user in l.gold && SpendsProperly(c) && Apply(l, c).Ok?
    ensures Sound(Apply(l, c).value)
  {
    SettlementKept(l, c);
    assert !Misbooks(l, c);
    forall u ensures Balanced(Apply(l, c).value, u) {
      assert Balanced(l, u);
      KeepsIffBooked(l, c, u);
    }
  }

  // --- Transactions and runs ---

  /** A transaction over the accounts it locks: created if missing, then all calls or none. */
  datatype Transaction = Transaction(users: seq<string>, calls: seq<Call>, aborted: bool)

  function OpenAll(l: Ledger, users: seq<string>): Ledger {
    if users == [] then l else Opened(OpenAll(l, users[..|users| - 1]), users[|users| - 1])
  }

  function ApplyAll(l: Ledger, users: seq<string>, calls: seq<Call>): Result<Ledger, Error> {
    if calls == [] then Ok(l)
    else
      var before := ApplyAll(l, users, calls[..|calls| - 1]);
      var c := calls[|calls| - 1];
      if before.Err? then before
      else if c.user !in users || c.user !in before.value.gold then Err(AccountNotLocked)
      else Apply(before.value, c)
  }

  function Execute(l: Ledger, t: Transaction): Ledger {
    var start := OpenAll(l, t.users);
    var r := ApplyAll(start, t.users, t.calls);
    if t.aborted || r.Err? then start else r.value
  }

  /** Removing settled operations after their retention time. */
  function Purge(l: Ledger, expired: set<nat>): Ledger {
    l.(ops := seq(|l.ops|, i requires 0 <= i < |l.ops| =>
      if i in expired && l.ops[i].Some? && l.ops[i].value.state != Reserved then None else l.ops[i]))
  }

  /** Exactly the settled operations that have expired are removed, and nothing else. */
  lemma PurgedAre(l: Ledger, expired: set<nat>, op: nat)
    requires op < |l.ops|
    ensures var t := Purge(l, expired);
            && |t.ops| == |l.ops| && t.gold == l.gold && t.logs == l.logs && t.settled == l.settled
            && (t.ops[op] != l.ops[op] <==> op in expired && l.ops[op].Some? && l.ops[op].value.state in {Committed, Released})
            && (t.ops[op] != l.ops[op] ==> t.ops[op] == None)
  {
  }

  const EMPTY := Ledger(map[], [], [], [])

  datatype Event = Transact(t: Transaction) | Expire(ops: set<nat>)

  function Run(l: Ledger, events: seq<Event>): Ledger {
    if events == [] then l
    else
      var before := Run(l, events[..|events| - 1]);
      match events[|events| - 1]
      case Transact(t) => Execute(before, t)
      case Expire(ops) => Purge(before, ops)
  }

  /** Locking accounts creates those that are missing, with the initial gold, and changes nothing else. */
  lemma {:induction false} OpenedAre(l: Ledger, users: seq<string>, u: string)
    ensures var t := OpenAll(l, users);
            && (u in t.gold <==> u in l.gold || u in users) && Balance(t, u) == Balance(l, u)
            && t.logs == l.logs && t.ops == l.ops && t.settled == l.settled
  {
    if users != [] {
      OpenedAre(l, users[..|users| - 1], u);
      Lists.InitOrLast(users, u);
    }
  }

  /** The calls are made one after the other; the first refusal is the transaction's. */
  lemma CallsAreMadeInOrder(l: Ledger, users: seq<string>, calls: seq<Call>, c: Call)
    ensures ApplyAll(l, users, []) == Ok(l)
    ensures var before, all := ApplyAll(l, users, calls), ApplyAll(l, users, calls + [c]);
            if before.Err? then all == before
            else if c.user in users && c.user in before.value.gold then all == Apply(before.value, c)
            else all == Err(AccountNotLocked)
  {
    assert (calls + [c])[..|calls|] == calls;
  }

  /** A transaction does what its calls do, or nothing but create accounts. */
  lemma TransactionsAreWhole(l: Ledger, t: Transaction, u: string)
    ensures var r, done := ApplyAll(OpenAll(l, t.users), t.users, t.calls), Execute(l, t);
            if r.Ok? && !t.aborted then done == r.value
            else (u in done.gold <==> u in l.gold || u in t.users) && Balance(done, u) == Balance(l, u)
                 && done.logs == l.logs && done.ops == l.ops && done.settled == l.settled
  {
    OpenedAre(l, t.users, u);
  }

  lemma EventsAreOperations(l: Ledger, events: seq<Event>, e: Event)
    ensures Run(l, []) == l
    ensures Run(l, events + [e]) == if e.Transact? then Execute(Run(l, events), e.t) else Purge(Run(l, events), e.ops)
  {
    assert (events + [e])[..|events|] == events;
  }

  /** Whatever handles are used. */
  predicate Ends(events: seq<Event>) {
    forall i, j :: 0 <= i < |events| && events[i].Transact? && 0 <= j < |events[i].t.calls| ==> EndsProperly(events[i].t.calls[j])
  }

  predicate Proper(events: seq<Event>) {
    forall i, j :: 0 <= i < |events| && events[i].Transact? && 0 <= j < |events[i].t.calls| ==> SpendsProperly(events[i].t.calls[j])
  }

  lemma {:induction false} OpenAllKeeps(l: Ledger, users: seq<string>)
    requires Sound(l)
    ensures Sound(OpenAll(l, users))
  {
    if users != [] {
      var before := OpenAll(l, users[..|users| - 1]);
      OpenAllKeeps(l, users[..|users| - 1]);
      forall u ensures Balanced(OpenAll(l, users), u) { assert Balanced(before, u); }
    }
  }

  lemma {:induction false} ApplyAllKeeps(l: Ledger, users: seq<string>, calls: seq<Call>)
    requires Sound(l) && forall j :: 0 <= j < |calls| ==> SpendsProperly(calls[j])
    ensures ApplyAll(l, users, calls).Ok? ==> Sound(ApplyAll(l, users, calls).value)
  {
    if calls != [] {
      ApplyAllKeeps(l, users, calls[..|calls| - 1]);
      if ApplyAll(l, users, calls).Ok? {
        CallKeeps(ApplyAll(l, users, calls[..|calls| - 1]).value, calls[|calls| - 1]);
      }
    }
  }

  ghost predicate Bounded(l: Ledger) {
    InRange(l) && SettledOnce(l.ops, l.settled)
  }

  lemma CallKeepsBounds(l: Ledger, c: Call)
    requires Bounded(l) && c.user in l.gold && EndsProperly(c) && Apply(l, c).Ok?
    ensures Bounded(Apply(l, c).value)
  {
    SettlementKept(l, c);
  }

  lemma {:induction false} OpenAllKeepsBounds(l: Ledger, users: seq<string>)
    requires Bounded(l)
    ensures Bounded(OpenAll(l, users))
  {
    if users != [] { OpenAllKeepsBounds(l, users[..|users| - 1]); }
  }

  lemma {:induction false} ApplyAllKeepsBounds(l: Ledger, users: seq<string>, calls: seq<Call>)
    requires Bounded(l) && forall j :: 0 <= j < |calls| ==> EndsProperly(calls[j])
    ensures ApplyAll(l, users, calls).Ok? ==> Bounded(ApplyAll(l, users, calls).value)
  {
    if calls != [] {
      ApplyAllKeepsBounds(l, users, calls[..|calls| - 1]);
      if ApplyAll(l, users, calls).Ok? {
        CallKeepsBounds(ApplyAll(l, users, calls[..|calls| - 1]).value, calls[|calls| - 1]);
      }
    }
  }

  lemma PurgeKeepsBounds(l: Ledger, expired: set<nat>)
    requires Bounded(l)
    ensures Bounded(Purge(l, expired))
  {
    var after := Purge(l, expired);
    forall i | 0 <= i < |after.ops| && after.ops[i].Some? && after.ops[i].value.state != Reserved
      ensures HasSettlement(after.settled, i)
    {
      assert l.ops[i] == after.ops[i];
    }
  }

  /** In every run from an empty database, under whatever handles, every account stays in range and no
      reservation is settled twice. */
  lemma {:induction false} RunIsBounded(events: seq<Event>)
    requires Ends(events)
    ensures Bounded(Run(EMPTY, events))
  {
    if events != [] {
      var n := |events| - 1;
      RunIsBounded(events[..n]);
      var before := Run(EMPTY, events[..n]);
      match events[n]
      case Transact(t) =>
        OpenAllKeepsBounds(before, t.users);
        ApplyAllKeepsBounds(OpenAll(before, t.users), t.users, t.calls);
      case Expire(ops) => PurgeKeepsBounds(before, ops);
    }
  }

  lemma {:induction false} PurgedOpen(ops: seq<Option<Operation>>, more: seq<Option<Operation>>, user: string)
    requires |ops| == |more| && forall i :: 0 <= i < |ops| ==> Held(ops[i], user) == Held(more[i], user)
    ensures Open(ops, user) == Open(more, user)
  {
    if ops != [] { PurgedOpen(ops[..|ops| - 1], more[..|ops| - 1], user); }
  }

  /** In every run from an empty database, committed or aborted as it may be, with gold spent under
      handles for spending, every account is balanced as well. */
  lemma {:induction false} RunIsSound(events: seq<Event>)
    requires Proper(events)
    ensures Sound(Run(EMPTY, events))
  {
    if events != [] {
      var n := |events| - 1;
      RunIsSound(events[..n]);
      var before := Run(EMPTY, events[..n]);
      match events[n]
      case Transact(t) =>
        OpenAllKeeps(before, t.users);
        ApplyAllKeeps(OpenAll(before, t.users), t.users, t.calls);
      case Expire(ops) =>
        var after := Purge(before, ops);
        forall u ensures Balanced(after, u) {
          assert Balanced(before, u);
          PurgedOpen(before.ops, after.ops, u);
        }
        PurgeKeepsBounds(before, ops);
    }
  }

  // --- The rows as they are changed in place ---

  class Accounts {
    var gold: map<string, int>
    var logs: seq<Log>
    var ops: seq<Option<Operation>>
    ghost var settled: seq<Settlement>

    ghost function View(): Ledger
      reads this
    {
      Ledger(gold, logs, ops, settled)
    }

    constructor ()
      ensures View() == Ledger(map[], [], [], [])
    {
      gold, logs, ops, settled := map[], [], [], [];
    }

    /** Creating the account comes before the transaction and outlives its failure. */
    method OpenAccount(user: string)
      modifies this`gold
      ensures View() == Opened(old(View()), user)
    {
      if user !in gold { gold := gold[user := INITIAL_GOLD]; }
    }

    /** One call in its own transaction: carried out as specified, or refused as specified, or
        interrupted; in both latter cases only the account may have been created. */
    ghost predicate Transacted(before: Ledger, c: Call, r: Result<(), Error>)
      reads this
    {
      var start := Opened(before, c.user);
      match r
      case Ok(_) => Apply(start, c) == Ok(View())
      case Err(e) => View() == start && (e == Interrupted || Apply(start, c) == Err(e))
    }

    /** The account has this balance now, these log rows and operations were added, and nothing else. */
    ghost predicate Booked(before: Ledger, user: string, balance: int, rows: seq<Log>, more: seq<Option<Operation>>)
      reads this
    {
      gold == before.gold[user := balance] && logs == before.logs + rows && ops == before.ops + more && settled == before.settled
    }

    method Interrupt() returns (b: bool) {
      b := *;
    }

    method SetGold(user: string, amount: int) returns (r: Result<(), Error>)
      modifies this
      ensures Transacted(old(View()), Call.SetGold(user, amount), r)
      ensures !(0 <= amount <= MAX_GOLD) ==> r == Err(GoldOutOfRange)
      ensures 0 <= amount <= MAX_GOLD ==> r == Ok(()) || r == Err(Interrupted)
      ensures r.Err? ==> Booked(old(View()), user, Balance(old(View()), user), [], [])
      ensures r.Ok? ==>
        var was := Balance(old(View()), user);
        Booked(old(View()), user, amount,
               if amount > was then [Log(user, amount - was, GET, "superuser_set")]
               else if amount < was then [Log(user, was - amount, PLUGIN, "superuser_set")] else [], [])
    {
      OpenAccount(user);
      if !(0 <= amount <= MAX_GOLD) { return Err(GoldOutOfRange); }
      var gold0 := gold;
      var delta := amount - gold[user];
      gold := gold[user := amount];
      var fault := Interrupt();
      if fault { gold := gold0; return Err(Interrupted); }
      if delta != 0 {
        logs := logs + [Log(user, if delta > 0 then delta else -delta, if delta > 0 then GET else PLUGIN, "superuser_set")];
      }
      r := Ok(());
    }

    method AddGold(user: string, amount: int, source: string) returns (r: Result<(), Error>)
      modifies this
      ensures Transacted(old(View()), Call.AddGold(user, amount, source), r)
      ensures amount <= 0 ==> r == Err(AmountInvalid)
      ensures amount > 0 && Balance(old(View()), user) + amount > MAX_GOLD ==> r == Err(GoldOutOfRange)
      ensures amount > 0 && Balance(old(View()), user) + amount <= MAX_GOLD ==> r == Ok(()) || r == Err(Interrupted)
      ensures r.Err? ==> Booked(old(View()), user, Balance(old(View()), user), [], [])
      ensures r.Ok? ==> Booked(old(View()), user, Balance(old(View()), user) + amount, [Log(user, amount, GET, source)], [])
    {
      OpenAccount(user);
      if amount <= 0 { return Err(AmountInvalid); }
      if !(gold[user] <= MAX_GOLD - amount) { return Err(GoldOutOfRange); }
      var gold0 := gold;
      gold := gold[user := gold[user] + amount];
      var fault := Interrupt();
      if fault { gold := gold0; return Err(Interrupted); }
      logs := logs + [Log(user, amount, GET, source)];
      r := Ok(());
    }

    method ReduceGold(user: string, amount: int, handle: Handle, source: string) returns (r: Result<(), Error>)
      modifies this
      ensures Transacted(old(View()), Call.ReduceGold(user, amount, handle, source), r)
      ensures amount <= 0 ==> r == Err(AmountInvalid)
      ensures amount > 0 && Balance(old(View()), user) < amount ==> r == Err(InsufficientGold)
      ensures 0 < amount <= Balance(old(View()), user) ==> r == Ok(()) || r == Err(Interrupted)
      ensures r.Err? ==> Booked(old(View()), user, Balance(old(View()), user), [], [])
      ensures r.Ok? ==> Booked(old(View()), user, Balance(old(View()), user) - amount, [Log(user, amount, handle, source)], [])
    {
      OpenAccount(user);
      if amount <= 0 { return Err(AmountInvalid); }
      if gold[user] < amount { return Err(InsufficientGold); }
      var gold0 := gold;
      gold := gold[user := gold[user] - amount];
      var fault := Interrupt();
      if fault { gold := gold0; return Err(Interrupted); }
      logs := logs + [Log(user, amount, handle, source)];
      r := Ok(());
    }

    /** Reserving checks the amount before it opens the account. */
    method ReserveGold(user: string, amount: int, handle: Handle, source: string) returns (r: Result<nat, Error>)
      modifies this
      ensures amount <= 0 ==> r == Err(AmountInvalid) && View() == old(View())
      ensures amount > 0 ==>
        Transacted(old(View()), Call.ReserveGold(user, amount, handle, source), if r.Ok? then Ok(()) else Err(r.error))
      ensures amount > 0 && Balance(old(View()), user) < amount ==> r == Err(InsufficientGold)
      ensures 0 < amount <= Balance(old(View()), user) ==> r == Ok(|old(ops)|) || r == Err(Interrupted)
      ensures amount > 0 && r.Err? ==> Booked(old(View()), user, Balance(old(View()), user), [], [])
      ensures r.Ok? ==>
        Booked(old(View()), user, Balance(old(View()), user) - amount, [], [Some(Operation(user, amount, handle, source, Reserved))])
    {
      if amount <= 0 { return Err(AmountInvalid); }
      OpenAccount(user);
      if gold[user] < amount { return Err(InsufficientGold); }
      var gold0 := gold;
      gold := gold[user := gold[user] - amount];
      var fault := Interrupt();
      if fault { gold := gold0; return Err(Interrupted); }
      ops := ops + [Some(Operation(user, amount, handle, source, Reserved))];
      r := Ok(|ops| - 1);
    }
  }

  /** The caller's handle on a reservation. */
  class GoldReservation {
    const userId: string
    const operationId: nat
    var committed: bool
    var released: bool

    constructor (userId: string, operationId: nat)
      ensures this.userId == userId && this.operationId == operationId && !committed && !released
    {
      this.userId, this.operationId, committed, released := userId, operationId, false, false;
    }

    /** What settling the reservation makes of the rows: a log row, or a refund, and the new state. */
    ghost predicate Settles(accounts: Accounts, before: Ledger, action: State)
      reads accounts
      requires operationId < |before.ops| && before.ops[operationId].Some?
    {
      var o := before.ops[operationId].value;
      var balance := Balance(before, userId);
      && accounts.ops == before.ops[operationId := Some(o.(state := action))]
      && accounts.gold == before.gold[userId := if action == Committed then balance else balance + o.amount]
      && accounts.logs == if action == Committed then before.logs + [Log(userId, o.amount, o.handle, o.source)] else before.logs
    }

    /** The local flags are set only once the transaction is through, and then agree with the
        stored state, whoever settled the reservation. */
    method FinishAccount(accounts: Accounts, action: State) returns (r: Result<(), Error>)
      requires action != Reserved
      modifies this, accounts
      ensures accounts.Transacted(old(accounts.View()), Finish(userId, operationId, action), r)
      ensures var l := old(accounts.View());
              if operationId >= |l.ops| || l.ops[operationId].None? then r == Err(OperationMissing)
              else
                var o := l.ops[operationId].value;
                if o.user != userId then r == Err(ReceiptInvalid)
                else if o.state != Reserved then r == Ok(()) && accounts.View() == Opened(l, userId)
                else if o.amount == 0 then r == Err(AmountInvalid)
                else if action == Released && Balance(l, userId) + o.amount > MAX_GOLD then r == Err(RefundOutOfRange)
                else r == Err(Interrupted) || (r == Ok(()) && Settles(accounts, l, action))
      ensures r.Err? ==> accounts.Booked(old(accounts.View()), userId, Balance(old(accounts.View()), userId), [], [])
      ensures r.Err? ==> committed == old(committed) && released == old(released)
      ensures r.Ok? ==>
        && operationId < |accounts.ops| && accounts.ops[operationId].Some?
        && (committed <==> accounts.ops[operationId].value.state == Committed)
        && (released <==> accounts.ops[operationId].value.state == Released)
        && (committed <==> !released)
    {
      accounts.OpenAccount(userId);
      var gold0, logs0, ops0 := accounts.gold, accounts.logs, accounts.ops;
      if operationId >= |accounts.ops| || accounts.ops[operationId].None? { return Err(OperationMissing); }
      var record := accounts.ops[operationId].value;
      if record.user != userId { return Err(ReceiptInvalid); }
      if record.state == Reserved {
        if record.amount <= 0 { return Err(AmountInvalid); }
        if action == Committed {
          accounts.logs := accounts.logs + [Log(userId, record.amount, record.handle, record.source)];
        } else {
          if !(accounts.gold[userId] <= MAX_GOLD - record.amount) { return Err(RefundOutOfRange); }
          accounts.gold := accounts.gold[userId := accounts.gold[userId] + record.amount];
        }
        var fault := accounts.Interrupt();
        if fault {
          accounts.gold, accounts.logs, accounts.ops := gold0, logs0, ops0;
          return Err(Interrupted);
        }
        record := record.(state := action);
        accounts.ops := accounts.ops[operationId := Some(record)];
        accounts.settled := accounts.settled + [if action == Committed then Logged(operationId) else Refunded(operationId)];
      }
      committed := record.state == Committed;
      released := record.state == Released;
      r := Ok(());
    }
  }

  // --- A settled reservation is final ---

  ghost predicate IsSettled(l: Ledger, op: nat) {
    op < |l.ops| && l.ops[op].Some? && l.ops[op].value.state != Reserved
  }

  /** Settling it again changes nothing at all, whichever way is asked for. */
  lemma SettlingAgainChangesNothing(l: Ledger, c: Call)
    requires c.Finish? && c.user in l.gold && IsSettled(l, c.op)
    ensures Apply(l, c) == Ok(l) || Apply(l, c) == Err(ReceiptInvalid)
  {
  }

  /** A call leaves a settled operation and a purged one alone. */
  lemma CallKeepsOps(l: Ledger, c: Call, op: nat)
    requires c.user in l.gold && op < |l.ops| && Apply(l, c).Ok?
    ensures var t := Apply(l, c).value; op < |t.ops| && (l.ops[op].None? || IsSettled(l, op) ==> t.ops[op] == l.ops[op])
  {
  }

  lemma {:induction false} CallsKeepOps(l: Ledger, users: seq<string>, calls: seq<Call>, op: nat)
    requires op < |l.ops| && ApplyAll(l, users, calls).Ok?
    ensures var t := ApplyAll(l, users, calls).value; op < |t.ops| && (l.ops[op].None? || IsSettled(l, op) ==> t.ops[op] == l.ops[op])
  {
    if calls != [] {
      var init := calls[..|calls| - 1];
      CallsKeepOps(l, users, init, op);
      CallKeepsOps(ApplyAll(l, users, init).value, calls[|calls| - 1], op);
    }
  }

  lemma {:induction false} OpenAllKeepsOps(l: Ledger, users: seq<string>)
    ensures OpenAll(l, users).ops == l.ops
  {
    if users != [] { OpenAllKeepsOps(l, users[..|users| - 1]); }
  }

  /** Over any run it keeps its state until it is purged. */
  lemma {:induction false} SettledIsFinal(l: Ledger, events: seq<Event>, op: nat)
    requires IsSettled(l, op)
    ensures var t := Run(l, events); op < |t.ops| && (t.ops[op] == l.ops[op] || t.ops[op].None?)
  {
    if events != [] {
      var before := Run(l, events[..|events| - 1]);
      SettledIsFinal(l, events[..|events| - 1], op);
      match events[|events| - 1]
      case Transact(t) =>
        OpenAllKeepsOps(before, t.users);
        if ApplyAll(OpenAll(before, t.users), t.users, t.calls).Ok? { CallsKeepOps(OpenAll(before, t.users), t.users, t.calls, op); }
      case Expire(_) =>
    }
  }

  // --- Settling inside somebody else's transaction ---

  function StateOf(l: Ledger, op: nat): Option<State> {
    if op < |l.ops| && l.ops[op].Some? then Some(l.ops[op].value.state) else None
  }

  /** What the calls up to `n` settled stays settled by the later ones. */
  lemma {:induction false} LaterCallsKeepSettled(l: Ledger, users: seq<string>, calls: seq<Call>, n: nat, op: nat)
    requires n <= |calls| && ApplyAll(l, users, calls).Ok?
    ensures ApplyAll(l, users, calls[..n]).Ok?
    ensures var part, all := ApplyAll(l, users, calls[..n]).value, ApplyAll(l, users, calls).value;
            IsSettled(part, op) ==> StateOf(all, op) == StateOf(part, op)
  {
    if n == |calls| {
      assert calls[..n] == calls;
    } else {
      var init := calls[..|calls| - 1];
      LaterCallsKeepSettled(l, users, init, n, op);
      assert init[..n] == calls[..n];
      var before := ApplyAll(l, users, init).value;
      if op < |before.ops| { CallKeepsOps(before, calls[|calls| - 1], op); }
    }
  }

  /** `commit` or `release` called inside an outer transaction sets the flags before that transaction is
      through: they are what the `k`-th call leaves.  They agree with the rows in the end exactly when
      the outer transaction commits. */
  lemma FlagsAgreeIffOuterCommits(l: Ledger, t: Transaction, k: nat)
    requires k < |t.calls| && t.calls[k].Finish? && t.calls[k].action != Reserved
    requires ApplyAll(OpenAll(l, t.users), t.users, t.calls[..k + 1]).Ok?
    requires !IsSettled(l, t.calls[k].op)
    ensures var op := t.calls[k].op;
            var flags := StateOf(ApplyAll(OpenAll(l, t.users), t.users, t.calls[..k + 1]).value, op);
            && flags in {Some(Committed), Some(Released)}
            && (StateOf(Execute(l, t), op) == flags <==> !t.aborted && ApplyAll(OpenAll(l, t.users), t.users, t.calls).Ok?)
  {
    var start, op := OpenAll(l, t.users), t.calls[k].op;
    OpenAllKeepsOps(l, t.users);
    FinishSettles(start, t.users, t.calls[..k + 1]);
    if ApplyAll(start, t.users, t.calls).Ok? { LaterCallsKeepSettled(start, t.users, t.calls, k + 1, op); }
  }

  lemma FinishSettles(l: Ledger, users: seq<string>, calls: seq<Call>)
    requires calls != [] && calls[|calls| - 1].Finish? && calls[|calls| - 1].action != Reserved
    requires ApplyAll(l, users, calls).Ok?
    ensures IsSettled(ApplyAll(l, users, calls).value, calls[|calls| - 1].op)
  {
  }

  lemma OpenOne(l: Ledger, user: string)
    ensures OpenAll(l, [user]) == Opened(l, user)
  {
    assert [user][..0] == [];
  }

  function Reserving(user: string): Ledger {
    Ledger(map[user := INITIAL_GOLD - 5], [], [Some(Operation(user, 5, PLUGIN, "", Reserved))], [])
  }

  lemma ReservingIsReached(user: string)
    ensures Run(EMPTY, [Transact(Transaction([user], [ReserveGold(user, 5, PLUGIN, "")], false))]) == Reserving(user)
  {
    var t := Transaction([user], [ReserveGold(user, 5, PLUGIN, "")], false);
    OpenOne(EMPTY, user);
    CallsAreMadeInOrder(OpenAll(EMPTY, [user]), [user], [], t.calls[0]);
    assert [] + [t.calls[0]] == t.calls && [Transact(t)][..0] == [];
    assert Run(EMPTY, [Transact(t)]) == Execute(EMPTY, t);
  }

  /** A run in which the flags are wrong in the end: a reservation is committed inside a transaction whose
      next call is refused. */
  lemma FlagsCanBeWrong(user: string)
    ensures var l := Run(EMPTY, [Transact(Transaction([user], [ReserveGold(user, 5, PLUGIN, "")], false))]);
            var outer := Transaction([user], [Finish(user, 0, Committed), AddGold(user, 0, "")], false);
            var inner := ApplyAll(OpenAll(l, outer.users), outer.users, outer.calls[..1]);
            inner.Ok? && StateOf(inner.value, 0) == Some(Committed) && StateOf(Execute(l, outer), 0) == Some(Reserved)
  {
    ReservingIsReached(user);
    var l := Reserving(user);
    var outer := Transaction([user], [Finish(user, 0, Committed), AddGold(user, 0, "")], false);
    OpenOne(l, user);
    CallsAreMadeInOrder(l, [user], [], outer.calls[0]);
    CallsAreMadeInOrder(l, [user], [outer.calls[0]], outer.calls[1]);
    assert outer.calls[..1] == [] + [outer.calls[0]] && [outer.calls[0]] + [outer.calls[1]] == outer.calls;
  }
}
