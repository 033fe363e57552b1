/** The row locks of asset transactions: the identity row first, then account rows in sorted order,
    and none for a nested transaction. */
module AssetLocks {
  import opened Wrappers
  import Lists
  import Text

  type Task = nat

  datatype Row = Identity(key: string) | Account(key: string)

  /** A task's business identity and the account it is bound to. */
  datatype Business = Business(key: string, storageKey: string)

  /** What the context variable holds: who opened the transaction and which accounts it locked. */
  datatype Scope = Scope(owner: Task, users: set<string>)

  datatype Outcome = CrossTask | NotLocked | Nested | Unresolved | Mismatch | Started

  // --- The plan of one transaction ---

  function Accounts(keys: seq<string>): (r: seq<Row>)
    ensures |r| == |keys| && forall i :: 0 <= i < |r| ==> r[i] == Account(keys[i])
  {
    if keys == [] then [] else [Account(keys[0])] + Accounts(keys[1..])
  }

  function First(business: Option<Business>): seq<Row> {
    if business.Some? then [Identity(business.value.key)] else []
  }

  function Plan(users: seq<string>, business: Option<Business>): seq<Row> {
    First(business) + Accounts(Text.SortedSet(users))
  }

  /** The order all transactions lock in. */
  predicate Precedes(a: Row, b: Row) {
    match b
    case Identity(_) => false
    case Account(k) => a.Identity? || Text.Before(a.key, k)
  }

  ghost predicate Ordered(plan: seq<Row>) {
    forall i, j :: 0 <= i < j < |plan| ==> Precedes(plan[i], plan[j])
  }

  lemma PrecedesIsStrict(a: Row, b: Row, c: Row)
    ensures !Precedes(a, a)
    ensures Precedes(a, b) && Precedes(b, c) ==> Precedes(a, c)
  {
    Text.BeforeIsTotal(a.key, a.key);
    if Precedes(a, b) && Precedes(b, c) && a.Account? { Text.BeforeIsTransitive(a.key, b.key, c.key); }
  }

  /** Every plan is in that order. */
  lemma PlanIsOrdered(users: seq<string>, business: Option<Business>)
    ensures Ordered(Plan(users, business))
  {
  }

  /** A plan is the identity row, if there is an identity, and the account rows asked for, each once. */
  lemma PlanHolds(users: seq<string>, business: Option<Business>, r: Row)
    ensures r in Plan(users, business) <==>
              match r
              case Identity(key) => business.Some? && key == business.value.key
              case Account(key) => key in users
    ensures Lists.Distinct(Plan(users, business))
  {
    var sorted := Text.SortedSet(users);
    var rows := Accounts(sorted);
    assert forall k :: k in sorted <==> k in Lists.Elements(users);
    if r.Account? && r.key in users { var i :| 0 <= i < |sorted| && sorted[i] == r.key; assert rows[i] == r; }
    forall i, j | 0 <= i < j < |Plan(users, business)| ensures Plan(users, business)[i] != Plan(users, business)[j] {
      PlanIsOrdered(users, business);
      PrecedesIsStrict(Plan(users, business)[i], Plan(users, business)[j], Plan(users, business)[j]);
    }
  }

  // --- Entering ---

  function Entering(scopes: map<Task, Scope>, t: Task, users: seq<string>, business: Option<Business>, isolated: bool): Outcome {
    if t in scopes then
      if scopes[t].owner != t then CrossTask
      else if !(Lists.Elements(users) <= scopes[t].users) then NotLocked
      else Nested
    else if business.None? && isolated then Unresolved
    else if business.Some? && Lists.Elements(users) != {business.value.storageKey} then Mismatch
    else Started
  }

  /** The database's row locks and the tasks' context variables, seen from one transaction. */
  class AssetTransactions {
    var held: map<Row, Task>
    var scopes: map<Task, Scope>
    ghost var taken: seq<Row>

    constructor ()
      ensures held == map[] && scopes == map[] && taken == []
    {
      held, scopes, taken := map[], map[], [];
    }

    /** The rows of one task. */
    ghost function Mine(t: Task): set<Row>
      reads this
    {
      set r | r in held && held[r] == t
    }

    /** Waiting for a row and getting it; other transactions lock and release theirs meanwhile. */
    method LockRow(t: Task, r: Row)
      requires r !in Mine(t)
      modifies this`held, this`taken
      ensures Mine(t) == old(Mine(t)) + {r} && taken == old(taken) + [r]
    {
      OthersRun(t, r);
      ghost var before := Mine(t);
      held := held[r := t];
      taken := taken + [r];
      assert Mine(t) == before + {r};
    }

    /** Until nobody else has the row. */
    method OthersRun(t: Task, r: Row)
      requires r !in Mine(t)
      modifies this`held
      ensures Mine(t) == old(Mine(t)) && r !in held
    {
      var others: map<Row, Task> := *;
      ghost var before := Mine(t);
      held := map x | x in held && held[x] == t :: t;
      assert Mine(t) == before;
      held := held + map x | x in others && others[x] != t && x != r && x !in held :: others[x];
      assert Mine(t) == before;
    }

    /** Entering `asset_transactions`: a nested one or a refused one takes no lock; an outermost one
        holds exactly its plan, taken in order. The identity's revision or account may turn out to have
        `moved`, which rolls back. */
    method Enter(t: Task, users: seq<string>, business: Option<Business>, isolated: bool, moved: bool)
      returns (outcome: Outcome, stale: bool)
      requires t !in scopes ==> Mine(t) == {}
      modifies this
      ensures outcome == Entering(old(scopes), t, users, business, isolated)
      ensures t in old(scopes) ==>
        outcome == if old(scopes)[t].owner != t then CrossTask
                   else if forall u | u in users :: u in old(scopes)[t].users then Nested else NotLocked
      ensures t !in old(scopes) ==>
        outcome == if business.None? then (if isolated then Unresolved else Started)
                   else if Lists.Elements(users) == {business.value.storageKey} then Started else Mismatch
      ensures stale <==> outcome == Started && business.Some? && moved
      ensures outcome != Started ==> held == old(held) && scopes == old(scopes) && taken == old(taken)
      ensures outcome == Started && !stale ==>
                && Mine(t) == Lists.Elements(Plan(users, business)) && taken == old(taken) + Plan(users, business)
                && scopes == old(scopes)[t := Scope(t, Lists.Elements(users))]
      ensures outcome == Started && stale ==> business.Some? && Mine(t) == {} && scopes == old(scopes)
    {
      stale := false;
      outcome := Entering(scopes, t, users, business, isolated);
      if outcome != Started { return; }
      stale := LockAll(t, users, business, moved);
      if stale {
        Rollback(t);
      } else {
        scopes := scopes[t := Scope(t, Lists.Elements(users))];
      }
    }

    method LockAll(t: Task, users: seq<string>, business: Option<Business>, moved: bool) returns (stale: bool)
      requires Mine(t) == {}
      modifies this`held, this`taken
      ensures stale <==> business.Some? && moved
      ensures !stale ==> Mine(t) == Lists.Elements(Plan(users, business)) && taken == old(taken) + Plan(users, business)
    {
      stale := ValidateBusinessWrite(t, business, moved);
      if stale { return; }
      LockAccounts(t, Text.SortedSet(users));
      Lists.ElementsConcat(First(business), Accounts(Text.SortedSet(users)));
      Lists.ConcatIsAssociative(old(taken), First(business), Accounts(Text.SortedSet(users)));
    }

    /** The identity row is locked before any account row. */
    method ValidateBusinessWrite(t: Task, business: Option<Business>, moved: bool) returns (stale: bool)
      requires Mine(t) == {}
      modifies this`held, this`taken
      ensures Mine(t) == Lists.Elements(First(business)) && taken == old(taken) + First(business)
      ensures business.Some? ==> Identity(business.value.key) in Mine(t)
      ensures stale <==> business.Some? && moved
    {
      stale := false;
      if business.Some? {
        LockRow(t, Identity(business.value.key));
        stale := moved;
      }
    }

    method LockAccounts(t: Task, identities: seq<string>)
      requires Text.Ascending(identities) && forall k | k in identities :: Account(k) !in Mine(t)
      modifies this`held, this`taken
      ensures Mine(t) == old(Mine(t)) + Lists.Elements(Accounts(identities)) && taken == old(taken) + Accounts(identities)
    {
      ghost var mine, log := Mine(t), taken;
      var plan := Accounts(identities);
      for i := 0 to |identities|
        invariant HasLocked(t, plan, i, mine, log)
      {
        LockNext(t, identities, i, mine, log);
      }
      assert plan[..|identities|] == plan;
    }

    /** The first `i` rows of the plan have been locked, in order. */
    ghost predicate HasLocked(t: Task, plan: seq<Row>, i: nat, mine: set<Row>, log: seq<Row>)
      reads this
    {
      i <= |plan| && Mine(t) == mine + Lists.Elements(plan[..i]) && taken == log + plan[..i]
    }

    method LockNext(t: Task, identities: seq<string>, i: nat, ghost mine: set<Row>, ghost log: seq<Row>)
      requires Text.Ascending(identities) && i < |identities| && forall k | k in identities :: Account(k) !in mine
      requires HasLocked(t, Accounts(identities), i, mine, log)
      modifies this`held, this`taken
      ensures HasLocked(t, Accounts(identities), i + 1, mine, log)
    {
      ghost var plan := Accounts(identities);
      NextIsNew(identities, i);
      Lists.ElementsGrow(plan, i);
      Lists.ConcatIsAssociative(log, plan[..i], [plan[i]]);
      LockRow(t, Account(identities[i]));
    }

    static lemma NextIsNew(identities: seq<string>, i: nat)
      requires Text.Ascending(identities) && i < |identities|
      ensures Account(identities[i]) !in Lists.Elements(Accounts(identities)[..i])
    {
      forall j | 0 <= j < i ensures identities[j] != identities[i] { Text.BeforeIsTotal(identities[j], identities[i]); }
    }

    /** Commit and rollback both release the rows. */
    method Rollback(t: Task)
      modifies this`held
      ensures Mine(t) == {} && forall r :: r in held <==> r in old(held) && old(held)[r] != t
      ensures forall r | r in held :: held[r] == old(held)[r]
    {
      held := map r | r in held && held[r] != t :: held[r];
    }

    /** Leaving an outermost transaction. */
    method Leave(t: Task)
      modifies this`held, this`scopes
      ensures Mine(t) == {} && scopes == old(scopes) - {t}
    {
      scopes := scopes - {t};
      Rollback(t);
    }
  }

  // --- The whole system ---

  /** A transaction has `got` rows of its plan and waits for the next; `assets` tells an asset
      transaction from the resolution of an identity link. */
  datatype Tx = Tx(plan: seq<Row>, got: nat, assets: bool)

  /** Each task runs at most one outermost transaction, which holds its rows in the task's name. */
  datatype Sys = Sys(tasks: set<Task>, txs: map<Task, Tx>, held: map<Row, Task>, scopes: map<Task, Scope>)

  datatype Step =
    | Spawn(parent: Task, child: Task)
    | Enter(t: Task, users: seq<string>, business: Option<Business>, isolated: bool)
    | Resolve(t: Task, identity: string, account: string)
    | Lock(t: Task)
    | Leave(t: Task)                                  // commit, or rollback at any moment

  /** The transaction's body runs: it has all its rows. */
  predicate Inside(s: Sys, t: Task) {
    t in s.txs && s.txs[t].got == |s.txs[t].plan|
  }

  predicate Waiting(s: Sys, t: Task) {
    t in s.txs && s.txs[t].got < |s.txs[t].plan|
  }

  function Next(s: Sys, t: Task): Row
    requires Waiting(s, t)
  {
    s.txs[t].plan[s.txs[t].got]
  }

  predicate Enabled(s: Sys, step: Step) {
    match step
    case Spawn(parent, child) => parent in s.tasks && child !in s.tasks
    case Enter(t, _, _, _) => t in s.tasks && (t !in s.txs || (Inside(s, t) && s.txs[t].assets))
    case Resolve(t, _, _) => t in s.tasks && t !in s.txs && t !in s.scopes
    case Lock(t) => Waiting(s, t) && Next(s, t) !in s.held
    case Leave(t) => t in s.txs
  }

  function Freed(held: map<Row, Task>, t: Task): map<Row, Task> {
    map r | r in held && held[r] != t :: held[r]
  }

  /** The context variable is set when an asset transaction has all its rows. */
  function Scoped(s: Sys, t: Task): Sys {
    if Inside(s, t) && s.txs[t].assets then s.(scopes := s.scopes[t := Scope(t, Users(s.txs[t].plan))]) else s
  }

  function Users(plan: seq<Row>): set<string> {
    set r | r in plan && r.Account? :: r.key
  }

  function Do(s: Sys, step: Step): Sys {
    if !Enabled(s, step) then s else
      match step
      case Spawn(parent, child) =>
        s.(tasks := s.tasks + {child}, scopes := if parent in s.scopes then s.scopes[child := s.scopes[parent]] else s.scopes)
      case Enter(t, users, business, isolated) =>
        if Entering(s.scopes, t, users, business, isolated) != Started then s
        else Scoped(s.(txs := s.txs[t := Tx(Plan(users, business), 0, true)]), t)
      case Resolve(t, identity, account) => s.(txs := s.txs[t := Tx([Identity(identity), Account(account)], 0, false)])
      case Lock(t) =>
        Scoped(s.(held := s.held[Next(s, t) := t], txs := s.txs[t := s.txs[t].(got := s.txs[t].got + 1)]), t)
      case Leave(t) =>
        s.(txs := s.txs - {t}, held := Freed(s.held, t),
           scopes := if t in s.scopes && s.scopes[t].owner == t then s.scopes - {t} else s.scopes)
  }

  function Run(s: Sys, steps: seq<Step>): Sys
    decreases |steps|
  {
    if steps == [] then s else Run(Do(s, steps[0]), steps[1..])
  }

  lemma {:induction false} RunGoesOn(s: Sys, steps: seq<Step>, step: Step)
    ensures Run(s, []) == s && Run(s, steps + [step]) == Do(Run(s, steps), step)
    decreases |steps|
  {
    if steps == [] {
      assert [] + [step] == [step] && [step][1..] == [];
    } else {
      RunGoesOn(Do(s, steps[0]), steps[1..], step);
      assert (steps + [step])[1..] == steps[1..] + [step];
    }
  }

  // --- The steps are the operations ---

  /** A spawned task inherits the scope. */
  lemma SpawnIsOperation(s: Sys, parent: Task, child: Task)
    requires parent in s.tasks && child !in s.tasks
    ensures var t := Do(s, Spawn(parent, child));
            && t.tasks == s.tasks + {child} && t.held == s.held && t.txs == s.txs
            && t.scopes == if parent in s.scopes then s.scopes[child := s.scopes[parent]] else s.scopes
  {
  }

  /** An accepted entry waits for its whole plan, with no row yet; a plan without rows opens its scope at once. */
  lemma EnterIsOperation(s: Sys, t: Task, users: seq<string>, business: Option<Business>, isolated: bool)
    requires t in s.tasks && t !in s.txs
    ensures var u := Do(s, Enter(t, users, business, isolated));
            if Entering(s.scopes, t, users, business, isolated) == Started
            then && u.tasks == s.tasks && u.held == s.held && u.txs == s.txs[t := Tx(Plan(users, business), 0, true)]
                 && u.scopes == if Plan(users, business) == [] then s.scopes[t := Scope(t, {})] else s.scopes
            else u == s
  {
    var tx := Tx(Plan(users, business), 0, true);
    if Entering(s.scopes, t, users, business, isolated) == Started {
      assert Do(s, Enter(t, users, business, isolated)) == Scoped(s.(txs := s.txs[t := tx]), t);
      assert Inside(s.(txs := s.txs[t := tx]), t) <==> tx.plan == [];
      assert Users([]) == {};
    }
  }

  /** Resolving an identity link locks the identity row, then the account row. */
  lemma ResolveIsOperation(s: Sys, t: Task, identity: string, account: string)
    requires t in s.tasks && t !in s.txs && t !in s.scopes
    ensures Do(s, Resolve(t, identity, account)) == s.(txs := s.txs[t := Tx([Identity(identity), Account(account)], 0, false)])
  {
  }

  /** The next row of the plan, once it is free; with the last one an asset transaction opens its scope, which
      names exactly the accounts of the plan. */
  lemma LockIsOperation(s: Sys, t: Task)
    requires Waiting(s, t) && Next(s, t) !in s.held
    ensures var u, tx := Do(s, Lock(t)), s.txs[t];
            && u.tasks == s.tasks && u.held == s.held[Next(s, t) := t] && u.txs == s.txs[t := tx.(got := tx.got + 1)]
            && (if tx.assets && tx.got + 1 == |tx.plan|
                then t in u.scopes && u.scopes == s.scopes[t := u.scopes[t]] && u.scopes[t].owner == t
                     && forall k :: k in u.scopes[t].users <==> Account(k) in tx.plan
                else u.scopes == s.scopes)
  {
    forall k ensures k in Users(s.txs[t].plan) <==> Account(k) in s.txs[t].plan {}
  }

  /** The accounts of a plan are those asked for, as the scope of an entered transaction has them. */
  lemma PlanUsers(users: seq<string>, business: Option<Business>)
    ensures Users(Plan(users, business)) == Lists.Elements(users)
  {
    forall k ensures k in Users(Plan(users, business)) <==> k in Lists.Elements(users) {
      PlanHolds(users, business, Account(k));
    }
  }

  lemma LeaveIsOperation(s: Sys, t: Task)
    requires t in s.txs
    ensures var u := Do(s, Leave(t));
            && u.tasks == s.tasks && u.txs == s.txs - {t}
            && u.scopes == (if t in s.scopes && s.scopes[t].owner == t then s.scopes - {t} else s.scopes)
            && forall r :: Get(u.held, r) == if Get(s.held, r) == Some(t) then None else Get(s.held, r)
  {
  }

  // --- The invariant ---

  ghost predicate IsOrdered(tx: Tx) {
    tx.got <= |tx.plan| && Ordered(tx.plan)
  }

  ghost predicate PlansAreOrdered(txs: map<Task, Tx>) {
    forall t | t in txs :: IsOrdered(txs[t])
  }

  function Got(tx: Tx): seq<Row> {
    if tx.got <= |tx.plan| then tx.plan[..tx.got] else tx.plan
  }

  /** A task holds exactly the rows its transaction has got so far. */
  ghost predicate HoldsPrefix(held: map<Row, Task>, txs: map<Task, Tx>) {
    && (forall r | r in held :: held[r] in txs && r in Got(txs[held[r]]))
    && (forall t, r | t in txs && r in Got(txs[t]) :: Get(held, r) == Some(t))
  }

  /** A task's own scope is that of its running asset transaction; an inherited one has another owner,
      and keeps the task from starting a transaction. */
  ghost predicate ScopeFits(s: Sys, t: Task) {
    && (t in s.scopes ==> t in s.tasks && s.scopes[t].owner in s.tasks)
    && (t in s.txs ==> t in s.tasks)
    && (t in s.scopes && s.scopes[t].owner == t <==> Inside(s, t) && s.txs[t].assets)
    && (t in s.scopes && s.scopes[t].owner == t ==> s.scopes[t].users == Users(s.txs[t].plan))
    && (t in s.txs && t in s.scopes ==> s.scopes[t].owner == t)
  }

  ghost predicate ScopesAreOwned(s: Sys) {
    forall t :: ScopeFits(s, t)
  }

  ghost predicate Inv(s: Sys) {
    PlansAreOrdered(s.txs) && HoldsPrefix(s.held, s.txs) && ScopesAreOwned(s)
  }

  lemma PlansStay(txs: map<Task, Tx>, t: Task, tx: Tx)
    requires PlansAreOrdered(txs) && IsOrdered(tx)
    ensures PlansAreOrdered(txs[t := tx])
  {
  }

  lemma KeepsPlans(s: Sys, step: Step)
    requires PlansAreOrdered(s.txs)
    ensures PlansAreOrdered(Do(s, step).txs)
  {
    if Enabled(s, step) {
      match step {
        case Enter(t, users, business, _) =>
          PlanIsOrdered(users, business);
          PlansStay(s.txs, t, Tx(Plan(users, business), 0, true));
        case Resolve(t, identity, account) => PlansStay(s.txs, t, Tx([Identity(identity), Account(account)], 0, false));
        case Lock(t) => assert IsOrdered(s.txs[t]); PlansStay(s.txs, t, s.txs[t].(got := s.txs[t].got + 1));
        case _ =>
      }
    }
  }

  lemma StartKeepsPrefix(held: map<Row, Task>, txs: map<Task, Tx>, t: Task, tx: Tx)
    requires HoldsPrefix(held, txs) && t !in txs && tx.got == 0
    ensures HoldsPrefix(held, txs[t := tx])
  {
    assert Got(tx) == [];
  }

  lemma LockKeepsPrefix(held: map<Row, Task>, txs: map<Task, Tx>, t: Task)
    requires HoldsPrefix(held, txs) && t in txs && txs[t].got < |txs[t].plan| && txs[t].plan[txs[t].got] !in held
    ensures HoldsPrefix(held[txs[t].plan[txs[t].got] := t], txs[t := txs[t].(got := txs[t].got + 1)])
  {
    var tx := txs[t];
    Lists.ElementsGrow(tx.plan, tx.got);
    var more := tx.(got := tx.got + 1);
    assert Got(more) == Got(tx) + [tx.plan[tx.got]];
    forall r ensures r in Got(more) <==> r in Got(tx) || r == tx.plan[tx.got] {}
    var held', txs' := held[tx.plan[tx.got] := t], txs[t := more];
    forall r | r in held' ensures held'[r] in txs' && r in Got(txs'[held'[r]]) {
      if r != tx.plan[tx.got] { assert r in held && r in Got(txs[held[r]]); }
    }
    forall u, r | u in txs' && r in Got(txs'[u]) ensures Get(held', r) == Some(u) {
      if u != t || r in Got(tx) { assert r in Got(txs[u]) && Get(held, r) == Some(u); }
    }
  }

  lemma LeaveKeepsPrefix(held: map<Row, Task>, txs: map<Task, Tx>, t: Task)
    requires HoldsPrefix(held, txs)
    ensures HoldsPrefix(Freed(held, t), txs - {t})
  {
    var left, others := Freed(held, t), txs - {t};
    forall r | r in left ensures left[r] in others && r in Got(others[left[r]]) { assert r in Got(txs[held[r]]); }
    forall u, r | u in others && r in Got(others[u]) ensures Get(left, r) == Some(u) {
      assert r in Got(txs[u]) && Get(held, r) == Some(u);
    }
  }

  lemma EnterKeepsPrefix(s: Sys, t: Task, users: seq<string>, business: Option<Business>, isolated: bool)
    requires HoldsPrefix(s.held, s.txs) && ScopeFits(s, t)
    ensures var after := Do(s, Enter(t, users, business, isolated)); HoldsPrefix(after.held, after.txs)
  {
    if t in s.txs {
      assert Inside(s, t) && s.txs[t].assets ==> t in s.scopes;
      assert Do(s, Enter(t, users, business, isolated)) == s;
    } else {
      StartKeepsPrefix(s.held, s.txs, t, Tx(Plan(users, business), 0, true));
    }
  }

  lemma KeepsPrefix(s: Sys, step: Step)
    requires HoldsPrefix(s.held, s.txs) && (step.Enter? ==> ScopeFits(s, step.t))
    ensures HoldsPrefix(Do(s, step).held, Do(s, step).txs)
  {
    match step {
      case Enter(t, users, business, isolated) => EnterKeepsPrefix(s, t, users, business, isolated);
      case Resolve(t, identity, account) =>
        if t !in s.txs { StartKeepsPrefix(s.held, s.txs, t, Tx([Identity(identity), Account(account)], 0, false)); }
      case Lock(t) => if Enabled(s, step) { LockKeepsPrefix(s.held, s.txs, t); }
      case Leave(t) => LeaveKeepsPrefix(s.held, s.txs, t);
      case _ =>
    }
  }

  /** What concerns one task depends on its own entries only. */
  lemma SameEntriesFit(s: Sys, after: Sys, t: Task)
    requires ScopeFits(s, t) && s.tasks <= after.tasks
    requires Get(after.txs, t) == Get(s.txs, t) && Get(after.scopes, t) == Get(s.scopes, t)
    ensures ScopeFits(after, t)
  {
  }

  lemma ScopedFits(s: Sys, t: Task)
    requires t in s.tasks && t in s.txs && t !in s.scopes
    ensures ScopeFits(Scoped(s, t), t)
  {
  }

  lemma SpawnKeepsScope(s: Sys, parent: Task, child: Task, t: Task)
    requires ScopeFits(s, t) && ScopeFits(s, parent)
    ensures ScopeFits(Do(s, Spawn(parent, child)), t)
  {
    if t != child || !Enabled(s, Spawn(parent, child)) { SameEntriesFit(s, Do(s, Spawn(parent, child)), t); }
  }

  lemma EnterKeepsScope(s: Sys, u: Task, users: seq<string>, business: Option<Business>, isolated: bool, t: Task)
    requires ScopeFits(s, t)
    ensures ScopeFits(Do(s, Enter(u, users, business, isolated)), t)
  {
    var step := Enter(u, users, business, isolated);
    if Enabled(s, step) && Entering(s.scopes, u, users, business, isolated) == Started {
      var begun := s.(txs := s.txs[u := Tx(Plan(users, business), 0, true)]);
      assert Do(s, step) == Scoped(begun, u);
      if t == u { ScopedFits(begun, t); } else { SameEntriesFit(s, Scoped(begun, u), t); }
    }
  }

  lemma LockKeepsScope(s: Sys, u: Task, t: Task)
    requires ScopeFits(s, t)
    ensures ScopeFits(Do(s, Lock(u)), t)
  {
    if Enabled(s, Lock(u)) {
      var got := s.(held := s.held[Next(s, u) := u], txs := s.txs[u := s.txs[u].(got := s.txs[u].got + 1)]);
      assert Do(s, Lock(u)) == Scoped(got, u);
      if t == u { ScopedFits(got, t); } else { SameEntriesFit(s, Scoped(got, u), t); }
    }
  }

  lemma KeepsScope(s: Sys, step: Step, t: Task)
    requires ScopesAreOwned(s)
    ensures ScopeFits(Do(s, step), t)
  {
    assert ScopeFits(s, t);
    match step {
      case Spawn(parent, child) => assert ScopeFits(s, parent); SpawnKeepsScope(s, parent, child, t);
      case Enter(u, users, business, isolated) => EnterKeepsScope(s, u, users, business, isolated, t);
      case Lock(u) => LockKeepsScope(s, u, t);
      case Resolve(u, _, _) => if t != u { SameEntriesFit(s, Do(s, step), t); }
      case Leave(u) => if t != u { SameEntriesFit(s, Do(s, step), t); }
    }
  }

  lemma StepKeeps(s: Sys, step: Step)
    requires Inv(s)
    ensures Inv(Do(s, step))
  {
    KeepsPlans(s, step);
    KeepsPrefix(s, step);
    forall t ensures ScopeFits(Do(s, step), t) { KeepsScope(s, step, t); }
  }

  // --- Over every run ---

  const START := Sys({0}, map[], map[], map[])

  lemma {:induction false} RunKeeps(s: Sys, steps: seq<Step>)
    requires Inv(s)
    ensures Inv(Run(s, steps))
    decreases |steps|
  {
    if steps != [] {
      StepKeeps(s, steps[0]);
      RunKeeps(Do(s, steps[0]), steps[1..]);
    }
  }

  // --- No deadlock ---

  ghost predicate WaitsFor(s: Sys, a: Task, b: Task) {
    Waiting(s, a) && Get(s.held, Next(s, a)) == Some(b)
  }

  ghost predicate Chain(s: Sys, path: seq<Task>) {
    path != [] && forall i | 0 <= i < |path| - 1 :: WaitsFor(s, path[i], path[i + 1])
  }

  /** Whoever is waited for is waiting for a later row itself. */
  lemma WaitingClimbs(s: Sys, a: Task, b: Task)
    requires Inv(s) && WaitsFor(s, a, b) && Waiting(s, b)
    ensures Precedes(Next(s, a), Next(s, b))
  {
    var tx := s.txs[b];
    assert IsOrdered(tx);
    assert Next(s, a) in Got(tx);
    var i :| 0 <= i < tx.got && tx.plan[i] == Next(s, a);
    assert Precedes(tx.plan[i], tx.plan[tx.got]);
  }

  lemma {:induction false} ChainClimbs(s: Sys, path: seq<Task>)
    requires Inv(s) && Chain(s, path) && |path| > 1 && Waiting(s, path[|path| - 1])
    ensures Waiting(s, path[0]) && Precedes(Next(s, path[0]), Next(s, path[|path| - 1]))
  {
    assert WaitsFor(s, path[0], path[1]);
    if |path| == 2 {
      WaitingClimbs(s, path[0], path[1]);
    } else {
      var rest := path[1..];
      assert forall i | 0 <= i < |rest| - 1 :: WaitsFor(s, rest[i], rest[i + 1]) by {
        forall i | 0 <= i < |rest| - 1 ensures WaitsFor(s, rest[i], rest[i + 1]) { assert WaitsFor(s, path[i + 1], path[i + 2]); }
      }
      ChainClimbs(s, rest);
      WaitingClimbs(s, path[0], path[1]);
      PrecedesIsStrict(Next(s, path[0]), Next(s, path[1]), Next(s, path[|path| - 1]));
    }
  }

  lemma ChainDoesNotClose(s: Sys, path: seq<Task>)
    requires Inv(s) && Chain(s, path) && |path| > 1
    ensures path[0] != path[|path| - 1]
  {
    assert WaitsFor(s, path[0], path[1]);
    if path[0] == path[|path| - 1] {
      ChainClimbs(s, path);
      PrecedesIsStrict(Next(s, path[0]), Next(s, path[0]), Next(s, path[0]));
    }
  }

  /** In no reachable state do transactions wait for each other in a circle. */
  lemma NoCycle(steps: seq<Step>, path: seq<Task>)
    requires Chain(Run(START, steps), path) && |path| > 1
    ensures path[0] != path[|path| - 1]
  {
    RunKeeps(START, steps);
    ChainDoesNotClose(Run(START, steps), path);
  }

  predicate Blocked(s: Sys, t: Task) {
    Waiting(s, t) && Next(s, t) in s.held
  }

  lemma ChainExtends(s: Sys, path: seq<Task>, b: Task)
    requires Inv(s) && Chain(s, path) && WaitsFor(s, path[|path| - 1], b)
    ensures Chain(s, path + [b]) && b !in path
  {
    var more := path + [b];
    forall i | 0 <= i < |more| - 1 ensures WaitsFor(s, more[i], more[i + 1]) {
      if i < |path| - 1 { assert WaitsFor(s, path[i], path[i + 1]); }
    }
    forall k | 0 <= k < |path| ensures path[k] != b {
      ChainTail(s, more, k);
      ChainDoesNotClose(s, more[k..]);
    }
  }

  lemma ChainTail(s: Sys, path: seq<Task>, k: nat)
    requires Chain(s, path) && k < |path|
    ensures Chain(s, path[k..])
  {
    var tail := path[k..];
    forall i | 0 <= i < |tail| - 1 ensures WaitsFor(s, tail[i], tail[i + 1]) { assert WaitsFor(s, path[k + i], path[k + i + 1]); }
  }

  /** Following who waits for whom ends at a transaction that can go on. */
  lemma {:induction false} FollowChain(s: Sys, path: seq<Task>) returns (end: seq<Task>)
    requires Inv(s) && Chain(s, path) && Lists.Elements(path) <= s.txs.Keys
    ensures Chain(s, end) && end[0] == path[0] && end[|end| - 1] in s.txs && !Blocked(s, end[|end| - 1])
    decreases |s.txs.Keys - Lists.Elements(path)|
  {
    var t := path[|path| - 1];
    if !Blocked(s, t) { return path; }
    var b := s.held[Next(s, t)];
    assert WaitsFor(s, t, b);
    ChainExtends(s, path, b);
    Lists.ElementsConcat(path, [b]);
    assert Lists.Elements([b]) == {b};
    assert s.txs.Keys - Lists.Elements(path + [b]) == s.txs.Keys - Lists.Elements(path) - {b};
    end := FollowChain(s, path + [b]);
  }

  /** Every transaction runs its body, can take its next row, or waits, through others, for one that can. */
  lemma SomebodyCanGoOn(steps: seq<Step>, t: Task) returns (path: seq<Task>)
    requires t in Run(START, steps).txs
    ensures var s := Run(START, steps);
            && Chain(s, path) && path[0] == t
            && var u := path[|path| - 1]; Inside(s, u) || Enabled(s, Lock(u))
  {
    RunKeeps(START, steps);
    var s := Run(START, steps);
    path := FollowChain(s, [t]);
    assert IsOrdered(s.txs[path[|path| - 1]]);
  }

  // --- Serialisation ---

  /** Two asset bodies never run on a common account. */
  lemma BodiesAreApart(steps: seq<Step>, a: Task, b: Task, account: string)
    requires var s := Run(START, steps);
             && Inside(s, a) && Inside(s, b)
             && Account(account) in s.txs[a].plan && Account(account) in s.txs[b].plan
    ensures a == b
  {
    RunKeeps(START, steps);
    var s := Run(START, steps);
    assert Got(s.txs[a]) == s.txs[a].plan && Got(s.txs[b]) == s.txs[b].plan;
    assert Get(s.held, Account(account)) == Some(a);
    assert Get(s.held, Account(account)) == Some(b);
  }

  /** Inside a transaction, entering again changes nothing: it is refused, or every account it names is
      already locked by this task. */
  lemma NestedTakesNoLock(steps: seq<Step>, t: Task, users: seq<string>, business: Option<Business>, isolated: bool)
    requires t in Run(START, steps).scopes
    ensures var s := Run(START, steps);
            && Do(s, Enter(t, users, business, isolated)) == s
            && (Entering(s.scopes, t, users, business, isolated) == Nested ==>
                  forall u | u in users :: Get(s.held, Account(u)) == Some(t))
  {
    RunKeeps(START, steps);
    var s := Run(START, steps);
    assert ScopeFits(s, t);
    if Entering(s.scopes, t, users, business, isolated) == Nested {
      forall u | u in users ensures Get(s.held, Account(u)) == Some(t) {
        assert u in Lists.Elements(users);
        assert Account(u) in Got(s.txs[t]);
      }
    }
  }

  /** A task spawned inside somebody else's transaction holds no row and can start no transaction. */
  lemma InheritedScopeTakesNoLock(steps: seq<Step>, t: Task, users: seq<string>, business: Option<Business>, isolated: bool)
    requires t in Run(START, steps).scopes && Run(START, steps).scopes[t].owner != t
    ensures var s := Run(START, steps);
            && Entering(s.scopes, t, users, business, isolated) == CrossTask
            && t !in s.txs && forall r | r in s.held :: s.held[r] != t
  {
    RunKeeps(START, steps);
    assert ScopeFits(Run(START, steps), t);
  }

  /** Whoever holds an account row and needs an identity row already has the identity row. */
  lemma IdentityComesFirst(steps: seq<Step>, t: Task, account: string, identity: string)
    requires t in Run(START, steps).txs && Identity(identity) in Run(START, steps).txs[t].plan
    requires Get(Run(START, steps).held, Account(account)) == Some(t)
    ensures Get(Run(START, steps).held, Identity(identity)) == Some(t)
  {
    RunKeeps(START, steps);
    var s := Run(START, steps);
    var tx := s.txs[t];
    assert IsOrdered(tx);
    assert Account(account) in Got(tx);
    var i :| 0 <= i < |tx.plan| && tx.plan[i] == Identity(identity);
    assert i > 0 ==> Precedes(tx.plan[0], tx.plan[i]);
    assert Got(tx)[0] == Identity(identity);
  }
}
