/** Shared plugin policies and the copy of them each bound account carries. */
module PolicyStore {
  import opened Wrappers
  import opened ModuleCodec
  import Lists
  import Text

  datatype Policy = Policy(name: string, plugins: seq<string>, tasks: seq<string>, revision: nat)

  datatype BotRow = BotRow(plugins: string, tasks: string, revision: nat)

  datatype Store = Store(policies: map<nat, Policy>, nextId: nat, bindings: map<string, nat>, bots: map<string, BotRow>)

  /** What an account shows; its revision token stands for all of it. */
  datatype Account = Account(bot: string, revision: nat, policy: Option<(nat, nat)>, plugins: seq<string>, tasks: seq<string>)

  datatype Catalog = Catalog(plugins: seq<string>, tasks: seq<string>)

  datatype Kind = Plugins | Tasks

  datatype Error = NameEmpty | NameTaken | UnknownModules | Conflict | NotFound | InUse | Interrupted

  // --- Reading ---

  function AccountOf(s: Store, bot: string): Account {
    var id := Get(s.bindings, bot);
    var linked := id.Some? && id.value in s.policies;
    Account(bot,
            if bot in s.bots then s.bots[bot].revision else 0,
            if linked then Some((id.value, s.policies[id.value].revision)) else None,
            Decode(if bot in s.bots then s.bots[bot].plugins else ""),
            Decode(if bot in s.bots then s.bots[bot].tasks else ""))
  }

  /** Modules outside the catalog are accepted only if they were there before. */
  function Validated(c: Catalog, plugins: seq<string>, tasks: seq<string>, keepPlugins: seq<string>, keepTasks: seq<string>)
    : Result<(seq<string>, seq<string>), Error>
  {
    var p, t := Normalize(plugins), Normalize(tasks);
    if (exists m | m in p :: m !in c.plugins && m !in keepPlugins) || (exists m | m in t :: m !in c.tasks && m !in keepTasks)
    then Err(UnknownModules) else Ok((p, t))
  }

  /** Every account the tables mention. */
  function Accounts(s: Store): set<string> {
    s.bots.Keys + s.bindings.Keys
  }

  // --- Writing ---

  /** The row that materialises these lists, given the row there was. */
  function Row(was: Option<BotRow>, plugins: seq<string>, tasks: seq<string>): BotRow {
    BotRow(Encode(plugins), Encode(tasks), if was.Some? then was.value.revision + 1 else 1)
  }

  function Rows(was: map<string, BotRow>, bots: set<string>, plugins: seq<string>, tasks: seq<string>): map<string, BotRow> {
    map b | b in bots :: Row(Get(was, b), plugins, tasks)
  }

  /** The bots become independent with these lists. */
  function Detached(s: Store, bots: set<string>, plugins: seq<string>, tasks: seq<string>): Store {
    s.(bindings := s.bindings - bots, bots := s.bots + Rows(s.bots, bots, plugins, tasks))
  }

  function Links(bots: set<string>, id: nat): map<string, nat> {
    map b | b in bots :: id
  }

  /** The bots are bound to the policy and carry its lists. */
  function Bound(s: Store, bots: set<string>, id: nat): Store
    requires id in s.policies
  {
    s.(bindings := s.bindings + Links(bots, id),
       bots := s.bots + Rows(s.bots, bots, s.policies[id].plugins, s.policies[id].tasks))
  }

  function Created(s: Store, p: Policy): Store {
    s.(policies := s.policies[s.nextId := p], nextId := s.nextId + 1)
  }

  function BotsOf(s: Store, id: nat): set<string> {
    set b | b in s.bindings && s.bindings[b] == id
  }

  function Replaced(s: Store, id: nat, p: Policy): Store {
    s.(policies := s.policies[id := p], bots := s.bots + Rows(s.bots, BotsOf(s, id), p.plugins, p.tasks))
  }

  function Deleted(s: Store, id: nat): Store {
    s.(policies := s.policies - {id})
  }

  lemma RowsOneMore(was: map<string, BotRow>, bots: set<string>, bot: string, plugins: seq<string>, tasks: seq<string>)
    ensures was + Rows(was, bots + {bot}, plugins, tasks)
            == (was + Rows(was, bots, plugins, tasks))[bot := Row(Get(was, bot), plugins, tasks)]
  {
    var row := Row(Get(was, bot), plugins, tasks);
    assert Rows(was, bots + {bot}, plugins, tasks) == Rows(was, bots, plugins, tasks)[bot := row];
  }

  lemma LinksOneMore(was: map<string, nat>, bots: set<string>, bot: string, id: nat)
    ensures was + Links(bots + {bot}, id) == (was + Links(bots, id))[bot := id]
  {
    assert Links(bots + {bot}, id) == Links(bots, id)[bot := id];
  }

  function Without(values: seq<string>, drop: seq<string>): seq<string> {
    if values == [] then []
    else (if values[0] in drop then [] else [values[0]]) + Without(values[1..], drop)
  }

  lemma {:induction false} WithoutFacts(values: seq<string>, drop: seq<string>)
    requires Text.Ascending(values)
    ensures Text.Ascending(Without(values, drop))
    ensures Lists.Elements(Without(values, drop)) == Lists.Elements(values) - Lists.Elements(drop)
  {
    if values != [] {
      WithoutFacts(values[1..], drop);
      var rest := Without(values[1..], drop);
      assert Lists.Elements(values) == {values[0]} + Lists.Elements(values[1..]);
      assert Lists.Elements([values[0]] + rest) == {values[0]} + Lists.Elements(rest);
      forall x | x in rest ensures Text.Before(values[0], x) {
        assert x in Lists.Elements(values[1..]);
      }
      if values[0] !in drop { assert Without(values, drop) == [values[0]] + rest; }
    }
  }

  /** Switching one module, or the whole catalog, on or off in a list. */
  function Switched(values: seq<string>, enabled: bool, chosen: seq<string>): seq<string> {
    if enabled then Without(Normalize(values), chosen) else Text.SortedSet(Normalize(values) + chosen)
  }

  function SwitchedPolicy(p: Policy, kind: Kind, enabled: bool, chosen: seq<string>): Policy {
    match kind
    case Plugins => Policy(p.name, Switched(p.plugins, enabled, chosen), Normalize(p.tasks), p.revision + 1)
    case Tasks => Policy(p.name, Normalize(p.plugins), Switched(p.tasks, enabled, chosen), p.revision + 1)
  }

  /** What a switch for everybody gives one account: its policy's new lists, or its own switched. */
  function SwitchedLists(s: Store, bot: string, kind: Kind, enabled: bool, chosen: seq<string>): (seq<string>, seq<string>)
    requires bot in Accounts(s) && Linked(s)
  {
    if bot in s.bindings then
      var p := SwitchedPolicy(s.policies[s.bindings[bot]], kind, enabled, chosen);
      (p.plugins, p.tasks)
    else
      var plugins, tasks := Decode(s.bots[bot].plugins), Decode(s.bots[bot].tasks);
      match kind
      case Plugins => (Switched(plugins, enabled, chosen), tasks)
      case Tasks => (plugins, Switched(tasks, enabled, chosen))
  }

  function SwitchedRow(s: Store, bot: string, kind: Kind, enabled: bool, chosen: seq<string>): BotRow
    requires bot in Accounts(s) && Linked(s)
  {
    var lists := SwitchedLists(s, bot, kind, enabled, chosen);
    Row(Get(s.bots, bot), lists.0, lists.1)
  }

  function SwitchedPolicies(s: Store, kind: Kind, enabled: bool, chosen: seq<string>): map<nat, Policy> {
    map id | id in s.policies :: SwitchedPolicy(s.policies[id], kind, enabled, chosen)
  }

  function SwitchedRows(s: Store, kind: Kind, enabled: bool, chosen: seq<string>): (r: map<string, BotRow>)
    requires Linked(s)
    ensures r.Keys == Accounts(s)
  {
    map b | b in Accounts(s) :: SwitchedRow(s, b, kind, enabled, chosen)
  }

  function SwitchedAll(s: Store, kind: Kind, enabled: bool, chosen: seq<string>): Store
    requires Linked(s)
  {
    s.(policies := SwitchedPolicies(s, kind, enabled, chosen), bots := SwitchedRows(s, kind, enabled, chosen))
  }

  /** The lists a bot should carry: those of its policy if it is bound to one, else its own. */
  function Expected(s: Store, bot: string): (seq<string>, seq<string>) {
    if bot in s.bindings && s.bindings[bot] in s.policies then
      (Normalize(s.policies[s.bindings[bot]].plugins), Normalize(s.policies[s.bindings[bot]].tasks))
    else (Decode(if bot in s.bots then s.bots[bot].plugins else ""), Decode(if bot in s.bots then s.bots[bot].tasks else ""))
  }

  predicate NeedsRepair(s: Store, bot: string) {
    var (plugins, tasks) := Expected(s, bot);
    bot !in s.bots || s.bots[bot].plugins != Encode(plugins) || s.bots[bot].tasks != Encode(tasks)
  }

  function Repaired(s: Store, bot: string): BotRow {
    Row(Get(s.bots, bot), Expected(s, bot).0, Expected(s, bot).1)
  }

  function Broken(s: Store): (r: set<string>)
    ensures r <= Accounts(s)
  {
    set b | b in Accounts(s) && NeedsRepair(s, b)
  }

  function Repairs(s: Store): (r: map<string, BotRow>)
    ensures r.Keys == Broken(s)
  {
    map b | b in Broken(s) :: Repaired(s, b)
  }

  function Reconciled(s: Store): Store {
    s.(bots := s.bots + Repairs(s))
  }

  /** The entries written so far. */
  function Part(rows: map<string, BotRow>, done: set<string>): map<string, BotRow> {
    map b | b in rows && b in done :: rows[b]
  }

  lemma PartOneMore(was: map<string, BotRow>, rows: map<string, BotRow>, done: set<string>, bot: string)
    ensures was + Part(rows, done + {bot})
            == if bot in rows then (was + Part(rows, done))[bot := rows[bot]] else was + Part(rows, done)
  {
    assert Part(rows, done + {bot}) == if bot in rows then Part(rows, done)[bot := rows[bot]] else Part(rows, done);
  }

  // --- The invariant ---

  /** The database's foreign key, and fresh ids. */
  predicate Linked(s: Store) {
    (forall b | b in s.bindings :: s.bindings[b] in s.policies) && (forall id | id in s.policies :: id < s.nextId)
  }

  /** Every bound account carries exactly the encoding of its policy's lists. */
  ghost predicate Materialised(s: Store) {
    forall b | b in s.bindings && s.bindings[b] in s.policies ::
      && b in s.bots
      && s.bots[b].plugins == Encode(s.policies[s.bindings[b]].plugins)
      && s.bots[b].tasks == Encode(s.policies[s.bindings[b]].tasks)
  }

  // --- The refusals, in the order they are looked for ---

  function Missing(values: seq<string>, catalog: seq<string>): seq<string> {
    Without(values, catalog)
  }

  function CheckUpdateAccount(s: Store, c: Catalog, known: set<string>, bot: string, expected: Option<Account>,
                              plugins: seq<string>, tasks: seq<string>): Result<(seq<string>, seq<string>), Error>
  {
    var a := AccountOf(s, bot);
    if bot !in known then Err(NotFound)
    else if expected.Some? && expected.value != a then Err(Conflict)
    else Validated(c, plugins, tasks, Missing(a.plugins, c.plugins), Missing(a.tasks, c.tasks))
  }

  /** Some account no longer is what the caller saw. */
  predicate Outdated(s: Store, bots: set<string>, seen: map<string, Account>) {
    exists b | b in bots :: Get(seen, b) != Some(AccountOf(s, b))
  }

  function CheckBind(s: Store, known: set<string>, targets: set<string>, id: nat, seen: map<string, Account>): Option<Error> {
    if !(targets <= known) || id !in s.policies then Some(NotFound)
    else if Outdated(s, targets, seen) then Some(Conflict)
    else None
  }

  function CheckCopy(s: Store, known: set<string>, source: string, sourceSeen: Account, targets: set<string>,
                     seen: map<string, Account>): Option<Error>
  {
    if source !in known || !(targets <= known) then Some(NotFound)
    else if sourceSeen != AccountOf(s, source) || Outdated(s, targets - {source}, seen) then Some(Conflict)
    else None
  }

  predicate NameIsTaken(s: Store, fold: string -> string, name: string, but: Option<nat>) {
    exists id | id in s.policies :: Some(id) != but && fold(s.policies[id].name) == fold(name)
  }

  /** The lists a new policy starts from: those given, or those of a source account. */
  function StartingLists(s: Store, c: Catalog, source: Option<(string, Option<Account>)>, plugins: seq<string>, tasks: seq<string>)
    : Result<(seq<string>, seq<string>), Error>
  {
    match source
    case None => Validated(c, plugins, tasks, [], [])
    case Some((bot, _)) =>
      var a := AccountOf(s, bot);
      Validated(c, a.plugins, a.tasks, Missing(a.plugins, c.plugins), Missing(a.tasks, c.tasks))
  }

  /** What a policy shows; its revision token stands for all of it. */
  function Shown(p: Policy): Policy {
    Policy(p.name, Normalize(p.plugins), Normalize(p.tasks), p.revision)
  }

  lemma ValidatedIsNormal(c: Catalog, plugins: seq<string>, tasks: seq<string>, keepPlugins: seq<string>, keepTasks: seq<string>)
    ensures var r := Validated(c, plugins, tasks, keepPlugins, keepTasks);
            r.Ok? ==> Normalize(r.value.0) == r.value.0 && Normalize(r.value.1) == r.value.1
  {
    NormalizeIsIdempotent(plugins);
    NormalizeIsIdempotent(tasks);
  }

  lemma StartingListsAreNormal(s: Store, c: Catalog, source: Option<(string, Option<Account>)>, plugins: seq<string>, tasks: seq<string>)
    ensures var r := StartingLists(s, c, source, plugins, tasks);
            r.Ok? ==> Normalize(r.value.0) == r.value.0 && Normalize(r.value.1) == r.value.1
  {
    match source {
      case None => ValidatedIsNormal(c, plugins, tasks, [], []);
      case Some((bot, _)) =>
        var a := AccountOf(s, bot);
        ValidatedIsNormal(c, a.plugins, a.tasks, Missing(a.plugins, c.plugins), Missing(a.tasks, c.tasks));
    }
  }

  /** A name that is not taken, and lists in normal form. */
  ghost predicate Fresh(s: Store, fold: string -> string, p: Policy, but: Option<nat>) {
    p.name != "" && !NameIsTaken(s, fold, p.name, but) && Shown(p) == p
  }

  function CheckCreate(s: Store, c: Catalog, known: set<string>, fold: string -> string, name: string,
                       source: Option<(string, Option<Account>)>, plugins: seq<string>, tasks: seq<string>,
                       targets: set<string>, seen: map<string, Account>): (r: Result<Policy, Error>)
    ensures r.Ok? ==> Fresh(s, fold, r.value, None) && r.value.revision == 1 && targets <= known
    ensures r.Ok? ==> r.value.name == Strip(name, IsSpace)
                      && StartingLists(s, c, source, plugins, tasks) == Ok((r.value.plugins, r.value.tasks))
  {
    var clean := Strip(name, IsSpace);
    var lists := StartingLists(s, c, source, plugins, tasks);
    StartingListsAreNormal(s, c, source, plugins, tasks);
    if clean == "" then Err(NameEmpty)
    else if !(targets <= known) then Err(NotFound)
    else if source.Some? && source.value.0 !in known then Err(NotFound)
    else if source.Some? && source.value.1 != Some(AccountOf(s, source.value.0)) then Err(Conflict)
    else if lists.Err? then Err(lists.error)
    else if Outdated(s, targets, seen) then Err(Conflict)
    else if NameIsTaken(s, fold, clean, None) then Err(NameTaken)
    else Ok(Policy(clean, lists.value.0, lists.value.1, 1))
  }

  function CheckUpdatePolicy(s: Store, c: Catalog, fold: string -> string, id: nat, seen: Policy, name: string,
                             plugins: seq<string>, tasks: seq<string>): (r: Result<Policy, Error>)
    ensures r.Ok? ==> id in s.policies && Fresh(s, fold, r.value, Some(id)) && r.value.revision == s.policies[id].revision + 1
  {
    if id !in s.policies then Err(NotFound)
    else
      var p := s.policies[id];
      var clean := Strip(name, IsSpace);
      var lists := Validated(c, plugins, tasks, p.plugins, p.tasks);
      ValidatedIsNormal(c, plugins, tasks, p.plugins, p.tasks);
      if seen != Shown(p) then Err(Conflict)
      else if clean == "" then Err(NameEmpty)
      else if NameIsTaken(s, fold, clean, Some(id)) then Err(NameTaken)
      else if lists.Err? then Err(lists.error)
      else Ok(Policy(clean, lists.value.0, lists.value.1, p.revision + 1))
  }

  function CheckDelete(s: Store, id: nat, seen: Policy): Option<Error> {
    if id !in s.policies then Some(NotFound)
    else if seen != Shown(s.policies[id]) then Some(Conflict)
    else if BotsOf(s, id) != {} then Some(InUse)
    else None
  }

  // --- What is refused, and what an accepted request promises ---

  /** Every module is in the catalog, or the account or policy had it already. */
  predicate Covered(modules: seq<string>, catalog: seq<string>, kept: seq<string>) {
    forall m | m in modules :: m in catalog || m in kept
  }

  lemma ValidatedAccepts(c: Catalog, plugins: seq<string>, tasks: seq<string>, keepPlugins: seq<string>, keepTasks: seq<string>)
    ensures var r := Validated(c, plugins, tasks, keepPlugins, keepTasks);
            && (r.Ok? <==> Covered(Normalize(plugins), c.plugins, keepPlugins) && Covered(Normalize(tasks), c.tasks, keepTasks))
            && (r.Ok? ==> r.value == (Normalize(plugins), Normalize(tasks)))
  {
  }

  lemma MissingCovers(modules: seq<string>, catalog: seq<string>, kept: seq<string>)
    ensures Covered(modules, catalog, Missing(kept, catalog)) <==> Covered(modules, catalog, kept)
  {
    forall m ensures m in Missing(kept, catalog) <==> m in kept && m !in catalog { WithoutAt(kept, catalog, m); }
  }

  lemma {:induction false} WithoutAt(values: seq<string>, drop: seq<string>, m: string)
    ensures m in Without(values, drop) <==> m in values && m !in drop
  {
    if values != [] { WithoutAt(values[1..], drop, m); }
  }

  /** An account update passes exactly for a known, unchanged account and covered modules. */
  lemma UpdateAccountAccepts(s: Store, c: Catalog, known: set<string>, bot: string, expected: Option<Account>,
                             plugins: seq<string>, tasks: seq<string>)
    ensures var a, r := AccountOf(s, bot), CheckUpdateAccount(s, c, known, bot, expected, plugins, tasks);
            && (r.Ok? <==> && bot in known && (expected.Some? ==> expected.value == a)
                           && Covered(Normalize(plugins), c.plugins, a.plugins) && Covered(Normalize(tasks), c.tasks, a.tasks))
            && (r.Ok? ==> r.value == (Normalize(plugins), Normalize(tasks)))
            && (r.Err? ==> r.error == if bot !in known then NotFound
                                      else if expected.Some? && expected.value != a then Conflict else UnknownModules)
  {
    var a := AccountOf(s, bot);
    ValidatedAccepts(c, plugins, tasks, Missing(a.plugins, c.plugins), Missing(a.tasks, c.tasks));
    MissingCovers(Normalize(plugins), c.plugins, a.plugins);
    MissingCovers(Normalize(tasks), c.tasks, a.tasks);
  }

  lemma UpToDate(s: Store, bots: set<string>, seen: map<string, Account>)
    ensures !Outdated(s, bots, seen) <==> forall b | b in bots :: b in seen && seen[b] == AccountOf(s, b)
  {
    forall b | b in bots ensures Get(seen, b) == Some(AccountOf(s, b)) <==> b in seen && seen[b] == AccountOf(s, b) {}
  }

  /** Binding passes exactly for known accounts that are all as the caller saw them, and a policy that exists. */
  lemma BindAccepts(s: Store, known: set<string>, targets: set<string>, id: nat, seen: map<string, Account>)
    ensures CheckBind(s, known, targets, id, seen).None? <==>
              id in s.policies && forall b | b in targets :: b in known && b in seen && seen[b] == AccountOf(s, b)
    ensures CheckBind(s, known, targets, id, seen).Some? ==>
              CheckBind(s, known, targets, id, seen).value == if targets <= known && id in s.policies then Conflict else NotFound
  {
    if targets <= known && id in s.policies { UpToDate(s, targets, seen); }
  }

  /** So does copying; the source may be among the targets, unseen. */
  lemma CopyAccepts(s: Store, known: set<string>, source: string, sourceSeen: Account, targets: set<string>, seen: map<string, Account>)
    ensures CheckCopy(s, known, source, sourceSeen, targets, seen).None? <==>
              && source in known && sourceSeen == AccountOf(s, source)
              && forall b | b in targets :: b in known && (b != source ==> b in seen && seen[b] == AccountOf(s, b))
    ensures CheckCopy(s, known, source, sourceSeen, targets, seen).Some? ==>
              CheckCopy(s, known, source, sourceSeen, targets, seen).value
              == if source in known && targets <= known then Conflict else NotFound
  {
    if source in known && targets <= known && sourceSeen == AccountOf(s, source) {
      UpToDate(s, targets - {source}, seen);
    }
  }

  /** Modules taken over from an account are never refused, whatever the catalog has become. */
  lemma SourceListsAreAccepted(s: Store, c: Catalog, bot: string, seen: Option<Account>, plugins: seq<string>, tasks: seq<string>)
    ensures var a := AccountOf(s, bot); StartingLists(s, c, Some((bot, seen)), plugins, tasks) == Ok((a.plugins, a.tasks))
  {
    var a := AccountOf(s, bot);
    AccountIsNormal(s, bot);
    ValidatedAccepts(c, a.plugins, a.tasks, Missing(a.plugins, c.plugins), Missing(a.tasks, c.tasks));
    MissingCovers(a.plugins, c.plugins, a.plugins);
    MissingCovers(a.tasks, c.tasks, a.tasks);
  }

  lemma AccountIsNormal(s: Store, bot: string)
    ensures var a := AccountOf(s, bot); Normalize(a.plugins) == a.plugins && Normalize(a.tasks) == a.tasks
  {
    NormalizeIsIdempotent(Items(Split(if bot in s.bots then s.bots[bot].plugins else "")));
    NormalizeIsIdempotent(Items(Split(if bot in s.bots then s.bots[bot].tasks else "")));
  }

  /** Starting from given lists, the modules must be in the catalog; from an account, the account must
      be known and as the caller saw it. */
  predicate MayStart(s: Store, c: Catalog, known: set<string>, source: Option<(string, Option<Account>)>,
                     plugins: seq<string>, tasks: seq<string>)
  {
    match source
    case None => Covered(Normalize(plugins), c.plugins, []) && Covered(Normalize(tasks), c.tasks, [])
    case Some((bot, seen)) => bot in known && seen == Some(AccountOf(s, bot))
  }

  lemma StartAccepts(s: Store, c: Catalog, known: set<string>, source: Option<(string, Option<Account>)>,
                     plugins: seq<string>, tasks: seq<string>)
    ensures MayStart(s, c, known, source, plugins, tasks) <==>
              && StartingLists(s, c, source, plugins, tasks).Ok?
              && (source.Some? ==> source.value.0 in known && source.value.1 == Some(AccountOf(s, source.value.0)))
  {
    match source {
      case None => ValidatedAccepts(c, plugins, tasks, [], []);
      case Some((bot, seen)) => SourceListsAreAccepted(s, c, bot, seen, plugins, tasks);
    }
  }

  lemma CreatePasses(s: Store, c: Catalog, known: set<string>, fold: string -> string, name: string,
                     source: Option<(string, Option<Account>)>, plugins: seq<string>, tasks: seq<string>,
                     targets: set<string>, seen: map<string, Account>)
    ensures CheckCreate(s, c, known, fold, name, source, plugins, tasks, targets, seen).Ok? <==>
              && Strip(name, IsSpace) != "" && !NameIsTaken(s, fold, Strip(name, IsSpace), None)
              && targets <= known && !Outdated(s, targets, seen) && MayStart(s, c, known, source, plugins, tasks)
  {
    StartAccepts(s, c, known, source, plugins, tasks);
  }

  lemma StartRefuses(s: Store, c: Catalog, source: Option<(string, Option<Account>)>, plugins: seq<string>, tasks: seq<string>)
    ensures var r := StartingLists(s, c, source, plugins, tasks); r.Err? ==> r.error == UnknownModules
  {
  }

  /** Which refusal comes first. */
  lemma CreateRefuses(s: Store, c: Catalog, known: set<string>, fold: string -> string, name: string,
                      source: Option<(string, Option<Account>)>, plugins: seq<string>, tasks: seq<string>,
                      targets: set<string>, seen: map<string, Account>)
    ensures var r := CheckCreate(s, c, known, fold, name, source, plugins, tasks, targets, seen);
            r.Err? ==> r.error == if Strip(name, IsSpace) == "" then NameEmpty
                                  else if !(targets <= known) || (source.Some? && source.value.0 !in known) then NotFound
                                  else if source.Some? && source.value.1 != Some(AccountOf(s, source.value.0)) then Conflict
                                  else if !MayStart(s, c, known, source, plugins, tasks) then UnknownModules
                                  else if Outdated(s, targets, seen) then Conflict else NameTaken
  {
    StartAccepts(s, c, known, source, plugins, tasks);
    StartRefuses(s, c, source, plugins, tasks);
  }

  /** A policy may be created exactly with a name that is free, up to case, for known accounts that are
      as the caller saw them, and lists to start from. */
  lemma CreateAccepts(s: Store, c: Catalog, known: set<string>, fold: string -> string, name: string,
                      source: Option<(string, Option<Account>)>, plugins: seq<string>, tasks: seq<string>,
                      targets: set<string>, seen: map<string, Account>)
    ensures CheckCreate(s, c, known, fold, name, source, plugins, tasks, targets, seen).Ok? <==>
              && Strip(name, IsSpace) != ""
              && (forall id | id in s.policies :: fold(s.policies[id].name) != fold(Strip(name, IsSpace)))
              && (forall b | b in targets :: b in known && b in seen && seen[b] == AccountOf(s, b))
              && MayStart(s, c, known, source, plugins, tasks)
  {
    CreatePasses(s, c, known, fold, name, source, plugins, tasks, targets, seen);
    UpToDate(s, targets, seen);
  }

  /** A policy may be replaced exactly as the caller saw it, by a name no other policy has and modules
      that are in the catalog or that it had already. */
  lemma UpdatePolicyAccepts(s: Store, c: Catalog, fold: string -> string, id: nat, seen: Policy, name: string,
                            plugins: seq<string>, tasks: seq<string>)
    ensures CheckUpdatePolicy(s, c, fold, id, seen, name, plugins, tasks).Ok? <==>
              && id in s.policies && seen == Shown(s.policies[id]) && Strip(name, IsSpace) != ""
              && (forall other | other in s.policies && other != id :: fold(s.policies[other].name) != fold(Strip(name, IsSpace)))
              && Covered(Normalize(plugins), c.plugins, s.policies[id].plugins)
              && Covered(Normalize(tasks), c.tasks, s.policies[id].tasks)
    ensures var r, clean := CheckUpdatePolicy(s, c, fold, id, seen, name, plugins, tasks), Strip(name, IsSpace);
            r.Err? ==> r.error == if id !in s.policies then NotFound else if seen != Shown(s.policies[id]) then Conflict
                                  else if clean == "" then NameEmpty
                                  else if NameIsTaken(s, fold, clean, Some(id)) then NameTaken else UnknownModules
  {
    if id in s.policies { ValidatedAccepts(c, plugins, tasks, s.policies[id].plugins, s.policies[id].tasks); }
  }

  /** No two policies share a name, up to case. */
  ghost predicate NamesAreDistinct(policies: map<nat, Policy>, fold: string -> string) {
    forall i, j | i in policies && j in policies && i != j :: fold(policies[i].name) != fold(policies[j].name)
  }

  lemma FreeNameKeepsDistinct(s: Store, fold: string -> string, id: nat, p: Policy, but: Option<nat>)
    requires NamesAreDistinct(s.policies, fold) && !NameIsTaken(s, fold, p.name, but)
    requires but.Some? ==> but == Some(id)
    ensures NamesAreDistinct(s.policies[id := p], fold)
  {
  }

  /** A policy that may be created keeps the names apart, starts at revision 1 and carries lists in normal form. */
  lemma CreatedNamesAreDistinct(s: Store, c: Catalog, known: set<string>, fold: string -> string, name: string,
                                source: Option<(string, Option<Account>)>, plugins: seq<string>, tasks: seq<string>,
                                targets: set<string>, seen: map<string, Account>)
    requires NamesAreDistinct(s.policies, fold) && CheckCreate(s, c, known, fold, name, source, plugins, tasks, targets, seen).Ok?
    ensures var p := CheckCreate(s, c, known, fold, name, source, plugins, tasks, targets, seen).value;
            && NamesAreDistinct(Created(s, p).policies, fold) && p.name != "" && p.revision == 1 && targets <= known
            && Shown(p) == p
  {
    var p := CheckCreate(s, c, known, fold, name, source, plugins, tasks, targets, seen).value;
    FreeNameKeepsDistinct(s, fold, s.nextId, p, None);
  }

  /** So does a policy that may be replaced, one revision further. */
  lemma ReplacedNamesAreDistinct(s: Store, c: Catalog, fold: string -> string, id: nat, seen: Policy, name: string,
                                 plugins: seq<string>, tasks: seq<string>)
    requires NamesAreDistinct(s.policies, fold) && CheckUpdatePolicy(s, c, fold, id, seen, name, plugins, tasks).Ok?
    ensures var p := CheckUpdatePolicy(s, c, fold, id, seen, name, plugins, tasks).value;
            && id in s.policies && NamesAreDistinct(Replaced(s, id, p).policies, fold) && p.name != ""
            && p.revision == s.policies[id].revision + 1 && Shown(p) == p
  {
    var p := CheckUpdatePolicy(s, c, fold, id, seen, name, plugins, tasks).value;
    FreeNameKeepsDistinct(s, fold, id, p, Some(id));
  }

  /** What an accepted update stores. */
  lemma UpdatedPolicyIs(s: Store, c: Catalog, fold: string -> string, id: nat, seen: Policy, name: string,
                        plugins: seq<string>, tasks: seq<string>)
    requires CheckUpdatePolicy(s, c, fold, id, seen, name, plugins, tasks).Ok?
    ensures id in s.policies
    ensures CheckUpdatePolicy(s, c, fold, id, seen, name, plugins, tasks).value
            == Policy(Strip(name, IsSpace), Normalize(plugins), Normalize(tasks), s.policies[id].revision + 1)
  {
    ValidatedAccepts(c, plugins, tasks, s.policies[id].plugins, s.policies[id].tasks);
  }

  lemma StartingListsAre(s: Store, c: Catalog, source: Option<(string, Option<Account>)>, plugins: seq<string>, tasks: seq<string>)
    ensures var r := StartingLists(s, c, source, plugins, tasks);
            r.Ok? ==> r.value == match source
                                 case None => (Normalize(plugins), Normalize(tasks))
                                 case Some((bot, _)) => (AccountOf(s, bot).plugins, AccountOf(s, bot).tasks)
  {
    match source {
      case None => ValidatedAccepts(c, plugins, tasks, [], []);
      case Some((bot, shown)) => SourceListsAreAccepted(s, c, bot, shown, plugins, tasks);
    }
  }

  /** What an accepted creation stores: the lists asked for, or those of the source account. */
  lemma CreatedPolicyIs(s: Store, c: Catalog, known: set<string>, fold: string -> string, name: string,
                        source: Option<(string, Option<Account>)>, plugins: seq<string>, tasks: seq<string>,
                        targets: set<string>, seen: map<string, Account>)
    requires CheckCreate(s, c, known, fold, name, source, plugins, tasks, targets, seen).Ok?
    ensures var p := CheckCreate(s, c, known, fold, name, source, plugins, tasks, targets, seen).value;
            && p.name == Strip(name, IsSpace) && p.revision == 1
            && (p.plugins, p.tasks) == match source
                                       case None => (Normalize(plugins), Normalize(tasks))
                                       case Some((bot, _)) => (AccountOf(s, bot).plugins, AccountOf(s, bot).tasks)
  {
    StartingListsAre(s, c, source, plugins, tasks);
  }

  /** A policy is deleted only as the caller saw it and while no account is bound to it. */
  lemma DeleteAccepts(s: Store, id: nat, seen: Policy)
    ensures CheckDelete(s, id, seen).None? <==>
              id in s.policies && seen == Shown(s.policies[id]) && forall b | b in s.bindings :: s.bindings[b] != id
    ensures CheckDelete(s, id, seen).Some? ==>
              CheckDelete(s, id, seen).value == if id !in s.policies then NotFound
                                                else if seen != Shown(s.policies[id]) then Conflict else InUse
  {
    assert BotsOf(s, id) == {} <==> forall b | b in s.bindings :: b !in BotsOf(s, id);
  }

  // --- What every operation keeps ---

  /** One committed management operation. */
  datatype Change =
    | Detach(bots: set<string>, plugins: seq<string>, tasks: seq<string>)
    | Bind(bots: set<string>, id: nat)
    | Create(policy: Policy, bots: set<string>)
    | Replace(id: nat, policy: Policy)
    | Delete(id: nat)
    | Switch(kind: Kind, enabled: bool, chosen: seq<string>)
    | Reconcile

  predicate Allowed(s: Store, c: Change) {
    match c
    case Bind(_, id) => id in s.policies
    case Replace(id, _) => id in s.policies
    case Delete(id) => id in s.policies && BotsOf(s, id) == {}
    case Switch(_, _, _) => Linked(s)
    case _ => true
  }

  /** The operation's effect; a refused one changes nothing. */
  function Do(s: Store, c: Change): Store {
    if !Allowed(s, c) then s else
      match c
      case Detach(bots, plugins, tasks) => Detached(s, bots, plugins, tasks)
      case Bind(bots, id) => Bound(s, bots, id)
      case Create(policy, bots) => Bound(Created(s, policy), bots, s.nextId)
      case Replace(id, policy) => Replaced(s, id, policy)
      case Delete(id) => Deleted(s, id)
      case Switch(kind, enabled, chosen) => SwitchedAll(s, kind, enabled, chosen)
      case Reconcile => Reconciled(s)
  }

  /** The changes of a run are what the operations do; only an operation that is refused does nothing. */
  lemma ChangesAreOperations(s: Store, c: Change)
    ensures match c
            case Detach(bots, plugins, tasks) => Do(s, c) == Detached(s, bots, plugins, tasks)
            case Bind(bots, id) => id in s.policies ==> Do(s, c) == Bound(s, bots, id)
            case Create(policy, bots) => Do(s, c) == Bound(Created(s, policy), bots, s.nextId)
            case Replace(id, policy) => id in s.policies ==> Do(s, c) == Replaced(s, id, policy)
            case Delete(id) => id in s.policies && BotsOf(s, id) == {} ==> Do(s, c) == Deleted(s, id)
            case Switch(kind, enabled, chosen) => Linked(s) ==> Do(s, c) == SwitchedAll(s, kind, enabled, chosen)
            case Reconcile => Do(s, c) == Reconciled(s)
  {
  }

  function Run(s: Store, changes: seq<Change>): Store
    decreases |changes|
  {
    if changes == [] then s else Run(Do(s, changes[0]), changes[1..])
  }

  lemma DetachKeeps(s: Store, bots: set<string>, plugins: seq<string>, tasks: seq<string>)
    requires Linked(s)
    ensures Linked(Detached(s, bots, plugins, tasks))
    ensures Materialised(s) ==> Materialised(Detached(s, bots, plugins, tasks))
  {
    var t := Detached(s, bots, plugins, tasks);
    forall b | b in t.bindings ensures b in s.bindings && t.bindings[b] == s.bindings[b] && Get(t.bots, b) == Get(s.bots, b) {}
  }

  lemma BindKeeps(s: Store, bots: set<string>, id: nat)
    requires Linked(s) && id in s.policies
    ensures Linked(Bound(s, bots, id))
    ensures Materialised(s) ==> Materialised(Bound(s, bots, id))
  {
    var t := Bound(s, bots, id);
    var p := s.policies[id];
    forall b | b in t.bindings
      ensures if b in bots then t.bindings[b] == id && Get(t.bots, b) == Some(Row(Get(s.bots, b), p.plugins, p.tasks))
              else b in s.bindings && t.bindings[b] == s.bindings[b] && Get(t.bots, b) == Get(s.bots, b) {}
  }

  lemma CreateKeeps(s: Store, p: Policy)
    requires Linked(s)
    ensures Linked(Created(s, p)) && s.nextId !in s.policies
    ensures Materialised(s) ==> Materialised(Created(s, p))
  {
  }

  lemma ReplaceKeeps(s: Store, id: nat, p: Policy)
    requires Linked(s) && id in s.policies
    ensures Linked(Replaced(s, id, p))
    ensures Materialised(s) ==> Materialised(Replaced(s, id, p))
  {
    var t := Replaced(s, id, p);
    forall b | b in s.bindings
      ensures if s.bindings[b] == id then Get(t.bots, b) == Some(Row(Get(s.bots, b), p.plugins, p.tasks))
              else Get(t.bots, b) == Get(s.bots, b) {
      assert b in BotsOf(s, id) <==> s.bindings[b] == id;
    }
  }

  lemma DeleteKeeps(s: Store, id: nat)
    requires Linked(s) && BotsOf(s, id) == {}
    ensures Linked(Deleted(s, id))
    ensures Materialised(s) ==> Materialised(Deleted(s, id))
  {
    forall b | b in s.bindings ensures s.bindings[b] != id {
      assert b !in BotsOf(s, id);
    }
  }

  /** Switching for everybody also repairs the copies. */
  lemma SwitchKeeps(s: Store, kind: Kind, enabled: bool, chosen: seq<string>)
    requires Linked(s)
    ensures Linked(SwitchedAll(s, kind, enabled, chosen))
    ensures Materialised(SwitchedAll(s, kind, enabled, chosen))
  {
    var t := SwitchedAll(s, kind, enabled, chosen);
    forall b | b in s.bindings
      ensures var p := t.policies[s.bindings[b]]; Get(t.bots, b) == Some(Row(Get(s.bots, b), p.plugins, p.tasks)) {}
  }

  /** Any operation keeps the copies equal to the policies. */
  lemma DoKeeps(s: Store, c: Change)
    requires Linked(s)
    ensures Linked(Do(s, c))
    ensures Materialised(s) || c == Reconcile ==> Materialised(Do(s, c))
  {
    if Allowed(s, c) {
      match c {
        case Detach(bots, plugins, tasks) => DetachKeeps(s, bots, plugins, tasks);
        case Bind(bots, id) => BindKeeps(s, bots, id);
        case Create(policy, bots) => CreateKeeps(s, policy); BindKeeps(Created(s, policy), bots, s.nextId);
        case Replace(id, policy) => ReplaceKeeps(s, id, policy);
        case Delete(id) => DeleteKeeps(s, id);
        case Switch(kind, enabled, chosen) => SwitchKeeps(s, kind, enabled, chosen);
        case Reconcile => ReconcileEstablishes(s);
      }
    }
  }

  /** Reconciling repairs the copies whatever was stored. */
  lemma ReconcileEstablishes(s: Store)
    ensures Materialised(Reconciled(s))
  {
    forall b | b in s.bindings && s.bindings[b] in s.policies
      ensures var p := s.policies[s.bindings[b]];
              && b in Reconciled(s).bots
              && Reconciled(s).bots[b].plugins == Encode(p.plugins)
              && Reconciled(s).bots[b].tasks == Encode(p.tasks)
    {
      var p := s.policies[s.bindings[b]];
      NormalizeIsIdempotent(p.plugins);
      NormalizeIsIdempotent(p.tasks);
    }
  }

  /** Over every run of operations the copies stay equal to the policies, once they are. */
  lemma {:induction false} RunKeeps(s: Store, changes: seq<Change>)
    requires Linked(s)
    requires Materialised(s) || Reconcile in changes
    ensures Linked(Run(s, changes)) && Materialised(Run(s, changes))
    decreases |changes|
  {
    if changes != [] {
      DoKeeps(s, changes[0]);
      RunKeeps(Do(s, changes[0]), changes[1..]);
    }
  }

  // --- Reconciling twice ---

  predicate HasPolicy(s: Store, bot: string) {
    bot in s.bindings && s.bindings[bot] in s.policies
  }

  predicate AllStorable(names: seq<string>) {
    forall n | n in names :: Storable(n)
  }

  /** What reconciling leaves in a row: always the encoding of the expected lists. */
  lemma ReconciledRow(s: Store, bot: string)
    requires bot in Accounts(s)
    ensures var t := Reconciled(s);
            && bot in t.bots
            && t.bots[bot].plugins == Encode(Expected(s, bot).0)
            && t.bots[bot].tasks == Encode(Expected(s, bot).1)
            && t.bots[bot].revision == AccountOf(s, bot).revision + if NeedsRepair(s, bot) then 1 else 0
  {
  }

  /** Encoding tells apart lists of names without a mark. */
  lemma EncodeIsInjective(a: seq<string>, b: seq<string>)
    requires Normalize(a) == a && Normalize(b) == b
    requires (forall n | n in a :: '<' !in n) && (forall n | n in b :: '<' !in n)
    requires Encode(a) == Encode(b)
    ensures a == b
  {
    SplitJoin(a);
    SplitJoin(b);
    assert WithComma(a) == ([""] + WithComma(a))[1..] == ([""] + WithComma(b))[1..] == WithComma(b);
    WithCommaIsInjective(a, b);
  }

  lemma {:induction false} WithCommaIsInjective(a: seq<string>, b: seq<string>)
    requires WithComma(a) == WithComma(b)
    ensures a == b
  {
    if a != [] && b != [] {
      assert WithComma(a)[0][..|a[0]|] == a[0];
      assert WithComma(b)[0][..|b[0]|] == b[0];
      assert WithComma(a)[1..] == WithComma(a[1..]);
      assert WithComma(b)[1..] == WithComma(b[1..]);
      WithCommaIsInjective(a[1..], b[1..]);
      assert a == [a[0]] + a[1..] && b == [b[0]] + b[1..];
    }
  }

  /** A stored string decodes to a list whose encoding is stable exactly when its names are storable. */
  lemma EncodingSettles(stored: string)
    ensures var l := Decode(stored); Encode(Decode(Encode(l))) == Encode(l) <==> AllStorable(l)
  {
    var l := Decode(stored);
    var back := Decode(Encode(l));
    NormalizeIsIdempotent(Items(Split(stored)));
    NormalizeIsIdempotent(Items(Split(Encode(l))));
    DecodedHasNoMark(stored);
    DecodedHasNoMark(Encode(l));
    RoundTripIffStorable(l);
    if Encode(back) == Encode(l) { EncodeIsInjective(back, l); }
  }

  /** A second reconcile repairs an account exactly when it has no policy and the names it carries
      itself do not survive storage; in particular it repairs nothing when module names are well formed. */
  lemma SecondReconcileRepairs(s: Store, bot: string)
    requires bot in Accounts(s)
    ensures bot in Broken(Reconciled(s)) <==>
              !HasPolicy(s, bot) && !(AllStorable(Expected(s, bot).0) && AllStorable(Expected(s, bot).1))
  {
    var t := Reconciled(s);
    ReconciledRow(s, bot);
    if HasPolicy(s, bot) {
      assert Expected(t, bot) == Expected(s, bot);
    } else {
      var plugins, tasks := if bot in s.bots then s.bots[bot].plugins else "", if bot in s.bots then s.bots[bot].tasks else "";
      assert Expected(s, bot) == (Decode(plugins), Decode(tasks));
      assert Expected(t, bot) == (Decode(Encode(Decode(plugins))), Decode(Encode(Decode(tasks))));
      EncodingSettles(plugins);
      EncodingSettles(tasks);
    }
  }

  lemma StripOneRight(s: string, drop: char -> bool)
    requires |s| > 1 && !drop(s[0]) && !drop(s[|s| - 2]) && drop(s[|s| - 1])
    ensures Strip(s, drop) == s[..|s| - 1]
  {
    StripLeftFacts(s, drop);
    StripRightFacts(s[..|s| - 1], drop);
  }

  lemma StripOneLeft(s: string, drop: char -> bool)
    requires |s| > 1 && drop(s[0]) && !drop(s[1]) && !drop(s[|s| - 1])
    ensures Strip(s, drop) == s[1..]
  {
    StripLeftFacts(s[1..], drop);
    StripRightFacts(s[1..], drop);
  }

  /** Reading a row `< ,x,` back strips the comma at the end, then the space, and so leaves `,x`. */
  lemma EdgeCommaSurvivesOneDecode(stored: string, x: char)
    requires stored == ['<', ' ', ',', x, ','] && x != '<' && x != ',' && !IsSpace(x)
    ensures [',', x] in Decode(stored)
  {
    var piece := stored[1..];
    SplitAfter(piece, "");
    assert piece + "" == piece;
    assert Split(stored)[1] == piece;
    StripOneRight(piece, IsComma);
    ItemsAt(Split(stored), piece[..3]);
    StripOneLeft(piece[..3], IsSpace);
    assert piece[..3] == [' ', ',', x] && piece[..3][1..] == [',', x];
    NormalizeAt(Items(Split(stored)), [',', x]);
  }

  /** Such an account: a hand-written row whose name keeps a comma behind a space. */
  lemma SomeAccountIsRepairedTwice(s: Store, bot: string)
    requires !HasPolicy(s, bot) && bot in s.bots && s.bots[bot].plugins == ['<', ' ', ',', 'a', ',']
    ensures bot in Broken(Reconciled(s))
  {
    EdgeCommaSurvivesOneDecode(s.bots[bot].plugins, 'a');
    assert !Storable([',', 'a']);
    SecondReconcileRepairs(s, bot);
  }

  /** On a bound account the blocked-module test answers for the policy's list. */
  lemma BlockTestAnswersForPolicy(s: Store, bot: string, q: string)
    requires Materialised(s) && HasPolicy(s, bot)
    requires Plain(q) && forall n | n in Normalize(s.policies[s.bindings[bot]].plugins) :: Plain(n)
    ensures Contains(s.bots[bot].plugins, Format(q)) <==> q in Normalize(s.policies[s.bindings[bot]].plugins)
  {
    SubstringTestIsExact(s.policies[s.bindings[bot]].plugins, q);
  }

  // --- What the operations mean for the accounts ---

  lemma NormalFromNames(l: seq<string>)
    requires Text.Ascending(l) && forall n | n in l :: n != "" && Bare(n, IsSpace)
    ensures Normalize(l) == l
  {
    forall n ensures n in Normalize(l) <==> n in l {
      NormalizeAt(l, n);
      if n in l { StripFacts(n, IsSpace); }
      if n in Normalize(l) {
        var v :| v in l && Strip(v, IsSpace) == n;
        StripFacts(v, IsSpace);
      }
    }
    assert Lists.Elements(Normalize(l)) == Lists.Elements(l);
    Text.AscendingIsCanonical(Normalize(l), l);
  }

  lemma NamesOf(values: seq<string>)
    ensures forall n | n in Normalize(values) :: n != "" && Bare(n, IsSpace)
  {
    forall n | n in Normalize(values) ensures n != "" && Bare(n, IsSpace) { NormalizeAt(values, n); }
  }

  /** The account shows these lists, if they survive storage. */
  ghost predicate Shows(a: Account, plugins: seq<string>, tasks: seq<string>) {
    && (AllStorable(Normalize(plugins)) ==> a.plugins == Normalize(plugins))
    && (AllStorable(Normalize(tasks)) ==> a.tasks == Normalize(tasks))
  }

  lemma RowShows(s: Store, bot: string, was: Option<BotRow>, plugins: seq<string>, tasks: seq<string>)
    requires Get(s.bots, bot) == Some(Row(was, plugins, tasks))
    ensures Shows(AccountOf(s, bot), plugins, tasks)
  {
    RoundTripIffStorable(plugins);
    RoundTripIffStorable(tasks);
  }

  lemma SameAccount(s: Store, t: Store, bot: string)
    requires Get(s.bots, bot) == Get(t.bots, bot) && Get(s.bindings, bot) == Get(t.bindings, bot) && s.policies == t.policies
    ensures AccountOf(s, bot) == AccountOf(t, bot)
  {
  }

  /** Binding shows the policy's lists on the bound accounts and touches no other account. */
  lemma BoundAccountsShowThePolicy(s: Store, bots: set<string>, id: nat, bot: string)
    requires id in s.policies
    ensures var a, p := AccountOf(Bound(s, bots, id), bot), s.policies[id];
            && (bot !in bots ==> a == AccountOf(s, bot))
            && (bot in bots ==> a.policy == Some((id, p.revision)) && Shows(a, p.plugins, p.tasks)
                                && a.revision == AccountOf(s, bot).revision + 1)
  {
    var t, p := Bound(s, bots, id), s.policies[id];
    if bot in bots {
      RowShows(t, bot, Get(s.bots, bot), p.plugins, p.tasks);
    } else {
      SameAccount(s, t, bot);
    }
  }

  /** Writing lists to accounts makes them independent, shows the lists, and touches no other account. */
  lemma DetachedAccountsShowTheLists(s: Store, bots: set<string>, plugins: seq<string>, tasks: seq<string>, bot: string)
    ensures var a := AccountOf(Detached(s, bots, plugins, tasks), bot);
            && (bot !in bots ==> a == AccountOf(s, bot))
            && (bot in bots ==> a.policy == None && Shows(a, plugins, tasks) && a.revision == AccountOf(s, bot).revision + 1)
  {
    var t := Detached(s, bots, plugins, tasks);
    if bot in bots {
      RowShows(t, bot, Get(s.bots, bot), plugins, tasks);
    } else {
      SameAccount(s, t, bot);
    }
  }

  /** Replacing a policy shows its new lists on the accounts bound to it, and touches no other account's rows and
      no other policy. */
  lemma ReplacedAccountsShowThePolicy(s: Store, id: nat, p: Policy, bot: string)
    requires id in s.policies
    ensures var t := Replaced(s, id, p);
            var a := AccountOf(t, bot);
            && t.policies == s.policies[id := p] && t.bindings == s.bindings
            && (Get(s.bindings, bot) != Some(id) ==> Get(t.bots, bot) == Get(s.bots, bot))
            && (Get(s.bindings, bot) == Some(id) ==>
                  a.policy == Some((id, p.revision)) && Shows(a, p.plugins, p.tasks) && a.revision == AccountOf(s, bot).revision + 1)
  {
    var t := Replaced(s, id, p);
    assert bot in BotsOf(s, id) <==> Get(s.bindings, bot) == Some(id);
    if Get(s.bindings, bot) == Some(id) { RowShows(t, bot, Get(s.bots, bot), p.plugins, p.tasks); }
  }

  /** Switching for everybody raises the revision of every account. */
  lemma SwitchRaises(s: Store, kind: Kind, enabled: bool, chosen: seq<string>, bot: string)
    requires Linked(s) && bot in Accounts(s)
    ensures AccountOf(SwitchedAll(s, kind, enabled, chosen), bot).revision == AccountOf(s, bot).revision + 1
  {
    assert Get(SwitchedAll(s, kind, enabled, chosen).bots, bot) == Some(SwitchedRow(s, bot, kind, enabled, chosen));
  }

  /** Switching for everybody switches every policy, bound or not, and raises its revision. */
  lemma SwitchedPolicyIs(s: Store, kind: Kind, enabled: bool, chosen: seq<string>, id: nat, q: string)
    requires Linked(s) && id in s.policies && forall c | c in chosen :: c != "" && Bare(c, IsSpace)
    ensures var t := SwitchedAll(s, kind, enabled, chosen);
            && t.policies.Keys == s.policies.Keys && t.bindings == s.bindings
            && var was, p := s.policies[id], t.policies[id];
               var before := Normalize(Of((was.plugins, was.tasks), kind));
               && p.name == was.name && p.revision == was.revision + 1
               && (q in Of((p.plugins, p.tasks), kind) <==> if enabled then q in before && q !in chosen else q in before || q in chosen)
               && Of((p.plugins, p.tasks), Other(kind)) == Normalize(Of((was.plugins, was.tasks), Other(kind)))
  {
    SwitchedIsNormal(Of((s.policies[id].plugins, s.policies[id].tasks), kind), enabled, chosen, q);
  }

  /** Creating and deleting touch one policy and no account. */
  lemma CreatedAndDeletedAre(s: Store, p: Policy, id: nat)
    ensures var t := Created(s, p);
            t.policies == s.policies[s.nextId := p] && t.nextId > s.nextId && t.bindings == s.bindings && t.bots == s.bots
    ensures var t := Deleted(s, id);
            && id !in t.policies && (forall other | other != id :: Get(t.policies, other) == Get(s.policies, other))
            && t.nextId == s.nextId && t.bindings == s.bindings && t.bots == s.bots
  {
  }

  lemma SwitchedIsNormal(values: seq<string>, enabled: bool, chosen: seq<string>, q: string)
    requires forall c | c in chosen :: c != "" && Bare(c, IsSpace)
    ensures var l := Switched(values, enabled, chosen);
            && Normalize(l) == l
            && (q in l <==> if enabled then q in Normalize(values) && q !in chosen else q in Normalize(values) || q in chosen)
  {
    var l, names := Switched(values, enabled, chosen), Normalize(values);
    NamesOf(values);
    WithoutFacts(names, chosen);
    assert Lists.Elements(l) == if enabled then Lists.Elements(names) - Lists.Elements(chosen) else Lists.Elements(names + chosen);
    forall n ensures n in l <==> if enabled then n in names && n !in chosen else n in names || n in chosen {
      assert n in l <==> n in Lists.Elements(l);
      assert n in names <==> n in Lists.Elements(names);
      assert n in chosen <==> n in Lists.Elements(chosen);
      assert n in names + chosen <==> n in Lists.Elements(names + chosen);
    }
    NormalFromNames(l);
  }

  function Of(lists: (seq<string>, seq<string>), kind: Kind): seq<string> {
    if kind == Plugins then lists.0 else lists.1
  }

  function Other(kind: Kind): Kind {
    if kind == Plugins then Tasks else Plugins
  }

  /** What a switched list is read back as. */
  lemma SwitchedIsReadBack(values: seq<string>, enabled: bool, chosen: seq<string>, q: string)
    requires AllStorable(Normalize(values)) && forall c | c in chosen :: c != "" && Bare(c, IsSpace) && Storable(c)
    ensures var names := Normalize(values);
            q in Decode(Encode(Switched(values, enabled, chosen))) <==>
              if enabled then q in names && q !in chosen else q in names || q in chosen
  {
    var l := Switched(values, enabled, chosen);
    SwitchedIsNormal(values, enabled, chosen, q);
    forall n | n in l ensures Storable(n) { SwitchedIsNormal(values, enabled, chosen, n); }
    RoundTripIffStorable(l);
  }

  lemma KeptIsReadBack(names: seq<string>)
    requires AllStorable(names) && Normalize(names) == names
    ensures Decode(Encode(names)) == names
  {
    RoundTripIffStorable(names);
  }

  /** The lists that are switched: those of the policy, or the account's own. */
  function Raw(s: Store, bot: string): (seq<string>, seq<string>)
    requires bot in Accounts(s) && Linked(s)
  {
    if bot in s.bindings then (s.policies[s.bindings[bot]].plugins, s.policies[s.bindings[bot]].tasks)
    else (Decode(s.bots[bot].plugins), Decode(s.bots[bot].tasks))
  }

  lemma SwitchedListsAre(s: Store, bot: string, kind: Kind, enabled: bool, chosen: seq<string>)
    requires bot in Accounts(s) && Linked(s)
    ensures var raw, was, now := Raw(s, bot), Expected(s, bot), SwitchedLists(s, bot, kind, enabled, chosen);
            && Normalize(raw.0) == was.0 && Normalize(raw.1) == was.1
            && Of(now, kind) == Switched(Of(raw, kind), enabled, chosen) && Of(now, Other(kind)) == Of(was, Other(kind))
  {
    ExpectedIsNormal(s, bot);
  }

  /** Switching modules for everybody takes effect on every account, bound or not, and only for them. */
  lemma SwitchTakesEffect(s: Store, kind: Kind, enabled: bool, chosen: seq<string>, bot: string, q: string)
    requires Linked(s) && bot in Accounts(s)
    requires AllStorable(Expected(s, bot).0) && AllStorable(Expected(s, bot).1)
    requires forall c | c in chosen :: c != "" && Bare(c, IsSpace) && Storable(c)
    ensures var was, a := Expected(s, bot), AccountOf(SwitchedAll(s, kind, enabled, chosen), bot);
            var before, now := Of(was, kind), Of((a.plugins, a.tasks), kind);
            && (q in now <==> if enabled then q in before && q !in chosen else q in before || q in chosen)
            && Of((a.plugins, a.tasks), Other(kind)) == Of(was, Other(kind))
  {
    SwitchedListsAre(s, bot, kind, enabled, chosen);
    ExpectedIsNormal(s, bot);
    SwitchedIsReadBack(Of(Raw(s, bot), kind), enabled, chosen, q);
    KeptIsReadBack(Of(Expected(s, bot), Other(kind)));
  }

  lemma ExpectedIsNormal(s: Store, bot: string)
    ensures Normalize(Expected(s, bot).0) == Expected(s, bot).0 && Normalize(Expected(s, bot).1) == Expected(s, bot).1
  {
    if HasPolicy(s, bot) {
      NormalizeIsIdempotent(s.policies[s.bindings[bot]].plugins);
      NormalizeIsIdempotent(s.policies[s.bindings[bot]].tasks);
    } else {
      NormalizeIsIdempotent(Items(Split(if bot in s.bots then s.bots[bot].plugins else "")));
      NormalizeIsIdempotent(Items(Split(if bot in s.bots then s.bots[bot].tasks else "")));
    }
  }

  // --- The service ---

  class PluginPolicyService {
    var policies: map<nat, Policy>
    var nextId: nat
    var bindings: map<string, nat>
    var bots: map<string, BotRow>

    function View(): Store
      reads this
    {
      Store(policies, nextId, bindings, bots)
    }

    constructor (s: Store)
      ensures View() == s
    {
      policies, nextId, bindings, bots := s.policies, s.nextId, s.bindings, s.bots;
    }

    /** A committed transaction, or one interrupted and rolled back. */
    ghost predicate Done(before: Store, after: Store, r: Result<(), Error>)
      reads this
    {
      (r == Ok(()) && View() == after) || (r == Err(Interrupted) && View() == before)
    }

    method Commit(policies0: map<nat, Policy>, nextId0: nat, bindings0: map<string, nat>, bots0: map<string, BotRow>)
      returns (r: Result<(), Error>)
      modifies this
      ensures if r == Ok(()) then View() == old(View())
              else r == Err(Interrupted) && View() == Store(policies0, nextId0, bindings0, bots0)
    {
      var fault: bool := *;
      if fault {
        policies, nextId, bindings, bots := policies0, nextId0, bindings0, bots0;
        return Err(Interrupted);
      }
      r := Ok(());
    }

    method Materialize(bot: string, plugins: seq<string>, tasks: seq<string>)
      modifies this`bots
      ensures bots == old(bots)[bot := Row(Get(old(bots), bot), plugins, tasks)]
    {
      var blockedPlugins, blockedTasks := Normalize(plugins), Normalize(tasks);
      NormalizeIsIdempotent(plugins);
      NormalizeIsIdempotent(tasks);
      var encodedPlugins, encodedTasks := Encode(blockedPlugins), Encode(blockedTasks);
      if bot !in bots {
        bots := bots[bot := BotRow(encodedPlugins, encodedTasks, 1)];
      } else {
        bots := bots[bot := BotRow(encodedPlugins, encodedTasks, bots[bot].revision + 1)];
      }
    }

    /** Unbinds each target and writes these lists to it; the loop of `copy_account`. */
    method DetachAll(targets: seq<string>, plugins: seq<string>, tasks: seq<string>)
      requires Text.Ascending(targets)
      modifies this`bindings, this`bots
      ensures View() == Detached(old(View()), Lists.Elements(targets), plugins, tasks)
    {
      ghost var s := View();
      for i := 0 to |targets|
        invariant View() == Detached(s, Lists.Elements(targets[..i]), plugins, tasks)
      {
        DetachedOneMore(s, targets, i, plugins, tasks);
        bindings := bindings - {targets[i]};
        Materialize(targets[i], plugins, tasks);
      }
      assert targets[..|targets|] == targets;
    }

    method UpdateAccount(c: Catalog, known: set<string>, bot: string, expected: Option<Account>, plugins: seq<string>, tasks: seq<string>)
      returns (r: Result<(), Error>)
      modifies this
      ensures match CheckUpdateAccount(old(View()), c, known, bot, expected, plugins, tasks)
              case Err(e) => r == Err(e) && View() == old(View())
              case Ok((p, t)) => Done(old(View()), Detached(old(View()), {bot}, p, t), r)
    {
      var s := View();
      var lists := CheckUpdateAccount(s, c, known, bot, expected, plugins, tasks);
      if lists.Err? { return Err(lists.error); }
      JustOne(bot);
      DetachAll([bot], lists.value.0, lists.value.1);
      r := Commit(s.policies, s.nextId, s.bindings, s.bots);
    }

    method CopyAccount(known: set<string>, source: string, sourceSeen: Account, botIds: seq<string>, seen: map<string, Account>)
      returns (r: Result<(), Error>)
      modifies this
      ensures var a := AccountOf(old(View()), source);
              match CheckCopy(old(View()), known, source, sourceSeen, Lists.Elements(botIds), seen)
              case Some(e) => r == Err(e) && View() == old(View())
              case None => Done(old(View()), Detached(old(View()), Lists.Elements(botIds) - {source}, a.plugins, a.tasks), r)
    {
      var s := View();
      var a := AccountOf(s, source);
      var error := CheckCopy(s, known, source, sourceSeen, Lists.Elements(botIds), seen);
      if error.Some? { return Err(error.value); }
      var targets := Without(Text.SortedSet(botIds), [source]);
      AllButSource(botIds, source);
      DetachAll(targets, a.plugins, a.tasks);
      r := Commit(s.policies, s.nextId, s.bindings, s.bots);
    }

    static lemma JustOne(bot: string)
      ensures Text.Ascending([bot]) && Lists.Elements([bot]) == {bot}
    {
    }

    static lemma AllButSource(botIds: seq<string>, source: string)
      ensures var targets := Without(Text.SortedSet(botIds), [source]);
              Text.Ascending(targets) && Lists.Elements(targets) == Lists.Elements(botIds) - {source}
    {
      WithoutFacts(Text.SortedSet(botIds), [source]);
    }

    /** Binds each target to the policy and gives it the policy's lists; the loop shared by
        `create_policy` and `bind_accounts`. */
    method BindAll(targets: seq<string>, id: nat)
      requires id in policies && Text.Ascending(targets)
      modifies this`bindings, this`bots
      ensures View() == Bound(old(View()), Lists.Elements(targets), id)
    {
      ghost var s := View();
      for i := 0 to |targets|
        invariant Binding(s, targets, i, id)
      {
        BindNext(s, targets, i, id);
      }
      assert targets[..|targets|] == targets;
    }

    /** The first `i` targets are bound. */
    ghost predicate Binding(s: Store, targets: seq<string>, i: nat, id: nat)
      reads this
    {
      i <= |targets| && id in s.policies && View() == Bound(s, Lists.Elements(targets[..i]), id)
    }

    method BindNext(ghost s: Store, targets: seq<string>, i: nat, id: nat)
      requires i < |targets| && Text.Ascending(targets) && Binding(s, targets, i, id)
      modifies this`bindings, this`bots
      ensures Binding(s, targets, i + 1, id)
    {
      BoundOneMore(s, targets, i, id);
      bindings := bindings[targets[i] := id];
      Materialize(targets[i], policies[id].plugins, policies[id].tasks);
    }

    method BindAccounts(known: set<string>, botIds: seq<string>, id: nat, seen: map<string, Account>) returns (r: Result<(), Error>)
      modifies this
      ensures match CheckBind(old(View()), known, Lists.Elements(botIds), id, seen)
              case Some(e) => r == Err(e) && View() == old(View())
              case None => Done(old(View()), Bound(old(View()), Lists.Elements(botIds), id), r)
    {
      var s := View();
      var error := CheckBind(s, known, Lists.Elements(botIds), id, seen);
      if error.Some? { return Err(error.value); }
      BindAll(Text.SortedSet(botIds), id);
      r := Commit(s.policies, s.nextId, s.bindings, s.bots);
    }

    method CreatePolicy(c: Catalog, known: set<string>, fold: string -> string, name: string,
                        source: Option<(string, Option<Account>)>, plugins: seq<string>, tasks: seq<string>,
                        botIds: seq<string>, seen: map<string, Account>) returns (r: Result<(), Error>)
      modifies this
      ensures match CheckCreate(old(View()), c, known, fold, name, source, plugins, tasks, Lists.Elements(botIds), seen)
              case Err(e) => r == Err(e) && View() == old(View())
              case Ok(p) => Done(old(View()), Bound(Created(old(View()), p), Lists.Elements(botIds), old(nextId)), r)
    {
      var s := View();
      var policy := CheckCreate(s, c, known, fold, name, source, plugins, tasks, Lists.Elements(botIds), seen);
      if policy.Err? { return Err(policy.error); }
      r := AddPolicy(policy.value, botIds);
    }

    method AddPolicy(policy: Policy, botIds: seq<string>) returns (r: Result<(), Error>)
      modifies this
      ensures Done(old(View()), Bound(Created(old(View()), policy), Lists.Elements(botIds), old(nextId)), r)
    {
      var s, id := View(), nextId;
      policies, nextId := policies[id := policy], nextId + 1;
      BindAll(Text.SortedSet(botIds), id);
      r := Commit(s.policies, s.nextId, s.bindings, s.bots);
    }

    method UpdatePolicy(c: Catalog, fold: string -> string, id: nat, seen: Policy, name: string, plugins: seq<string>, tasks: seq<string>)
      returns (r: Result<(), Error>)
      modifies this
      ensures match CheckUpdatePolicy(old(View()), c, fold, id, seen, name, plugins, tasks)
              case Err(e) => r == Err(e) && View() == old(View())
              case Ok(p) => Done(old(View()), Replaced(old(View()), id, p), r)
    {
      var s := View();
      var policy := CheckUpdatePolicy(s, c, fold, id, seen, name, plugins, tasks);
      if policy.Err? { return Err(policy.error); }
      policies := policies[id := policy.value];
      MaterializeAll(BotsOf(s, id), policy.value.plugins, policy.value.tasks);
      r := Commit(s.policies, s.nextId, s.bindings, s.bots);
    }

    /** The loop of `update_policy`. */
    method MaterializeAll(targets: set<string>, plugins: seq<string>, tasks: seq<string>)
      modifies this`bots
      ensures bots == old(bots) + Rows(old(bots), targets, plugins, tasks)
    {
      ghost var was := bots;
      var todo := targets;
      assert targets - todo == {};
      while todo != {}
        invariant todo <= targets
        invariant bots == was + Rows(was, targets - todo, plugins, tasks)
      {
        var b :| b in todo;
        Materialize(b, plugins, tasks);
        RowsOneMore(was, targets - todo, b, plugins, tasks);
        assert targets - (todo - {b}) == (targets - todo) + {b};
        todo := todo - {b};
      }
      assert targets - todo == targets;
    }

    method DeletePolicy(id: nat, seen: Policy) returns (r: Result<(), Error>)
      modifies this
      ensures match CheckDelete(old(View()), id, seen)
              case Some(e) => r == Err(e) && View() == old(View())
              case None => Done(old(View()), Deleted(old(View()), id), r)
    {
      var s := View();
      var error := CheckDelete(s, id, seen);
      if error.Some? { return Err(error.value); }
      policies := policies - {id};
      r := Commit(s.policies, s.nextId, s.bindings, s.bots);
    }

    /** Switches modules on or off in every policy and every independent account. The catalog of the
        kind is `chosen` when no single module is named. */
    method MutateAll(kind: Kind, enabled: bool, chosen: seq<string>) returns (r: Result<(), Error>)
      requires Linked(View())
      modifies this
      ensures Done(old(View()), SwitchedAll(old(View()), kind, enabled, chosen), r)
    {
      var s := View();
      policies := SwitchedPolicies(s, kind, enabled, chosen);
      SwitchBots(s, kind, enabled, chosen);
      r := Commit(s.policies, s.nextId, s.bindings, s.bots);
    }

    /** The loop over the affected accounts. */
    method SwitchBots(s: Store, kind: Kind, enabled: bool, chosen: seq<string>)
      requires Linked(s) && bots == s.bots
      modifies this`bots
      ensures bots == SwitchedRows(s, kind, enabled, chosen)
    {
      var todo := Accounts(s);
      WrittenStarts(s.bots, SwitchedRows(s, kind, enabled, chosen), Accounts(s));
      while todo != {}
        invariant todo <= Accounts(s)
        invariant Written(s.bots, SwitchedRows(s, kind, enabled, chosen), Accounts(s), bots, todo)
      {
        todo := SwitchNext(s, todo, kind, enabled, chosen);
      }
      WrittenEnds(s.bots, SwitchedRows(s, kind, enabled, chosen), Accounts(s), bots);
    }

    method SwitchNext(s: Store, todo: set<string>, kind: Kind, enabled: bool, chosen: seq<string>) returns (left: set<string>)
      requires Linked(s) && {} != todo <= Accounts(s)
      requires Written(s.bots, SwitchedRows(s, kind, enabled, chosen), Accounts(s), bots, todo)
      modifies this`bots
      ensures left < todo
      ensures Written(s.bots, SwitchedRows(s, kind, enabled, chosen), Accounts(s), bots, left)
    {
      var b :| b in todo;
      left := todo - {b};
      WrittenStep(s.bots, SwitchedRows(s, kind, enabled, chosen), Accounts(s), bots, todo, b);
      var lists := SwitchedLists(s, b, kind, enabled, chosen);
      Materialize(b, lists.0, lists.1);
    }

    /** What a loop that writes these rows has done when some accounts are still to be looked at. */
    static ghost predicate Written(was: map<string, BotRow>, rows: map<string, BotRow>, accounts: set<string>,
                                   bots: map<string, BotRow>, todo: set<string>)
    {
      bots == was + Part(rows, accounts - todo)
    }

    static lemma WrittenStarts(was: map<string, BotRow>, rows: map<string, BotRow>, accounts: set<string>)
      ensures Written(was, rows, accounts, was, accounts)
    {
      assert Part(rows, accounts - accounts) == map[];
    }

    static lemma WrittenEnds(was: map<string, BotRow>, rows: map<string, BotRow>, accounts: set<string>, bots: map<string, BotRow>)
      requires rows.Keys <= accounts && Written(was, rows, accounts, bots, {})
      ensures bots == was + rows
      ensures was.Keys <= rows.Keys ==> bots == rows
    {
      assert Part(rows, accounts - {}) == rows;
    }

    static lemma WrittenStep(was: map<string, BotRow>, rows: map<string, BotRow>, accounts: set<string>,
                             bots: map<string, BotRow>, todo: set<string>, b: string)
      requires b in todo && todo <= accounts && Written(was, rows, accounts, bots, todo)
      ensures Get(bots, b) == Get(was, b)
      ensures Written(was, rows, accounts, if b in rows then bots[b := rows[b]] else bots, todo - {b})
    {
      PartOneMore(was, rows, accounts - todo, b);
      assert accounts - (todo - {b}) == accounts - todo + {b};
    }

    /** Repairs every account whose copy is not what it should be. */
    method Reconcile() returns (r: Result<seq<string>, Error>)
      modifies this
      ensures Done(old(View()), Reconciled(old(View())), if r.Ok? then Ok(()) else Err(r.error))
      ensures r.Ok? ==> ListsOnce(r.value, Broken(old(View())))
    {
      var s := View();
      var changed := Repair(s);
      assert View() == Reconciled(s);
      var done := Commit(s.policies, s.nextId, s.bindings, s.bots);
      r := if done.Ok? then Ok(changed) else Err(done.error);
    }

    method Repair(s: Store) returns (changed: seq<string>)
      requires bots == s.bots
      modifies this`bots
      ensures bots == s.bots + Repairs(s) && ListsOnce(changed, Broken(s))
    {
      RepairingStarts(s);
      changed := RepairAll(s);
      RepairingEnds(s, bots, changed);
    }

    /** The loop over all accounts. */
    method RepairAll(s: Store) returns (changed: seq<string>)
      requires Repairing(s, bots, Accounts(s), [])
      modifies this`bots
      ensures Repairing(s, bots, {}, changed)
    {
      var todo := Accounts(s);
      changed := [];
      while todo != {}
        invariant Repairing(s, bots, todo, changed)
      {
        todo, changed := RepairNext(s, todo, changed);
      }
    }

    /** The accounts outside `todo` have been repaired, and those that needed it are listed. */
    static ghost predicate Repairing(s: Store, bots: map<string, BotRow>, todo: set<string>, changed: seq<string>) {
      && todo <= Accounts(s)
      && Written(s.bots, Repairs(s), Accounts(s), bots, todo)
      && ListsOnce(changed, Broken(s) - todo)
    }

    static lemma RepairingStarts(s: Store)
      ensures Repairing(s, s.bots, Accounts(s), [])
    {
      WrittenStarts(s.bots, Repairs(s), Accounts(s));
      ListsEnd([], Broken(s), Accounts(s));
    }

    static lemma RepairingEnds(s: Store, bots: map<string, BotRow>, changed: seq<string>)
      requires Repairing(s, bots, {}, changed)
      ensures bots == s.bots + Repairs(s) && ListsOnce(changed, Broken(s))
    {
      WrittenEnds(s.bots, Repairs(s), Accounts(s), bots);
      ListsEnd(changed, Broken(s), Accounts(s));
    }

    /** A list of these accounts, each once. */
    static ghost predicate ListsOnce(list: seq<string>, bots: set<string>) {
      Lists.Elements(list) == bots && |list| == |bots|
    }

    static lemma ListsEnd(changed: seq<string>, broken: set<string>, accounts: set<string>)
      requires broken <= accounts
      ensures ListsOnce([], broken - accounts)
      ensures ListsOnce(changed, broken - {}) ==> ListsOnce(changed, broken)
    {
      assert broken - accounts == {} && broken - {} == broken;
    }

    static lemma ListsStep(changed: seq<string>, broken: set<string>, todo: set<string>, b: string)
      requires b in todo && ListsOnce(changed, broken - todo)
      ensures ListsOnce(if b in broken then changed + [b] else changed, broken - (todo - {b}))
    {
      assert broken - (todo - {b}) == if b in broken then broken - todo + {b} else broken - todo;
    }

    method RepairNext(s: Store, todo: set<string>, changed: seq<string>) returns (left: set<string>, more: seq<string>)
      requires {} != todo && Repairing(s, bots, todo, changed)
      modifies this`bots
      ensures left < todo && Repairing(s, bots, left, more)
    {
      var b :| b in todo;
      left, more := todo - {b}, changed;
      WrittenStep(s.bots, Repairs(s), Accounts(s), bots, todo, b);
      ListsStep(changed, Broken(s), todo, b);
      var (plugins, tasks) := Expected(s, b);
      if b !in s.bots || s.bots[b].plugins != Encode(plugins) || s.bots[b].tasks != Encode(tasks) {
        Materialize(b, plugins, tasks);
        more := changed + [b];
      }
    }

    /** The next target has not been handled yet. */
    static lemma OneMore(targets: seq<string>, i: nat)
      requires Text.Ascending(targets) && i < |targets|
      ensures targets[i] !in Lists.Elements(targets[..i])
      ensures Lists.Elements(targets[..i + 1]) == Lists.Elements(targets[..i]) + {targets[i]}
    {
      assert targets[..i + 1] == targets[..i] + [targets[i]];
      forall j | 0 <= j < i ensures targets[j] != targets[i] { Text.BeforeIsTotal(targets[j], targets[i]); }
    }

    static lemma DetachedOneMore(s: Store, targets: seq<string>, i: nat, plugins: seq<string>, tasks: seq<string>)
      requires Text.Ascending(targets) && i < |targets|
      ensures var d, b := Detached(s, Lists.Elements(targets[..i]), plugins, tasks), targets[i];
              Detached(s, Lists.Elements(targets[..i + 1]), plugins, tasks)
              == d.(bindings := d.bindings - {b}, bots := d.bots[b := Row(Get(d.bots, b), plugins, tasks)])
    {
      var done, b := Lists.Elements(targets[..i]), targets[i];
      OneMore(targets, i);
      RowsOneMore(s.bots, done, b, plugins, tasks);
      assert s.bindings - (done + {b}) == s.bindings - done - {b};
      assert Get(s.bots + Rows(s.bots, done, plugins, tasks), b) == Get(s.bots, b);
    }

    static lemma BoundOneMore(s: Store, targets: seq<string>, i: nat, id: nat)
      requires Text.Ascending(targets) && i < |targets| && id in s.policies
      ensures var d, b, p := Bound(s, Lists.Elements(targets[..i]), id), targets[i], s.policies[id];
              Bound(s, Lists.Elements(targets[..i + 1]), id)
              == d.(bindings := d.bindings[b := id], bots := d.bots[b := Row(Get(d.bots, b), p.plugins, p.tasks)])
    {
      var done, b, p := Lists.Elements(targets[..i]), targets[i], s.policies[id];
      OneMore(targets, i);
      RowsOneMore(s.bots, done, b, p.plugins, p.tasks);
      LinksOneMore(s.bindings, done, b, id);
      assert Get(s.bots + Rows(s.bots, done, p.plugins, p.tasks), b) == Get(s.bots, b);
    }
  }
}
