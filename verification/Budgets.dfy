/** Budget plans: the projection of one month, the rollover from its predecessor, the commands with their
    revision log and idempotency keys, and month close. A month is its number, so the previous month is
    one less. */
module Budgets {
  import opened Domain
  import opened Sums
  import opened BudgetRows

  datatype Policy = NoRollover | PositiveOnly | Full

  datatype Budget = Budget(plannedIncome: int, policy: Policy, allocations: seq<Allocation>, version: nat, deleted: bool)

  type BudgetKey = (int, string)

  /** What the projection of actuals yields for one month and currency. */
  datatype Spent = Spent(expense: int, byCategory: map<Option<Id>, int>)

  datatype Rollover = Rollover(amount: int, source: Policy, provisional: bool)

  datatype Group = Group(
    version: nat,
    deleted: bool,
    plannedIncome: int,
    policy: Policy,
    planned: int,
    actualExpense: int,
    budgetedActual: int,
    unbudgetedActual: int,
    remaining: int,
    rollover: Rollover,
    capacity: int,
    unplanned: int)

  datatype Command =
    | Upsert(month: int, currency: string, version: Option<nat>, plannedIncome: int, policy: Policy,
             allocations: seq<Allocation>)
    | Remove(month: int, currency: string, removed: nat)
    | Restore(month: int, currency: string, restored: nat)
    | Copy(month: int, currency: string, from: int, overwrite: bool, version: Option<nat>)

  datatype Refusal =
    | IdempotencyConflict | PeriodFrozen | RestoreRequired | NotFound | VersionConflict
    | AllocationInvalid | CopySourceNotFound | CopyTargetExists

  datatype Reply = Success(group: Group) | Refused(reason: Refusal)

  datatype Revision = Revision(number: nat, plan: Budget, key: string)

  /** The stored request: its hash is an injective function of the command with the allocations sorted. */
  datatype Recorded = Recorded(command: Command, group: Group)

  /** `frozen` holds, for every confirmed closure, the groups of its planning snapshot by currency. */
  datatype Books = Books(
    budgets: map<BudgetKey, Budget>,
    log: map<BudgetKey, seq<Revision>>,
    replies: map<string, Recorded>,
    frozen: map<int, map<string, Group>>,
    spent: map<BudgetKey, Spent>,
    categories: map<Id, Category>)

  // ----- projection and rollover -----

  function SpentIn(b: Books, k: BudgetKey): Spent {
    if k in b.spent then b.spent[k] else Spent(0, map[])
  }

  function Carry(policy: Policy, remaining: int): int {
    match policy
    case Full => remaining
    case PositiveOnly => if remaining > 0 then remaining else 0
    case NoRollover => 0
  }

  ghost function PlannedSum(allocations: seq<Allocation>): int {
    SumOver(Places(allocations), PlannedAt(allocations))
  }

  /** Under `full` everything left is carried, a shortfall too; under `positive only` what is left, but no
      shortfall; otherwise nothing. */
  predicate CarriesOver(r: Rollover, policy: Policy, remaining: int) {
    && r.source == policy
    && (policy == Full ==> r.amount == remaining)
    && (policy == PositiveOnly ==> r.amount >= 0 && r.amount >= remaining && (r.amount == 0 || r.amount == remaining))
    && (policy == NoRollover ==> r.amount == 0)
  }

  function PreviousRollover(b: Books, k: BudgetKey): Rollover {
    var before := (k.0 - 1, k.1);
    if before.0 in b.frozen then
      var groups := b.frozen[before.0];
      if k.1 in groups then Rollover(Carry(groups[k.1].policy, groups[k.1].remaining), groups[k.1].policy, false)
      else Rollover(0, NoRollover, false)
    else if before !in b.budgets || b.budgets[before].deleted then
      Rollover(0, NoRollover, true)
    else
      var budget := b.budgets[before];
      Rollover(Carry(budget.policy, Planned(budget.allocations) - SpentIn(b, before).expense), budget.policy, true)
  }

  function LiveGroup(b: Books, k: BudgetKey, budget: Budget): Group {
    var spent := SpentIn(b, k);
    var planned := Planned(budget.allocations);
    var budgeted := OnAllocated(budget.allocations, spent.byCategory, |budget.allocations|);
    var rollover := PreviousRollover(b, k);
    var capacity := budget.plannedIncome + rollover.amount;
    Group(budget.version, budget.deleted, budget.plannedIncome, budget.policy, planned, spent.expense, budgeted,
          spent.expense - budgeted, planned - spent.expense, rollover, capacity, capacity - planned)
  }

  // ----- commands -----

  function Canonical(c: Command): Command {
    if c.Upsert? then c.(allocations := []) else c
  }

  predicate SameRequest(c: Command, d: Command) {
    && Canonical(c) == Canonical(d)
    && (c.Upsert? && d.Upsert? ==> multiset(c.allocations) == multiset(d.allocations))
  }

  predicate CategoryUsable(categories: map<Id, Category>, c: Id) {
    && c in categories && !categories[c].deleted && !categories[c].archived
    && categories[c].categoryType != IncomeOnly
  }

  predicate AllocationsValid(categories: map<Id, Category>, allocations: seq<Allocation>) {
    && DistinctCategories(allocations)
    && forall i :: 0 <= i < |allocations| ==> CategoryUsable(categories, allocations[i].category)
  }

  datatype Decision = Write(budget: Budget) | No(reason: Refusal)

  function NextVersion(existing: Option<Budget>): nat {
    if existing == None then 1 else existing.value.version + 1
  }

  function KeyOf(c: Command): BudgetKey {
    (c.month, c.currency)
  }

  /** The row an accepted command leaves, or why it is refused, in the order the source checks. */
  function Decide(b: Books, c: Command): Decision {
    var existing := if KeyOf(c) in b.budgets then Some(b.budgets[KeyOf(c)]) else None;
    if c.month in b.frozen then No(PeriodFrozen)
    else match c {
      case Upsert(_, _, version, income, policy, allocations) =>
        if existing.Some? && existing.value.deleted then No(RestoreRequired)
        else if existing == None && version.Some? then No(NotFound)
        else if existing.Some? && version != Some(existing.value.version) then No(VersionConflict)
        else if !AllocationsValid(b.categories, allocations) then No(AllocationInvalid)
        else Write(Budget(income, policy, allocations, NextVersion(existing), false))
      case Remove(_, _, version) =>
        if existing == None || existing.value.deleted then No(NotFound)
        else if existing.value.version != version then No(VersionConflict)
        else Write(existing.value.(deleted := true, version := version + 1))
      case Restore(_, _, version) =>
        if existing == None || !existing.value.deleted then No(NotFound)
        else if existing.value.version != version then No(VersionConflict)
        else if !AllocationsValid(b.categories, existing.value.allocations) then No(AllocationInvalid)
        else Write(existing.value.(deleted := false, version := version + 1))
      case Copy(_, currency, from, overwrite, version) =>
        if (from, currency) !in b.budgets || b.budgets[(from, currency)].deleted then No(CopySourceNotFound)
        else
          var source := b.budgets[(from, currency)];
          if !AllocationsValid(b.categories, source.allocations) then No(AllocationInvalid)
          else if existing.Some? && existing.value.deleted then No(RestoreRequired)
          else if existing.Some? && !overwrite then No(CopyTargetExists)
          else if existing.Some? && version != Some(existing.value.version) then No(VersionConflict)
          else Write(Budget(source.plannedIncome, source.policy, source.allocations, NextVersion(existing), false))
    }
  }

  function LogOf(b: Books, k: BudgetKey): seq<Revision> {
    if k in b.log then b.log[k] else []
  }

  function MaxNumber(log: seq<Revision>): nat {
    if log == [] then 0
    else
      var before := MaxNumber(log[..|log| - 1]);
      if log[|log| - 1].number > before then log[|log| - 1].number else before
  }

  function Record(b: Books, key: string, c: Command, budget: Budget): Books {
    var k := KeyOf(c);
    var b1 := b.(budgets := b.budgets[k := budget]);
    b1.(log := b.log[k := LogOf(b, k) + [Revision(MaxNumber(LogOf(b, k)) + 1, budget, key)]],
        replies := b.replies[key := Recorded(c, LiveGroup(b1, k, budget))])
  }

  function Handle(b: Books, key: string, c: Command): (Books, Reply) {
    if key in b.replies then
      (b, if SameRequest(b.replies[key].command, c) then Success(b.replies[key].group) else Refused(IdempotencyConflict))
    else
      match Decide(b, c)
      case No(reason) => (b, Refused(reason))
      case Write(budget) =>
        var b' := Record(b, key, c, budget);
        (b', Success(b'.replies[key].group))
  }

  // ----- runs -----

  predicate Live(b: Books, month: int, currency: string) {
    (month, currency) in b.budgets && !b.budgets[(month, currency)].deleted
  }

  function LiveCurrencies(b: Books, month: int): set<string> {
    set k | k in b.budgets && k.0 == month && !b.budgets[k].deleted :: k.1
  }

  /** The snapshot built for close: the live groups of the month, with their rollover final. */
  function CloseSnapshot(b: Books, month: int): map<string, Group> {
    map c | c in LiveCurrencies(b, month) ::
      var group := LiveGroup(b, (month, c), b.budgets[(month, c)]);
      group.(rollover := group.rollover.(provisional := false))
  }

  datatype Action =
    | Do(key: string, command: Command)
    | Close(month: int)
    | Spend(spentKey: BudgetKey, spentNow: Spent)
    | SetCategory(category: Id, row: Category)

  /** Transactions may change the actuals of any month: a refund booked in a closed month follows the type
      and the splits of its original. */
  ghost function Step(b: Books, a: Action): Books {
    match a
    case Do(key, command) => Handle(b, key, command).0
    case Close(month) => if month in b.frozen then b else b.(frozen := b.frozen[month := CloseSnapshot(b, month)])
    case Spend(k, now) =>
      if Total(now.byCategory) != now.expense then b else b.(spent := b.spent[k := now])
    case SetCategory(category, row) => b.(categories := b.categories[category := row])
  }

  ghost function Run(b: Books, actions: seq<Action>): Books
    decreases |actions|
  {
    if actions == [] then b else Step(Run(b, actions[..|actions| - 1]), actions[|actions| - 1])
  }

  // ----- what every run keeps -----

  /** A budget's log numbers its revisions 1, 2, ... without a gap; the number is the version of the plan
      it holds, and the last revision is the budget itself. */
  ghost predicate LogHolds(b: Books, k: BudgetKey) {
    && (k in b.budgets <==> LogOf(b, k) != [])
    && (forall i :: 0 <= i < |LogOf(b, k)| ==> LogOf(b, k)[i].number == i + 1 == LogOf(b, k)[i].plan.version)
    && (k in b.budgets ==>
          LogOf(b, k)[|LogOf(b, k)| - 1].plan == b.budgets[k] && DistinctCategories(b.budgets[k].allocations))
  }

  ghost predicate InLog(b: Books, k: BudgetKey, i: int, key: string) {
    0 <= i < |LogOf(b, k)| && LogOf(b, k)[i].key == key
  }

  /** Every key stands for exactly one revision, and every revision has its key. */
  ghost predicate KeysHold(b: Books) {
    && (forall k, i, key :: InLog(b, k, i, key) ==> key in b.replies && KeyOf(b.replies[key].command) == k)
    && (forall k, i, j, key :: InLog(b, k, i, key) && InLog(b, k, j, key) ==> i == j)
    && (forall key :: key in b.replies ==> exists i :: InLog(b, KeyOf(b.replies[key].command), i, key))
  }

  ghost predicate Valid(b: Books) {
    && (forall k :: LogHolds(b, k))
    && (forall k :: k in b.spent ==> Total(b.spent[k].byCategory) == b.spent[k].expense)
  }

  lemma {:induction false} MaxOfNumbered(log: seq<Revision>)
    requires forall i :: 0 <= i < |log| ==> log[i].number == i + 1
    ensures MaxNumber(log) == |log|
    decreases |log|
  {
    if log != [] {
      MaxOfNumbered(log[..|log| - 1]);
    }
  }

  lemma DecisionFits(b: Books, c: Command)
    requires LogHolds(b, KeyOf(c)) && Decide(b, c).Write?
    ensures Decide(b, c).budget.version == |LogOf(b, KeyOf(c))| + 1
    ensures DistinctCategories(Decide(b, c).budget.allocations)
  {
  }

  lemma RecordKeepsValid(b: Books, key: string, c: Command, budget: Budget)
    requires Valid(b)
    requires budget.version == |LogOf(b, KeyOf(c))| + 1 && DistinctCategories(budget.allocations)
    ensures Valid(Record(b, key, c, budget))
  {
    hide LiveGroup, MaxNumber, Total, DistinctCategories;
    var b', k := Record(b, key, c, budget), KeyOf(c);
    assert LogHolds(b, k);
    MaxOfNumbered(LogOf(b, k));
    forall k' ensures LogHolds(b', k') {
      assert LogHolds(b, k');
    }
  }

  lemma SameLogsKeep(b: Books, b': Books)
    requires Valid(b) && KeysHold(b)
    requires b'.log == b.log && b'.budgets == b.budgets && b'.replies == b.replies
    requires forall k :: k in b'.spent ==> Total(b'.spent[k].byCategory) == b'.spent[k].expense
    ensures Valid(b') && KeysHold(b')
  {
    hide Total, DistinctCategories;
    forall k ensures LogHolds(b', k) {
      assert LogHolds(b, k);
    }
    assert forall k, i, key :: InLog(b', k, i, key) <==> InLog(b, k, i, key);
  }

  lemma HandleKeeps(b: Books, key: string, c: Command)
    requires Valid(b) && KeysHold(b)
    ensures Valid(Handle(b, key, c).0) && KeysHold(Handle(b, key, c).0)
  {
    hide Decide, Record, KeysHold;
    if key !in b.replies && Decide(b, c).Write? {
      assert LogHolds(b, KeyOf(c));
      DecisionFits(b, c);
      RecordKeepsValid(b, key, c, Decide(b, c).budget);
      RecordKeepsKeys(b, key, c, Decide(b, c).budget);
    }
  }

  lemma StepKeeps(b: Books, a: Action)
    requires Valid(b) && KeysHold(b)
    ensures Valid(Step(b, a)) && KeysHold(Step(b, a))
  {
    hide Handle, CloseSnapshot, KeysHold, LogHolds;
    match a
    case Do(key, c) => HandleKeeps(b, key, c);
    case Close(_) => SameLogsKeep(b, Step(b, a));
    case Spend(_, _) => SameLogsKeep(b, Step(b, a));
    case SetCategory(_, _) => SameLogsKeep(b, Step(b, a));
  }

  lemma RecordKeepsKeys(b: Books, key: string, c: Command, budget: Budget)
    requires KeysHold(b) && key !in b.replies
    ensures KeysHold(Record(b, key, c, budget))
  {
    hide LiveGroup, MaxNumber;
    var b', k := Record(b, key, c, budget), KeyOf(c);
    var n := |LogOf(b, k)|;
    forall k', i, x ensures InLog(b', k', i, x) <==> InLog(b, k', i, x) || (k' == k && i == n && x == key) {
    }
    forall x | x in b'.replies ensures exists i :: InLog(b', KeyOf(b'.replies[x].command), i, x) {
      if x == key {
        assert InLog(b', k, n, key);
      } else {
        var i :| InLog(b, KeyOf(b.replies[x].command), i, x);
        assert InLog(b', KeyOf(b'.replies[x].command), i, x);
      }
    }
  }

  lemma {:induction false} RunKeeps(b: Books, actions: seq<Action>)
    requires Valid(b) && KeysHold(b)
    ensures Valid(Run(b, actions)) && KeysHold(Run(b, actions))
    decreases |actions|
  {
    hide Valid, KeysHold, Step;
    if actions != [] {
      RunKeeps(b, actions[..|actions| - 1]);
      StepKeeps(Run(b, actions[..|actions| - 1]), actions[|actions| - 1]);
    }
  }

  /** From empty books, after any run: revision numbers are 1 to the budget's version, the last revision is
      the budget, and every idempotency key stands for exactly one revision. */
  lemma RevisionLog(b: Books, actions: seq<Action>, k: BudgetKey)
    requires b.budgets == map[] && b.log == map[] && b.replies == map[] && b.spent == map[]
    ensures var b' := Run(b, actions);
      && LogHolds(b', k) && KeysHold(b')
      && (k in b'.budgets ==> |LogOf(b', k)| == b'.budgets[k].version)
  {
    hide Step;
    assert Valid(b) && KeysHold(b);
    RunKeeps(b, actions);
    assert LogHolds(Run(b, actions), k);
  }

  /** What no run takes back: recorded replies, and everything about a frozen month. */
  ghost predicate Persists(b: Books, b': Books) {
    && (forall key :: key in b.replies ==> key in b'.replies && b'.replies[key] == b.replies[key])
    && (forall m :: m in b.frozen ==> m in b'.frozen && b'.frozen[m] == b.frozen[m])
    && (forall k: BudgetKey :: Unmoved(b, b', k))
  }

  /** A frozen month keeps its budget. */
  predicate Unmoved(b: Books, b': Books, k: BudgetKey) {
    k.0 in b.frozen ==>
      && (k in b.budgets <==> k in b'.budgets)
      && (k in b.budgets ==> b'.budgets[k] == b.budgets[k])
  }

  lemma HandlePersists(b: Books, key: string, c: Command)
    ensures Persists(b, Handle(b, key, c).0)
  {
    hide LiveGroup, MaxNumber;
    assert Decide(b, c).Write? ==> c.month !in b.frozen;
    hide Decide;
  }

  lemma StepPersists(b: Books, a: Action)
    ensures Persists(b, Step(b, a))
  {
    hide Handle, CloseSnapshot, Total;
    if a.Do? {
      HandlePersists(b, a.key, a.command);
    }
  }

  lemma PersistsTransitive(b: Books, b1: Books, b2: Books)
    requires Persists(b, b1) && Persists(b1, b2)
    ensures Persists(b, b2)
  {
    forall k: BudgetKey ensures Unmoved(b, b2, k) {
      var month := k.0;
      assert month in b.frozen ==> month in b1.frozen;
      assert Unmoved(b, b1, k) && Unmoved(b1, b2, k);
    }
  }

  lemma {:induction false} RunPersists(b: Books, actions: seq<Action>)
    ensures Persists(b, Run(b, actions))
    decreases |actions|
  {
    hide Step;
    if actions != [] {
      var before := actions[..|actions| - 1];
      RunPersists(b, before);
      StepPersists(Run(b, before), actions[|actions| - 1]);
      PersistsTransitive(b, Run(b, before), Run(b, actions));
    }
  }

  /** A key answers the same for ever: the same request gets the recorded group, any other a conflict, and
      neither changes anything. */
  lemma KeyReplays(b: Books, key: string, c: Command, actions: seq<Action>, d: Command)
    requires key !in b.replies && Decide(b, c).Write?
    ensures var (b1, reply) := Handle(b, key, c);
      var b2 := Run(b1, actions);
      Handle(b2, key, d) == (b2, if SameRequest(c, d) then reply else Refused(IdempotencyConflict))
  {
    hide Step, LiveGroup, MaxNumber;
    RunPersists(Handle(b, key, c).0, actions);
  }

  /** What counts as the same request: the same command on the same month and currency with the same fields,
      its allocations in any order. */
  lemma SameRequestExactly(c: Command, d: Command)
    ensures SameRequest(c, d) <==>
      || c == d
      || (c.Upsert? && d.Upsert? && c.month == d.month && c.currency == d.currency && c.version == d.version
          && c.plannedIncome == d.plannedIncome && c.policy == d.policy
          && multiset(c.allocations) == multiset(d.allocations))
  {
  }

  // ----- what a decision says -----

  /** Each category once, stored, live, not archived, and not one for income only. */
  predicate Allocatable(categories: map<Id, Category>, allocations: seq<Allocation>) {
    && (forall i, j :: 0 <= i < |allocations| && 0 <= j < |allocations| && i != j ==>
          allocations[i].category != allocations[j].category)
    && (forall i :: 0 <= i < |allocations| ==>
          && allocations[i].category in categories
          && var c := categories[allocations[i].category];
          !c.deleted && !c.archived && (c.categoryType == ExpenseOnly || c.categoryType == Both))
  }

  /** The plan a command asks for: its own, that of the month it copies, or the stored one. */
  ghost predicate PlanAsked(b: Books, c: Command, plan: Budget) {
    match c
    case Upsert(_, _, _, income, policy, allocations) =>
      plan.plannedIncome == income && plan.policy == policy && plan.allocations == allocations && !plan.deleted
    case Copy(_, currency, from, _, _) =>
      && (from, currency) in b.budgets && !b.budgets[(from, currency)].deleted
      && var source := b.budgets[(from, currency)];
      plan.plannedIncome == source.plannedIncome && plan.policy == source.policy
      && plan.allocations == source.allocations && !plan.deleted
    case Remove(_, _, _) => KeyOf(c) in b.budgets && plan == b.budgets[KeyOf(c)].(deleted := true, version := plan.version)
    case Restore(_, _, _) => KeyOf(c) in b.budgets && plan == b.budgets[KeyOf(c)].(deleted := false, version := plan.version)
  }

  /** What each refusal tells about the books. */
  ghost predicate RefusalHolds(b: Books, c: Command, reason: Refusal) {
    var stored := KeyOf(c) in b.budgets;
    match reason
    case PeriodFrozen => c.month in b.frozen
    case RestoreRequired => stored && b.budgets[KeyOf(c)].deleted && (c.Upsert? || c.Copy?)
    case NotFound =>
      match c {
        case Upsert(_, _, version, _, _, _) => !stored && version.Some?
        case Remove(_, _, _) => !stored || b.budgets[KeyOf(c)].deleted
        case Restore(_, _, _) => !stored || !b.budgets[KeyOf(c)].deleted
        case Copy(_, _, _, _, _) => false
      }
    case VersionConflict => stored && NamedVersion(c) != Some(b.budgets[KeyOf(c)].version)
    case AllocationInvalid =>
      match c {
        case Upsert(_, _, _, _, _, allocations) => !Allocatable(b.categories, allocations)
        case Copy(_, currency, from, _, _) =>
          (from, currency) in b.budgets && !Allocatable(b.categories, b.budgets[(from, currency)].allocations)
        case Restore(_, _, _) => stored && !Allocatable(b.categories, b.budgets[KeyOf(c)].allocations)
        case Remove(_, _, _) => false
      }
    case CopySourceNotFound =>
      c.Copy? && ((c.from, c.currency) !in b.budgets || b.budgets[(c.from, c.currency)].deleted)
    case CopyTargetExists => c.Copy? && stored && !c.overwrite
    case IdempotencyConflict => false
  }

  /** An accepted command writes the plan it asks for into an open month, with usable allocations unless it
      deletes; a refused one names a reason that is true of the books. */
  ghost predicate DecisionHolds(b: Books, c: Command, d: Decision) {
    match d
    case Write(plan) =>
      && c.month !in b.frozen && PlanAsked(b, c, plan) && (!c.Remove? ==> Allocatable(b.categories, plan.allocations))
    case No(reason) => RefusalHolds(b, c, reason)
  }

  lemma DecisionMeans(b: Books, c: Command)
    ensures DecisionHolds(b, c, Decide(b, c))
  {
  }

  // ----- versions -----

  function NamedVersion(c: Command): Option<nat> {
    match c
    case Upsert(_, _, version, _, _, _) => version
    case Remove(_, _, version) => Some(version)
    case Restore(_, _, version) => Some(version)
    case Copy(_, _, _, _, version) => version
  }

  predicate AtLeast(b: Books, k: BudgetKey, version: nat) {
    k in b.budgets && version <= b.budgets[k].version
  }

  /** A write takes the version its command names, if the budget exists, and raises it by one. */
  lemma WriteRaises(b: Books, c: Command)
    requires Decide(b, c).Write?
    ensures KeyOf(c) in b.budgets ==>
      && NamedVersion(c) == Some(b.budgets[KeyOf(c)].version)
      && Decide(b, c).budget.version == b.budgets[KeyOf(c)].version + 1
  {
    hide AllocationsValid;
  }

  lemma StepRaises(b: Books, a: Action, k: BudgetKey, version: nat)
    requires AtLeast(b, k, version)
    ensures AtLeast(Step(b, a), k, version)
  {
    hide Decide, LiveGroup, MaxNumber, CloseSnapshot, Total;
    if a.Do? && Decide(b, a.command).Write? {
      WriteRaises(b, a.command);
    }
  }

  lemma {:induction false} RunRaises(b: Books, actions: seq<Action>, k: BudgetKey, version: nat)
    requires AtLeast(b, k, version)
    ensures AtLeast(Run(b, actions), k, version)
    decreases |actions|
  {
    hide Step, AtLeast;
    if actions != [] {
      RunRaises(b, actions[..|actions| - 1], k, version);
      StepRaises(Run(b, actions[..|actions| - 1]), actions[|actions| - 1], k, version);
    }
  }

  /** No lost update: of all commands that name one version of a budget, whenever they come, one at most is
      accepted. */
  lemma VersionWrittenOnce(b: Books, key: string, c: Command, actions: seq<Action>, d: Command)
    requires key !in b.replies && Decide(b, c).Write? && KeyOf(c) in b.budgets
    requires KeyOf(d) == KeyOf(c) && NamedVersion(d) == NamedVersion(c)
    ensures Decide(Run(Handle(b, key, c).0, actions), d).No?
  {
    hide Decide, LiveGroup, MaxNumber, Step;
    WriteRaises(b, c);
    var k := KeyOf(c);
    RunRaises(Handle(b, key, c).0, actions, k, b.budgets[k].version + 1);
    if Decide(Run(Handle(b, key, c).0, actions), d).Write? {
      WriteRaises(Run(Handle(b, key, c).0, actions), d);
    }
  }

  /** Restoring undoes a delete: the plan is back as it was, two versions later. */
  lemma RestoreUndoesDelete(b: Books, key: string, c: Command, d: Command)
    requires key !in b.replies && c.Remove? && Decide(b, c).Write?
    requires d == Restore(c.month, c.currency, c.removed + 1)
    ensures var before := b.budgets[KeyOf(c)];
      Decide(Handle(b, key, c).0, d)
        == if AllocationsValid(b.categories, before.allocations) then Write(before.(version := before.version + 2))
           else No(AllocationInvalid)
  {
    hide LiveGroup, MaxNumber, AllocationsValid;
  }

  // ----- closing a month -----

  lemma StepCloses(b: Books, month: int)
    requires month !in b.frozen
    ensures Step(b, Close(month)) == b.(frozen := b.frozen[month := CloseSnapshot(b, month)])
  {
    hide Handle, CloseSnapshot, Total;
  }

  lemma SnapshotShows(b: Books, month: int, c: string)
    ensures c in CloseSnapshot(b, month) <==> Live(b, month, c)
    ensures Live(b, month, c) ==>
      var budget, group := b.budgets[(month, c)], CloseSnapshot(b, month)[c];
      group.policy == budget.policy
      && group.remaining == Planned(budget.allocations) - SpentIn(b, (month, c)).expense
  {
    hide PreviousRollover, OnAllocated, Planned;
    assert Live(b, month, c) <==> c in LiveCurrencies(b, month);
  }

  lemma RolloverAfterClose(b: Books, month: int, k: BudgetKey)
    requires month !in b.frozen
    ensures var before := PreviousRollover(b, k);
      PreviousRollover(Step(b, Close(month)), k)
        == if k.0 - 1 == month then before.(provisional := false) else before
  {
    hide Step, Carry, CloseSnapshot, Planned;
    StepCloses(b, month);
    SnapshotShows(b, month, k.1);
  }

  /** Closing a month moves no money: every rollover keeps amount and policy, and loses only its
      provisional mark if it comes from the closed month; every projection is otherwise the same. */
  lemma CloseMovesNoMoney(b: Books, month: int, k: BudgetKey, budget: Budget)
    requires month !in b.frozen
    ensures var b', before := Step(b, Close(month)), PreviousRollover(b, k);
      && PreviousRollover(b', k) == (if k.0 - 1 == month then before.(provisional := false) else before)
      && LiveGroup(b', k, budget) == LiveGroup(b, k, budget).(rollover := PreviousRollover(b', k))
  {
    hide PreviousRollover, LiveGroup, Handle, CloseSnapshot;
    RolloverAfterClose(b, month, k);
    SameProjection(b, Step(b, Close(month)), k, budget);
  }

  /** A projection depends on the rest of the books through actuals and rollover only. */
  lemma SameProjection(b: Books, b': Books, k: BudgetKey, budget: Budget)
    requires b'.spent == b.spent && PreviousRollover(b', k).amount == PreviousRollover(b, k).amount
    ensures LiveGroup(b', k, budget) == LiveGroup(b, k, budget).(rollover := PreviousRollover(b', k))
  {
    hide PreviousRollover, OnAllocated, Planned;
  }

  /** ... and from then on the rollover out of the closed month is final, whatever happens afterwards. */
  lemma ClosedRolloverIsFinal(b: Books, month: int, currency: string, actions: seq<Action>)
    requires month !in b.frozen
    ensures var k := (month + 1, currency);
      PreviousRollover(Run(Step(b, Close(month)), actions), k) == PreviousRollover(b, k).(provisional := false)
  {
    CloseMovesNoMoney(b, month, (month + 1, currency), Budget(0, NoRollover, [], 0, false));
    RunPersists(Step(b, Close(month)), actions);
  }

  /** What a group shows as unbudgeted is the actual expense on the categories without an allocation. */
  lemma UnbudgetedIsTheRest(b: Books, k: BudgetKey)
    requires Valid(b) && k in b.budgets
    ensures LiveGroup(b, k, b.budgets[k]).unbudgetedActual
         == OffAllocated(b.budgets[k].allocations, SpentIn(b, k).byCategory)
  {
    assert LogHolds(b, k);
    AllocatedAndRest(b.budgets[k].allocations, SpentIn(b, k).byCategory);
  }
}
