/** The budget commands as they run, each against the decision it has to take. */
module BudgetService {
  import opened Domain
  import opened Sums
  import opened BudgetRows
  import opened Budgets

  class Service {
    var budgets: map<BudgetKey, Budget>
    var log: map<BudgetKey, seq<Revision>>
    var replies: map<string, Recorded>
    var frozen: map<int, map<string, Group>>
    var spent: map<BudgetKey, Spent>
    var categories: map<Id, Category>

    function Snapshot(): Books
      reads this
    {
      Books(budgets, log, replies, frozen, spent, categories)
    }

    constructor (b: Books)
      ensures Snapshot() == b
    {
      budgets, log, replies, frozen, spent, categories := b.budgets, b.log, b.replies, b.frozen, b.spent, b.categories;
    }

    /** Out of a closed month from its planning snapshot, out of an open one from the plan as it stands. */
    method RolloverInto(k: BudgetKey) returns (r: Rollover)
      ensures r == PreviousRollover(Snapshot(), k)
      ensures var before := (k.0 - 1, k.1);
        if before.0 in frozen then
          && !r.provisional
          && if k.1 in frozen[before.0] then CarriesOver(r, frozen[before.0][k.1].policy, frozen[before.0][k.1].remaining)
             else r.amount == 0 && r.source == NoRollover
        else
          && r.provisional
          && if before in budgets && !budgets[before].deleted then
               CarriesOver(r, budgets[before].policy, PlannedSum(budgets[before].allocations) - SpentIn(Snapshot(), before).expense)
             else r.amount == 0 && r.source == NoRollover
    {
      if (k.0 - 1, k.1) in budgets {
        PlannedIsSum(budgets[(k.0 - 1, k.1)].allocations);
      }
      hide SumOver;
      var before := (k.0 - 1, k.1);
      if before.0 in frozen {
        var groups := frozen[before.0];
        if k.1 in groups {
          return Rollover(Carry(groups[k.1].policy, groups[k.1].remaining), groups[k.1].policy, false);
        }
        return Rollover(0, NoRollover, false);
      }
      if before !in budgets || budgets[before].deleted {
        return Rollover(0, NoRollover, true);
      }
      var planned := PlannedTotal(budgets[before].allocations);
      var remaining := planned - SpentIn(Snapshot(), before).expense;
      return Rollover(Carry(budgets[before].policy, remaining), budgets[before].policy, true);
    }

    method Project(k: BudgetKey, budget: Budget) returns (group: Group)
      ensures group == LiveGroup(Snapshot(), k, budget)
      ensures group.rollover == PreviousRollover(Snapshot(), k)
      ensures group.capacity == budget.plannedIncome + group.rollover.amount
      ensures group.unplanned + group.planned == group.capacity && group.planned == PlannedSum(budget.allocations)
      ensures group.remaining + group.actualExpense == group.planned
      ensures group.budgetedActual + group.unbudgetedActual == group.actualExpense == SpentIn(Snapshot(), k).expense
    {
      PlannedIsSum(budget.allocations);
      hide SumOver;
      var actual := SpentIn(Snapshot(), k);
      var planned := PlannedTotal(budget.allocations);
      var budgeted := 0;
      for i := 0 to |budget.allocations|
        invariant budgeted == OnAllocated(budget.allocations, actual.byCategory, i)
      {
        budgeted := budgeted + Get(actual.byCategory, Some(budget.allocations[i].category));
      }
      var rollover := RolloverInto(k);
      var capacity := budget.plannedIncome + rollover.amount;
      group := Group(budget.version, budget.deleted, budget.plannedIncome, budget.policy, planned, actual.expense,
                     budgeted, actual.expense - budgeted, planned - actual.expense, rollover, capacity,
                     capacity - planned);
    }

    method RecordSuccess(key: string, c: Command, budget: Budget) returns (reply: Reply)
      modifies this
      ensures Snapshot() == Record(old(Snapshot()), key, c, budget)
      ensures reply == Success(Snapshot().replies[key].group)
    {
      var k := KeyOf(c);
      budgets := budgets[k := budget];
      var group := Project(k, budget);
      var number := MaxNumber(LogOf(Snapshot(), k)) + 1;
      log := log[k := LogOf(Snapshot(), k) + [Revision(number, budget, key)]];
      replies := replies[key := Recorded(c, group)];
      reply := Success(group);
    }

    method Replay(key: string, c: Command) returns (found: Option<Reply>)
      ensures found == None <==> key !in replies
      ensures found.Some? ==> Handle(Snapshot(), key, c) == (Snapshot(), found.value)
    {
      if key !in replies {
        return None;
      }
      if !SameRequest(replies[key].command, c) {
        return Some(Refused(IdempotencyConflict));
      }
      return Some(Success(replies[key].group));
    }

    method UpsertPeriod(key: string, c: Command) returns (reply: Reply)
      requires c.Upsert?
      modifies this
      ensures (Snapshot(), reply) == Handle(old(Snapshot()), key, c)
    {
      hide LiveGroup, MaxNumber, SameRequest, AllocationsValid;
      var replayed := Replay(key, c);
      if replayed.Some? {
        return replayed.value;
      }
      if c.month in frozen {
        return Refused(PeriodFrozen);
      }
      var k := KeyOf(c);
      if k in budgets && budgets[k].deleted {
        return Refused(RestoreRequired);
      }
      if k !in budgets && c.version.Some? {
        return Refused(NotFound);
      }
      if k in budgets && (c.version == None || budgets[k].version != c.version.value) {
        return Refused(VersionConflict);
      }
      if !AllocationsValid(categories, c.allocations) {
        return Refused(AllocationInvalid);
      }
      var budget;
      if k !in budgets {
        budget := Budget(c.plannedIncome, c.policy, c.allocations, 1, false);
      } else {
        budget := budgets[k].(plannedIncome := c.plannedIncome, policy := c.policy);
        budget := budget.(version := budget.version + 1, allocations := c.allocations);
      }
      reply := RecordSuccess(key, c, budget);
    }

    method DeletePeriod(key: string, c: Command) returns (reply: Reply)
      requires c.Remove?
      modifies this
      ensures (Snapshot(), reply) == Handle(old(Snapshot()), key, c)
    {
      hide LiveGroup, MaxNumber, SameRequest;
      var replayed := Replay(key, c);
      if replayed.Some? {
        return replayed.value;
      }
      if c.month in frozen {
        return Refused(PeriodFrozen);
      }
      var k := KeyOf(c);
      if k !in budgets || budgets[k].deleted {
        return Refused(NotFound);
      }
      if budgets[k].version != c.removed {
        return Refused(VersionConflict);
      }
      reply := RecordSuccess(key, c, budgets[k].(deleted := true, version := budgets[k].version + 1));
    }

    method RestorePeriod(key: string, c: Command) returns (reply: Reply)
      requires c.Restore?
      modifies this
      ensures (Snapshot(), reply) == Handle(old(Snapshot()), key, c)
    {
      hide LiveGroup, MaxNumber, SameRequest, AllocationsValid;
      var replayed := Replay(key, c);
      if replayed.Some? {
        return replayed.value;
      }
      if c.month in frozen {
        return Refused(PeriodFrozen);
      }
      var k := KeyOf(c);
      if k !in budgets || !budgets[k].deleted {
        return Refused(NotFound);
      }
      if budgets[k].version != c.restored {
        return Refused(VersionConflict);
      }
      if !AllocationsValid(categories, budgets[k].allocations) {
        return Refused(AllocationInvalid);
      }
      reply := RecordSuccess(key, c, budgets[k].(deleted := false, version := budgets[k].version + 1));
    }

    method CopyPeriod(key: string, c: Command) returns (reply: Reply)
      requires c.Copy?
      modifies this
      ensures (Snapshot(), reply) == Handle(old(Snapshot()), key, c)
    {
      hide LiveGroup, MaxNumber, SameRequest, AllocationsValid;
      var replayed := Replay(key, c);
      if replayed.Some? {
        return replayed.value;
      }
      if c.month in frozen {
        return Refused(PeriodFrozen);
      }
      var from, k := (c.from, c.currency), KeyOf(c);
      if from !in budgets || budgets[from].deleted {
        return Refused(CopySourceNotFound);
      }
      var source := budgets[from];
      if !AllocationsValid(categories, source.allocations) {
        return Refused(AllocationInvalid);
      }
      if k in budgets && budgets[k].deleted {
        return Refused(RestoreRequired);
      }
      if k in budgets && !c.overwrite {
        return Refused(CopyTargetExists);
      }
      if k in budgets && (c.version == None || budgets[k].version != c.version.value) {
        return Refused(VersionConflict);
      }
      var version := if k in budgets then budgets[k].version + 1 else 1;
      reply := RecordSuccess(key, c, Budget(source.plannedIncome, source.policy, source.allocations, version, false));
    }
  }

  method PlannedTotal(allocations: seq<Allocation>) returns (total: int)
    ensures total == Planned(allocations)
  {
    total := 0;
    for i := 0 to |allocations|
      invariant total == Planned(allocations[..i])
    {
      assert allocations[..i + 1][..i] == allocations[..i];
      total := total + allocations[i].planned;
    }
    assert allocations[..|allocations|] == allocations;
  }
}
