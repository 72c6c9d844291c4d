/** The row locks the services take, in the order they take them, and why they never deadlock. Locks are
    held until the database transaction ends. */
module Locking {
  import opened Domain

  datatype Resource =
    | Gate
    | Month
    | AccountRow(account: Id)
    | TxRow(tx: Id)
    | BudgetRow(budget: Id)
    | RuleRow(rule: Id)
    | CategoryRow(category: Id)
    | PayeeRow(payee: Id)

  datatype Mode = Shared | Exclusive
  datatype Lock = Lock(resource: Resource, mode: Mode)

  predicate Conflict(a: Lock, b: Lock) {
    a.resource == b.resource && (a.mode == Exclusive || b.mode == Exclusive)
  }

  /** One database transaction of each service. A created row has no lock of its own. */
  datatype Program =
    | ExecutorRun(tx: Id, rule: Id, category: Id)
    | RuleRun(ruleRow: Option<Id>, payee: Option<Id>)
    | TransactionRun(txRow: Option<Id>, payee: Option<Id>)
    | AccountRun(accountRow: Option<Id>)
    | ReconciliationRun(account: Id, txs: seq<Id>)
    | MonthRun(budgets: seq<Id>)
    | CategoryRun(category: Id)
    | PayeeRun(payeeRow: Id)

  function OptionalLock(id: Option<Id>, lock: Id -> Lock): seq<Lock> {
    if id == None then [] else [lock(id.value)]
  }

  function EachLock(ids: seq<Id>, lock: Id -> Lock): (locks: seq<Lock>)
    ensures |locks| == |ids| && forall i :: 0 <= i < |ids| ==> locks[i] == lock(ids[i])
  {
    seq(|ids|, i requires 0 <= i < |ids| => lock(ids[i]))
  }

  function Locks(p: Program): seq<Lock> {
    match p
    case ExecutorRun(tx, rule, category) =>
      [Lock(Gate, Shared), Lock(Month, Exclusive), Lock(TxRow(tx), Exclusive),
       Lock(RuleRow(rule), Shared), Lock(CategoryRow(category), Shared)]
    case RuleRun(rule, payee) =>
      [Lock(Gate, Exclusive)] + OptionalLock(rule, (x: Id) => Lock(RuleRow(x), Exclusive))
      + OptionalLock(payee, (x: Id) => Lock(PayeeRow(x), Shared))
    case TransactionRun(tx, payee) =>
      [Lock(Month, Exclusive)] + OptionalLock(tx, (x: Id) => Lock(TxRow(x), Exclusive))
      + OptionalLock(payee, (x: Id) => Lock(PayeeRow(x), Shared))
    case AccountRun(account) =>
      [Lock(Month, Exclusive)] + OptionalLock(account, (x: Id) => Lock(AccountRow(x), Exclusive))
    case ReconciliationRun(account, txs) =>
      [Lock(Month, Exclusive), Lock(AccountRow(account), Exclusive)] + EachLock(txs, (x: Id) => Lock(TxRow(x), Exclusive))
    case MonthRun(budgets) =>
      [Lock(Month, Exclusive)] + EachLock(budgets, (x: Id) => Lock(BudgetRow(x), Exclusive))
    case CategoryRun(category) => [Lock(CategoryRow(category), Exclusive)]
    case PayeeRun(payee) => [Lock(PayeeRow(payee), Exclusive)]
  }

  /** A running transaction holds the first `held` locks of its program. */
  datatype Running = Running(program: Program, held: nat)

  type System = map<Id, Running>

  predicate Waiting(r: Running) {
    r.held < |Locks(r.program)|
  }

  function Next(r: Running): Lock
    requires Waiting(r)
  {
    Locks(r.program)[r.held]
  }

  predicate Holds(r: Running, i: nat) {
    i < r.held && i < |Locks(r.program)|
  }

  /** `p` waits for `q`: the lock `p` asks for conflicts with one that `q` holds. */
  ghost predicate WaitsFor(s: System, p: Id, q: Id) {
    && p in s && q in s && p != q && Waiting(s[p])
    && exists i: nat :: Holds(s[q], i) && Conflict(Next(s[p]), Locks(s[q].program)[i])
  }

  ghost predicate Free(s: System, p: Id) {
    p in s && forall q :: !WaitsFor(s, p, q)
  }

  datatype Action = Start(p: Id, program: Program) | Acquire(p: Id) | End(p: Id)

  /** A transaction may end at any point: it commits, returns early or rolls back. */
  ghost function Step(s: System, a: Action): System {
    match a
    case Start(p, program) => if p in s then s else s[p := Running(program, 0)]
    case Acquire(p) => if Free(s, p) && Waiting(s[p]) then s[p := s[p].(held := s[p].held + 1)] else s
    case End(p) => s - {p}
  }

  ghost function Run(actions: seq<Action>): System
    decreases |actions|
  {
    if actions == [] then map[] else Step(Run(actions[..|actions| - 1]), actions[|actions| - 1])
  }

  ghost predicate Reachable(s: System) {
    exists actions :: s == Run(actions)
  }

  ghost predicate HoldTogether(a: Running, b: Running) {
    forall i: nat, j: nat :: Holds(a, i) && Holds(b, j) ==> !Conflict(Locks(a.program)[i], Locks(b.program)[j])
  }

  ghost predicate Exclusion(s: System) {
    forall p, q :: p in s && q in s && p != q ==> HoldTogether(s[p], s[q])
  }

  lemma AcquireKeeps(s: System, p: Id)
    requires Exclusion(s) && Free(s, p) && Waiting(s[p])
    ensures Exclusion(s[p := s[p].(held := s[p].held + 1)])
  {
    hide Locks;
    var s' := s[p := s[p].(held := s[p].held + 1)];
    forall q | q in s && q != p
      ensures HoldTogether(s'[p], s'[q]) && HoldTogether(s'[q], s'[p])
    {
      assert HoldTogether(s[p], s[q]) && !WaitsFor(s, p, q);
    }
  }

  lemma {:induction false} RunExcludes(actions: seq<Action>)
    ensures Exclusion(Run(actions))
    decreases |actions|
  {
    hide Locks;
    if actions != [] {
      var before := Run(actions[..|actions| - 1]);
      RunExcludes(actions[..|actions| - 1]);
      match actions[|actions| - 1]
      case Start(p, program) =>
        var after := Run(actions);
        forall q | q in after && p !in before ensures HoldTogether(after[p], after[q]) && HoldTogether(after[q], after[p]) {
        }
      case Acquire(p) => if Free(before, p) && Waiting(before[p]) { AcquireKeeps(before, p); }
      case End(p) =>
    }
  }

  /** No two transactions ever hold conflicting locks. */
  lemma ReachableExcludes(s: System)
    requires Reachable(s)
    ensures Exclusion(s)
  {
    var actions :| s == Run(actions);
    RunExcludes(actions);
  }

  /** The global order: rule-set gate, month control, everything else. */
  function Rank(r: Resource): nat {
    match r
    case Gate => 0
    case Month => 1
    case _ => 2
  }

  /** Account, transaction and budget rows are only locked under the exclusive month control, and rule rows
      only under the gate. */
  lemma Guarded(p: Program, i: nat)
    requires i < |Locks(p)|
    ensures var r := Locks(p)[i].resource;
      && (r.AccountRow? || r.TxRow? || r.BudgetRow? ==>
            i > 0 && (Locks(p)[0] == Lock(Month, Exclusive) || (i > 1 && Locks(p)[1] == Lock(Month, Exclusive))))
      && (r.RuleRow? ==> i > 0 && Locks(p)[0].resource == Gate && (Locks(p)[i].mode == Exclusive ==>
                                                              Locks(p)[0].mode == Exclusive))
      && (r.CategoryRow? || r.PayeeRow? ==> i == |Locks(p)| - 1)
      && forall j :: i < j < |Locks(p)| ==>
           Rank(Locks(p)[j].resource) >= Rank(r) && (Rank(r) < 2 ==> Rank(Locks(p)[j].resource) > Rank(r))
  {
  }

  /** Whoever waits for a transaction that waits itself asks for a lock of lower rank. */
  lemma WaitsRise(s: System, p: Id, q: Id)
    requires Exclusion(s) && WaitsFor(s, p, q) && Waiting(s[q])
    ensures Rank(Next(s[p]).resource) < Rank(Next(s[q]).resource)
  {
    hide Locks;
    var i: nat :| Holds(s[q], i) && Conflict(Next(s[p]), Locks(s[q].program)[i]);
    var a, b := s[p], s[q];
    Guarded(a.program, a.held);
    Guarded(b.program, i);
    assert HoldTogether(a, b);
    assert forall k: nat, l: nat :: k < 2 && l < 2 && Holds(a, k) && Holds(b, l) ==>
      !Conflict(Locks(a.program)[k], Locks(b.program)[l]);
  }

  ghost predicate WaitCycle(s: System, cycle: seq<Id>) {
    && |cycle| > 0
    && (forall i :: 0 <= i < |cycle| - 1 ==> WaitsFor(s, cycle[i], cycle[i + 1]))
    && WaitsFor(s, cycle[|cycle| - 1], cycle[0])
  }

  lemma {:induction false} RankClimbs(s: System, cycle: seq<Id>, n: nat)
    requires Exclusion(s) && WaitCycle(s, cycle) && n < |cycle|
    ensures forall i :: 0 <= i < |cycle| ==> cycle[i] in s && Waiting(s[cycle[i]])
    ensures Rank(Next(s[cycle[n]]).resource) >= Rank(Next(s[cycle[0]]).resource) + n
  {
    forall i | 0 <= i < |cycle| ensures cycle[i] in s && Waiting(s[cycle[i]]) {
      if i < |cycle| - 1 {
        assert WaitsFor(s, cycle[i], cycle[i + 1]);
      }
    }
    if n > 0 {
      RankClimbs(s, cycle, n - 1);
      assert WaitsFor(s, cycle[n - 1], cycle[n - 1 + 1]);
      WaitsRise(s, cycle[n - 1], cycle[n]);
    }
  }

  /** No reachable state contains a waits-for cycle, of any length. */
  lemma NoDeadlock(s: System, cycle: seq<Id>)
    requires Reachable(s)
    ensures !WaitCycle(s, cycle)
  {
    hide Locks;
    ReachableExcludes(s);
    if WaitCycle(s, cycle) {
      RankClimbs(s, cycle, |cycle| - 1);
      WaitsRise(s, cycle[|cycle| - 1], cycle[0]);
    }
  }

  /** Whoever is blocked is at most three waits away from a transaction that can go on. */
  lemma {:induction false} Unblocked(s: System, p: Id) returns (f: Id)
    requires Exclusion(s) && p in s
    ensures Free(s, f)
    decreases if Waiting(s[p]) then 2 - Rank(Next(s[p]).resource) else -1
  {
    hide Locks;
    if Free(s, p) {
      f := p;
    } else {
      var q :| WaitsFor(s, p, q);
      if Waiting(s[q]) {
        WaitsRise(s, p, q);
        f := Unblocked(s, q);
      } else {
        f := q;
      }
    }
  }

  /** While any transaction runs, some transaction can take its next lock or end. */
  lemma SomeoneRuns(s: System)
    requires Reachable(s) && s != map[]
    ensures exists p :: Free(s, p)
  {
    hide Locks;
    ReachableExcludes(s);
    var p :| p in s;
    var f := Unblocked(s, p);
  }
}
