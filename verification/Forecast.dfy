/** The forecast as it runs: its accumulators, its three loops and the category rows. */
module Forecast {
  import opened Domain
  import opened Sums
  import opened Ordering
  import opened BudgetActuals
  import opened BudgetRows
  import opened Recurrence
  import opened Rounding
  import opened ForecastFlows
  import opened ForecastSpec

  const OCCURRENCE_LIMIT: int := 2000

  class Flow {
    var income: int
    var expense: int
    var count: nat

    constructor ()
      ensures Totals() == FlowTotals(0, 0, 0)
    {
      income, expense, count := 0, 0, 0;
    }

    function Totals(): FlowTotals
      reads this
    {
      FlowTotals(income, expense, count)
    }

    method Add(txType: TxType, amount: int) returns (added: bool)
      modifies this
      ensures added <==> txType == Income || txType == Expense
      ensures txType == Income ==> income == old(income) + amount && expense == old(expense)
      ensures txType == Expense ==> income == old(income) && expense == old(expense) + amount
      ensures if added then count == old(count) + 1 else (income, expense, count) == old((income, expense, count))
      ensures Totals() == if added then AddFlow(old(Totals()), txType, amount) else old(Totals())
    {
      if txType == Income {
        income := income + amount;
      } else if txType == Expense {
        expense := expense + amount;
      } else {
        return false;
      }
      count := count + 1;
      return true;
    }
  }

  class ExceptionCounts {
    var count: nat
    var failed: nat
    var skipped: nat
    var excluded: nat
    var overdue: nat
    var incomplete: nat
    var blocked: set<Id>

    constructor ()
      ensures Totals() == ExceptionTotals(0, 0, 0, 0, 0, 0, {})
    {
      count, failed, skipped, excluded, overdue, incomplete, blocked := 0, 0, 0, 0, 0, 0, {};
    }

    function Totals(): ExceptionTotals
      reads this
    {
      ExceptionTotals(count, failed, skipped, excluded, overdue, incomplete, blocked)
    }

    method Record(rule: Id, f: Flags)
      modifies this
      ensures Totals() == AddException(old(Totals()), rule, f)
    {
      count := count + 1;
      failed := failed + One(f.failed);
      skipped := skipped + One(f.skipped);
      excluded := excluded + One(f.excluded);
      overdue := overdue + One(f.overdue);
      incomplete := incomplete + One(f.incomplete);
      if f.blocked {
        blocked := blocked + {rule};
      }
    }
  }

  /** `expense` splits over the categories `k` as `byCategory` says. */
  ghost predicate CategoriesHold(x: Input, occurrences: seq<Occurrence>, byCategory: map<Option<Id>, int>,
                                 expense: int) {
    && (forall k :: Get(byCategory, k) == CategoryOver(x, occurrences, k))
    && Total(byCategory) == expense
  }

  class Forecast {
    const x: Input
    const scheduled: Flow
    const pending: Flow
    const advisory: Flow
    const confirmed: Flow
    const draft: Flow
    const counts: ExceptionCounts
    var transfers: seq<int>
    var byCategory: map<Option<Id>, int>
    var occurrences: seq<Occurrence>
    var materializedActual: set<Id>
    var processed: set<Id>
    ghost var causes: seq<Cause>

    ghost function Flows(): set<object> {
      {scheduled, pending, advisory, confirmed, draft, counts}
    }

    ghost predicate Separate() {
      && scheduled != pending && scheduled != advisory && scheduled != confirmed && scheduled != draft
      && pending != advisory && pending != confirmed && pending != draft
      && advisory != confirmed && advisory != draft && confirmed != draft
    }

    /** Every accumulator agrees with the occurrences listed so far. */
    ghost predicate Balanced()
      reads `transfers, `byCategory, `occurrences, `causes, Flows()
    {
      && Separate()
      && Shows(x, causes, occurrences)
      && scheduled.Totals() == FlowOver(occurrences, ScheduledFlow)
      && pending.Totals() == FlowOver(occurrences, PendingFlow)
      && advisory.Totals() == FlowOver(occurrences, AdvisoryFlow)
      && confirmed.Totals() == FlowOver(occurrences, ModeFlow(ConfirmedMode))
      && draft.Totals() == FlowOver(occurrences, ModeFlow(DraftMode))
      && counts.Totals() == ExceptionsOver(occurrences)
      && transfers == TransfersOver(occurrences)
      && CategoriesHold(x, occurrences, byCategory, scheduled.expense + pending.expense)
    }

    constructor (input: Input)
      ensures x == input && Balanced() && fresh(Flows())
      ensures causes == [] && processed == {} && materializedActual == {}
    {
      x := input;
      scheduled := new Flow();
      pending := new Flow();
      advisory := new Flow();
      confirmed := new Flow();
      draft := new Flow();
      counts := new ExceptionCounts();
      transfers, byCategory, occurrences := [], map[], [];
      materializedActual, processed, causes := {}, {}, [];
    }

    method RecordException(o: Occurrence, ghost c: Cause)
      requires Balanced() && Sensible(x, c) && o == OccurrenceOf(x, c) && o.state == Exception
      modifies counts, `occurrences, `causes
      ensures Balanced() && causes == old(causes) + [c]
    {
      hide Sensible, OccurrenceOf, FlowOver, ExceptionsOver, TransfersOver, CategoryOver, Total;
      OverAppend(x, occurrences, o);
      counts.Record(o.rule, o.flags);
      occurrences := occurrences + [o];
      causes := causes + [c];
    }

    method ClassifyOverdueCursor(r: Id, record: Option<Id>)
      requires Balanced() && Overdue(x, r)
      requires record.Some? ==> RecordOf(x, r, Cursor(x, r), record.value)
      modifies counts, `occurrences, `causes
      ensures Balanced()
      ensures causes == old(causes) + [if record == None then FromCursor(r) else FromExecution(record.value)]
    {
      hide Balanced;
      var cursor := Cursor(x, r);
      if record == None {
        RecordException(ExceptionOccurrence(x, r, cursor, None, None, OverdueUnmaterialized,
                                            NO_FLAGS.(overdue := true, blocked := true)), FromCursor(r));
        return;
      }
      var execution := x.executions[record.value];
      var reason, flags;
      if execution.status == FailedRun {
        reason, flags := FailedExecution, NO_FLAGS.(failed := true, overdue := true, blocked := true);
      } else if execution.status == Created {
        reason, flags := IncompleteExecution, NO_FLAGS.(overdue := true, incomplete := true, blocked := true);
      } else {
        reason := CursorNotAdvanced;
        flags := NO_FLAGS.(skipped := execution.status == Skipped, overdue := true, incomplete := true, blocked := true);
      }
      RecordException(ExceptionOccurrence(x, r, cursor, record, execution.tx, reason, flags),
                      FromExecution(record.value));
    }

    method AppendAdvisory(r: Id, slot: Instant)
      requires Balanced() && ActiveRule(x, r) && x.rules[r].mode == ReminderOnly
      modifies advisory, `occurrences, `causes
      ensures Balanced() && causes == old(causes) + [FromSlot(r, slot)]
    {
      hide FlowOver, ExceptionsOver, TransfersOver, CategoryOver, Total;
      var rule := x.rules[r];
      OverAppend(x, occurrences, SlotOccurrence(x, r, slot));
      var added := advisory.Add(rule.txType, rule.amount);
      if !added {
        advisory.count := advisory.count + 1;
      }
      occurrences := occurrences + [SlotOccurrence(x, r, slot)];
      causes := causes + [FromSlot(r, slot)];
    }

    method AppendFlow(r: Id, slot: Instant)
      requires Balanced() && ActiveRule(x, r) && x.rules[r].mode != ReminderOnly && x.rules[r].txType != Transfer
      modifies scheduled, confirmed, draft, `byCategory, `occurrences, `causes
      ensures Balanced() && causes == old(causes) + [FromSlot(r, slot)]
    {
      hide FlowOver, ExceptionsOver, TransfersOver, CategoryOver, Total, CategoriesHold;
      var rule := x.rules[r];
      SlotTotals(x, occurrences, r, slot);
      SlotCategories(x, occurrences, r, slot, byCategory, scheduled.expense + pending.expense);
      var added := scheduled.Add(rule.txType, rule.amount);
      if rule.mode == ConfirmedMode {
        added := confirmed.Add(rule.txType, rule.amount);
      } else {
        added := draft.Add(rule.txType, rule.amount);
      }
      if rule.txType == Expense {
        byCategory := byCategory[rule.category := Get(byCategory, rule.category) + rule.amount];
      }
      occurrences := occurrences + [SlotOccurrence(x, r, slot)];
      causes := causes + [FromSlot(r, slot)];
    }

    /** A slot without an execution. */
    method AppendScheduled(r: Id, slot: Instant)
      requires Balanced() && ActiveRule(x, r)
      modifies scheduled, advisory, confirmed, draft, `transfers, `byCategory, `occurrences, `causes
      ensures Balanced() && causes == old(causes) + [FromSlot(r, slot)]
    {
      hide FlowOver, ExceptionsOver, TransfersOver, CategoryOver, Total;
      var rule := x.rules[r];
      if rule.mode == ReminderOnly {
        AppendAdvisory(r, slot);
      } else if rule.txType == Transfer {
        OverAppend(x, occurrences, SlotOccurrence(x, r, slot));
        transfers := transfers + [rule.amount];
        occurrences := occurrences + [SlotOccurrence(x, r, slot)];
        causes := causes + [FromSlot(r, slot)];
      } else {
        AppendFlow(r, slot);
      }
    }

    /** An execution away from an overdue cursor, in the order the source checks. */
    method ClassifyMaterialized(e: Id, pendingIds: set<Id>)
      requires Balanced() && Stored(x) && Loaded(x, e) && !AtCursor(x, e)
      requires x.executions[e].tx.Some? ==> (x.executions[e].tx.value in pendingIds <==> PendingTx(x, x.executions[e].tx.value))
      modifies counts, `occurrences, `causes, `materializedActual
      ensures Balanced()
      ensures causes == if VerdictOf(x, e).Exceptional? then old(causes) + [FromExecution(e)] else old(causes)
      ensures materializedActual == if VerdictOf(x, e) == Actual then old(materializedActual) + {e} else old(materializedActual)
    {
      hide Stored, ActiveRule, FlowOver, ExceptionsOver, TransfersOver, CategoryOver, Total, Shows;
      var execution := x.executions[e];
      var linked := Lookup(x.txs, execution.tx);
      var reason, flags;
      if linked.Some? {
        var t := linked.value;
        if (t.status == Confirmed || t.status == Reconciled) && !t.deleted {
          if t.currency == x.currency && x.start <= t.occurredAt < x.end {
            materializedActual := materializedActual + {e};
            return;
          }
          reason, flags := OutsidePeriod, NO_FLAGS.(excluded := true);
        } else if t.status == Draft && !t.deleted {
          if execution.tx.value in pendingIds {
            return;
          }
          reason, flags := DraftMoved, NO_FLAGS.(excluded := true);
        } else {
          reason, flags := LinkedExcluded, NO_FLAGS.(excluded := true);
        }
      } else if execution.status == ReminderSent {
        return;
      } else if execution.status == Skipped {
        reason, flags := SkippedExecution, NO_FLAGS.(skipped := true);
      } else if execution.status == FailedRun {
        reason, flags := FailedExecution, NO_FLAGS.(failed := true);
      } else {
        reason, flags := MissingTransaction, NO_FLAGS.(incomplete := true);
      }
      assert VerdictOf(x, e) == Exceptional(reason, flags);
      assert execution.rule in x.rules by { RuleStored(x, e); }
      RecordException(ExceptionOccurrence(x, execution.rule, execution.scheduledFor, Some(e), execution.tx, reason, flags),
                      FromExecution(e));
    }

    method AllocatePendingExpense(t: Transaction)
      modifies `byCategory
      ensures forall k :: Get(byCategory, k) == Get(old(byCategory), k) + Portion(t, t.amount, k)
      ensures Total(byCategory) == Total(old(byCategory)) + t.amount
    {
      hide Total, Rounded, Shares;
      if t.splits == [] {
        TotalAdd(byCategory, t.category, t.amount);
        byCategory := byCategory[t.category := Get(byCategory, t.category) + t.amount];
        return;
      }
      var remaining: int := t.amount;
      var n := |t.splits|;
      ghost var was := byCategory;
      ghost var shares := Shares(t.splits, t.amount, t.amount);
      for i := 0 to n
        invariant remaining == t.amount - SumSeq(shares[..i])
        invariant forall k :: Get(byCategory, k) == Get(was, k) + Booked(t.splits, shares, i, k)
        invariant Total(byCategory) == Total(was) + SumSeq(shares[..i])
      {
        var category := Some(t.splits[i].category);
        assert shares[..i + 1] == shares[..i] + [shares[i]];
        SumSeqAppend(shares[..i], shares[i]);
        ShareIsRemainder(t.splits, t.amount, t.amount, i);
        var share := if i == n - 1 then remaining else RoundDiv(t.amount * t.splits[i].amount, t.amount);
        TotalAdd(byCategory, category, share);
        byCategory := byCategory[category := Get(byCategory, category) + share];
        remaining := remaining - share;
      }
      SharesSum(t.splits, t.amount, t.amount);
      assert shares[..n] == shares;
    }

    /** A pending draft, by the first execution that links it. */
    method AddPending(e: Id)
      requires Balanced() && PendingRecord(x, e)
      modifies pending, draft, counts, `transfers, `byCategory, `occurrences, `causes
      ensures Balanced() && causes == old(causes) + [FromPending(e)]
    {
      hide FlowOver, ExceptionsOver, TransfersOver, CategoryOver, Total, Portion;
      var t := x.txs[x.executions[e].tx.value];
      var occurrence := PendingOccurrence(x, e);
      if t.txType != Income && t.txType != Expense && t.txType != Transfer {
        RecordException(occurrence, FromPending(e));
        return;
      }
      OverAppend(x, occurrences, occurrence);
      if t.txType == Transfer {
        transfers := transfers + [t.amount];
      } else {
        var added := pending.Add(t.txType, t.amount);
        added := draft.Add(t.txType, t.amount);
        if t.txType == Expense {
          AllocatePendingExpense(t);
        }
      }
      occurrences := occurrences + [occurrence];
      causes := causes + [FromPending(e)];
    }

    /** The rule loop for an overdue rule. */
    method BlockRule(r: Id, records: map<(Id, Instant), Id>, ghost scope: Scope) returns (ghost scope': Scope)
      requires Balanced() && Stored(x) && Mapped(x, records) && Overdue(x, r)
      requires Listed(x, causes, scope) && Tracked(x, scope) && scope.executions == processed
      requires r !in scope.rules && forall s :: (r, s) !in scope.slots
      requires materializedActual == Actuals(x, processed)
      modifies this, counts
      ensures Balanced() && scope'.executions == processed && materializedActual == Actuals(x, processed)
      ensures Listed(x, causes, scope') && Tracked(x, scope')
      ensures scope' == scope.(rules := scope.rules + {r}, executions := processed)
    {
      hide FlowOver, ExceptionsOver, TransfersOver, CategoriesHold, Shows, Listed, Mapped;
      var cursor := Cursor(x, r);
      var record := if (r, cursor) in records then Some(records[(r, cursor)]) else None;
      assert record.Some? ==> RecordOf(x, r, cursor, record.value) by { MappedRecord(x, records, r, cursor); }
      assert record == None ==> !HasRecord(x, r, cursor) by { MappedRecord(x, records, r, cursor); }
      CursorCovers(x, causes, scope, r, record);
      ClassifyOverdueCursor(r, record);
      if record.Some? {
        processed := processed + {record.value};
      }
      scope' := scope.(rules := scope.rules + {r}, executions := processed);
      CursorActuals(x, scope.executions, record);
    }

    /** One slot of an expansion. */
    method TakeSlot(r: Id, s: Instant, records: map<(Id, Instant), Id>, pendingIds: set<Id>, ghost scope: Scope)
        returns (ghost scope': Scope)
      requires Balanced() && Stored(x) && Mapped(x, records) && PendingKnown(x, pendingIds) && OpenSlot(x, r, s)
      requires Listed(x, causes, scope) && Tracked(x, scope) && scope.executions == processed
      requires r !in scope.rules && (r, s) !in scope.slots
      requires materializedActual == Actuals(x, processed)
      modifies this, Flows()
      ensures Balanced() && materializedActual == Actuals(x, processed)
      ensures Listed(x, causes, scope') && Tracked(x, scope')
      ensures scope' == scope.(slots := scope.slots + {(r, s)}, executions := processed)
    {
      hide FlowOver, ExceptionsOver, TransfersOver, CategoriesHold, Shows, Listed, Mapped, Tracked, PendingKnown, Stored,
        OpenSlot;
      assert ActiveRule(x, r) && !Overdue(x, r) by { SlotRule(x, r, s); }
      var record := if (r, s) in records then Some(records[(r, s)]) else None;
      assert record.Some? ==> RecordOf(x, r, s, record.value) by { MappedRecord(x, records, r, s); }
      assert record == None ==> !HasRecord(x, r, s) by { MappedRecord(x, records, r, s); }
      SlotCovers(x, causes, scope, r, s, record);
      if record == None {
        AppendScheduled(r, s);
      } else {
        var e := record.value;
        assert x.executions[e].rule in x.rules by { RuleStored(x, e); }
        if x.executions[e].tx.Some? {
          PendingOf(x, pendingIds, e);
        }
        processed := processed + {e};
        ClassifyMaterialized(e, pendingIds);
        ActualsAdd(x, scope.executions, e);
      }
      scope' := scope.(slots := scope.slots + {(r, s)}, executions := processed);
    }

    /** The rule loop for a rule that is not overdue. */
    method ExpandRule(r: Id, records: map<(Id, Instant), Id>, pendingIds: set<Id>, limit: nat, ghost scope: Scope)
        returns (expanded: bool, generated: nat, ghost scope': Scope)
      requires Balanced() && Stored(x) && Mapped(x, records) && PendingKnown(x, pendingIds)
      requires ActiveRule(x, r) && !Overdue(x, r)
      requires Listed(x, causes, scope) && Tracked(x, scope) && scope.executions == processed
      requires r !in scope.rules && forall s :: (r, s) !in scope.slots
      requires materializedActual == Actuals(x, processed)
      modifies this, Flows()
      ensures Balanced()
      ensures expanded <==> Generated(x, r) <= limit
      ensures expanded ==>
        && generated == Generated(x, r) && materializedActual == Actuals(x, processed)
        && Listed(x, causes, scope') && Tracked(x, scope') && scope'.executions == processed
        && scope'.rules == scope.rules + {r} && scope'.pending == scope.pending
        && forall k :: k in scope'.slots ==> k in scope.slots || k.0 == r
    {
      hide FlowOver, ExceptionsOver, TransfersOver, CategoriesHold, Shows, Listed, Mapped, Tracked, PendingKnown, IsSlot,
        SlotCount;
      var cursor, limit' := Cursor(x, r), limit;
      scope' := scope.(rules := scope.rules + {r});
      if cursor >= x.end {
        RuleCovers(x, causes, scope, scope, r);
        return true, 0, scope';
      }
      var expansion := OccurrencesBetween(x.following(r), cursor, WindowStart(x), x.end, limit);
      LimitMeansCount(x.following(r), cursor, WindowStart(x), x.end, limit, expansion);
      if expansion.LimitExceeded? {
        return false, 0, scope';
      }
      ghost var current := scope;
      for k := 0 to |expansion.slots|
        invariant Balanced() && materializedActual == Actuals(x, processed)
        invariant Listed(x, causes, current) && Tracked(x, current)
        invariant current == scope.(slots := current.slots, executions := processed)
        invariant forall p :: p in current.slots <==> p in scope.slots || (p.0 == r && p.1 in expansion.slots[..k])
      {
        var s := expansion.slots[k];
        assert s in expansion.slots;
        assert expansion.slots[..k + 1] == expansion.slots[..k] + [s];
        current := TakeSlot(r, s, records, pendingIds, current);
      }
      assert expansion.slots[..|expansion.slots|] == expansion.slots;
      RuleCovers(x, causes, scope, current, r);
      scope' := current.(rules := scope.rules + {r});
      return true, expansion.generated, scope';
    }

    /** The draft loop: one occurrence for every pending transaction, by its first record. */
    method AddPendings(firsts: seq<Id>) returns (ghost scope: Scope)
      requires Balanced() && causes == [] && processed == {}
      requires forall e :: e in firsts <==> FirstRecord(x, e)
      requires forall i, j :: 0 <= i < j < |firsts| ==> firsts[i] != firsts[j]
      modifies pending, draft, counts, `transfers, `byCategory, `occurrences, `causes
      ensures Balanced() && Listed(x, causes, scope)
      ensures scope.rules == {} && scope.slots == {} && scope.executions == {}
      ensures forall e :: e in scope.pending <==> FirstRecord(x, e)
    {
      hide FlowOver, ExceptionsOver, TransfersOver, CategoriesHold, Shows, PendingRecord;
      scope := Scope({}, {}, {}, {});
      for k := 0 to |firsts|
        invariant Balanced() && Listed(x, causes, scope)
        invariant scope.rules == {} && scope.slots == {} && scope.executions == {}
        invariant forall e :: e in scope.pending <==> e in firsts[..k]
      {
        var e := firsts[k];
        assert e in firsts;
        assert firsts[..k + 1] == firsts[..k] + [e];
        PendingCovers(x, causes, scope, e);
        AddPending(e);
        scope := scope.(pending := scope.pending + {e});
      }
      assert firsts[..|firsts|] == firsts;
    }

    /** The replay loop: executions of the period that no cursor and no slot has met. */
    method Replay(order: seq<Id>, pendingIds: set<Id>, ghost scope: Scope)
      requires Balanced() && Stored(x) && PendingKnown(x, pendingIds)
      requires forall e :: e in order <==> Loaded(x, e)
      requires forall i, j :: 0 <= i < j < |order| ==> order[i] != order[j]
      requires Listed(x, causes, scope) && Tracked(x, scope) && scope.executions == processed
      requires scope.rules == ActiveRules(x) && materializedActual == Actuals(x, processed)
      modifies this, counts
      ensures Balanced() && materializedActual == Actuals(x, LoadedExecutions(x))
      ensures Listed(x, causes, scope.(executions := LoadedExecutions(x)))
    {
      hide FlowOver, ExceptionsOver, TransfersOver, CategoriesHold, Shows, Listed, PendingKnown, Stored;
      ghost var done := processed;
      for k := 0 to |order|
        invariant Balanced() && materializedActual == Actuals(x, done)
        invariant Listed(x, causes, scope.(executions := done))
        invariant processed == scope.executions
        invariant forall e :: e in done <==> e in processed || e in order[..k]
      {
        var e := order[k];
        assert e in order;
        assert order[..k + 1] == order[..k] + [e];
        if e !in processed {
          var execution := x.executions[e];
          assert !AtCursor(x, e);
          if x.start <= execution.scheduledFor < x.end && ActiveRule(x, execution.rule) {
            if execution.tx.Some? {
              PendingOf(x, pendingIds, e);
            }
            assert e !in order[..k];
            ReplayCovers(x, causes, scope.(executions := done), e);
            ActualsAdd(x, done, e);
            ClassifyMaterialized(e, pendingIds);
          }
        }
        assert e in processed ==> done + {e} == done;
        done := done + {e};
      }
      assert order[..|order|] == order;
      assert forall e :: e in processed ==> Loaded(x, e);
      assert done == LoadedExecutions(x);
    }

    /** The rule loop. It is given up exactly when the rules generate more slots than the limit. */
    method ExpandRules(order: seq<Id>, records: map<(Id, Instant), Id>, pendingIds: set<Id>, ghost scope: Scope)
        returns (ok: bool, ghost scope': Scope)
      requires Balanced() && Stored(x) && Mapped(x, records) && PendingKnown(x, pendingIds)
      requires forall r: Id :: r in order <==> ActiveRule(x, r)
      requires forall i, j :: 0 <= i < j < |order| ==> order[i] != order[j]
      requires Listed(x, causes, scope) && scope.rules == {} && scope.slots == {} && scope.executions == {}
      requires processed == {} && materializedActual == {}
      modifies this, Flows()
      ensures Balanced()
      ensures ok <==> GeneratedInAll(x, ActiveRules(x)) <= OCCURRENCE_LIMIT
      ensures ok ==>
        && Listed(x, causes, scope') && Tracked(x, scope') && scope'.executions == processed
        && scope'.pending == scope.pending && scope'.rules == ActiveRules(x)
        && materializedActual == Actuals(x, processed)
    {
      hide FlowOver, ExceptionsOver, TransfersOver, CategoriesHold, Shows, Listed, Mapped, PendingKnown, Stored,
        Generated, GeneratedInAll;
      scope' := scope;
      var generated := 0;
      assert GeneratedInAll(x, {}) == 0 by { NothingGenerated(x); }
      for k := 0 to |order|
        invariant Balanced() && materializedActual == Actuals(x, processed)
        invariant Listed(x, causes, scope') && Tracked(x, scope') && scope'.executions == processed
        invariant scope'.pending == scope.pending
        invariant forall r: Id :: r in scope'.rules <==> r in order[..k]
        invariant forall p :: p in scope'.slots ==> p.0 in order[..k]
        invariant generated == GeneratedInAll(x, scope'.rules) <= OCCURRENCE_LIMIT
      {
        var r := order[k];
        assert r in order;
        assert order[..k + 1] == order[..k] + [r];
        assert r !in order[..k];
        GeneratedMore(x, scope'.rules, r);
        if Cursor(x, r) < x.asOf {
          assert Generated(x, r) == 0 by { OverdueGeneratesNothing(x, r); }
          scope' := BlockRule(r, records, scope');
        } else {
          var expanded, more;
          expanded, more, scope' := ExpandRule(r, records, pendingIds, OCCURRENCE_LIMIT - generated, scope');
          if !expanded {
            return false, scope';
          }
          generated := generated + more;
        }
      }
      assert order[..|order|] == order;
      assert scope'.rules == ActiveRules(x);
      return true, scope';
    }

    /** The forecast of an open month: pending drafts, then the rules, then the executions nothing has met.
        It lists one occurrence for every expected cause and no other, and it is refused exactly when the
        rules generate more than `OCCURRENCE_LIMIT` slots. */
    method Compute() returns (ok: bool)
      requires Balanced() && Stored(x) && causes == [] && processed == {} && materializedActual == {}
      modifies this, Flows()
      ensures Balanced()
      ensures ok <==> GeneratedInAll(x, ActiveRules(x)) <= OCCURRENCE_LIMIT
      ensures ok ==> ListsExactly(x, causes) && materializedActual == Actuals(x, LoadedExecutions(x))
    {
      hide FlowOver, ExceptionsOver, TransfersOver, CategoriesHold, Shows, Listed, Mapped, PendingKnown, Stored,
        GeneratedInAll, FirstRecord, Actuals, Tracked, ListsExactly;
      var firsts, pendingIds := FirstRecords(x);
      ghost var scope := AddPendings(firsts);
      var loaded := LoadExecutions(x);
      var records := ExecutionMap(x, loaded);
      var rules := LoadRules(x);
      assert materializedActual == {} == Actuals(x, {}) by { NoActuals(x); }
      ok, scope := ExpandRules(rules, records, pendingIds, scope);
      if ok {
        Replay(loaded, pendingIds, scope);
        scope := scope.(executions := LoadedExecutions(x));
        ScopeComplete(x, causes, scope);
      }
    }

    /** What the accumulators stand for, in terms of the listed occurrences and of the expected causes. */
    lemma FlowsShown()
      requires Balanced()
      ensures AddsUp(scheduled.income + pending.income, scheduled.expense + pending.expense,
                     scheduled.count + pending.count, occurrences, {Scheduled, PendingDraft}, None)
      ensures ShowsFlow(scheduled.Totals(), occurrences, {Scheduled}, None)
      ensures ShowsFlow(pending.Totals(), occurrences, {PendingDraft}, None)
      ensures ShowsFlow(advisory.Totals(), occurrences, {Advisory}, None)
      ensures ShowsFlow(confirmed.Totals(), occurrences, {Scheduled, PendingDraft}, Some(ConfirmedMode))
      ensures ShowsFlow(draft.Totals(), occurrences, {Scheduled, PendingDraft}, Some(DraftMode))
      ensures ListsExactly(x, causes) ==>
        && scheduled.income + pending.income == SumOver(Earning(x, causes, Income), Worth(x))
        && scheduled.expense + pending.expense == SumOver(Earning(x, causes, Expense), Worth(x))
    {
      hide FlowOver, ExceptionsOver, TransfersOver, CategoriesHold, Shows, AddsUp, ListsExactly, SumOver, Earning;
      FlowAddsUp(x, causes, occurrences, ScheduledFlow);
      FlowAddsUp(x, causes, occurrences, PendingFlow);
      FlowAddsUp(x, causes, occurrences, AdvisoryFlow);
      FlowAddsUp(x, causes, occurrences, ModeFlow(ConfirmedMode));
      FlowAddsUp(x, causes, occurrences, ModeFlow(DraftMode));
      BothAddUp(occurrences, scheduled.income, scheduled.expense, scheduled.count,
                pending.income, pending.expense, pending.count);
      if ListsExactly(x, causes) {
        ForecastIsExpected(x, causes, occurrences, scheduled.income + pending.income,
                           scheduled.expense + pending.expense, scheduled.count + pending.count);
      }
    }

    /** The totals of the response. */
    method Totalled() returns (t: ForecastTotals)
      requires Balanced()
      ensures Balanced()
      ensures t.scheduled == scheduled.Totals() && t.pending == pending.Totals() && t.advisory == advisory.Totals()
      ensures t.confirmed == confirmed.Totals() && t.draft == draft.Totals()
      ensures t.income == t.scheduled.income + t.pending.income && t.expense == t.scheduled.expense + t.pending.expense
      ensures t.count == t.scheduled.count + t.pending.count && t.net == t.income - t.expense
      ensures CountsExceptions(t.exceptions, occurrences)
      ensures t.transferCount == |StatePlaces(occurrences, InformationalTransfer)|
      ensures t.transferVolume == SumOver(StatePlaces(occurrences, InformationalTransfer), AmountAt(occurrences))
    {
      hide TransfersOver, CategoriesHold, FlowOver, Shows, ExceptionsOver, CountsExceptions, StatePlaces, SumOver;
      ExceptionsCounted(occurrences);
      TransfersCounted(occurrences);
      t := ForecastTotals(
        scheduled.income + pending.income, scheduled.expense + pending.expense,
        scheduled.income + pending.income - (scheduled.expense + pending.expense),
        scheduled.count + pending.count,
        scheduled.Totals(), pending.Totals(), confirmed.Totals(), draft.Totals(), advisory.Totals(),
        counts.Totals(), SumSeq(transfers), |transfers|);
    }

    /** The category rows of the response, and what is forecast elsewhere. */
    method Allotted(allocations: seq<Allocation>, actual: map<Option<Id>, int>)
        returns (rows: seq<CategoryRow>, unbudgeted: int)
      requires Balanced() && DistinctCategories(allocations)
      ensures RowsFit(rows, allocations, actual, byCategory)
      ensures ForecastOnRows(rows) + unbudgeted == scheduled.expense + pending.expense
    {
      hide Total, Shows, FlowOver, ExceptionsOver, TransfersOver;
      rows := BuildRows(allocations, actual, byCategory);
      unbudgeted := SumOffAllocated(allocations, byCategory);
      AllocatedAndRest(allocations, byCategory);
      RowsSum(rows, allocations, actual, byCategory);
    }

    /** What is forecast for a category, in terms of the expected causes. */
    lemma CategoriesShown()
      requires Balanced()
      ensures ListsExactly(x, causes) ==> forall k :: Get(byCategory, k) == CategoryWorth(x, causes, k)
    {
      hide FlowOver, ExceptionsOver, TransfersOver, CategoryOver, Shows, CategoryWorth;
      if ListsExactly(x, causes) {
        forall k ensures CategoryOver(x, occurrences, k) == CategoryWorth(x, causes, k) {
          CategoryIsExpected(x, causes, occurrences, k);
        }
      }
    }

    /** The accumulators of the two modes and those of the two states hold the same amounts. */
    lemma ModesAgree()
      requires Balanced()
      ensures confirmed.income + draft.income == scheduled.income + pending.income
      ensures confirmed.expense + draft.expense == scheduled.expense + pending.expense
      ensures confirmed.count + draft.count == scheduled.count + pending.count
    {
      hide FlowOver, ExceptionsOver, TransfersOver, CategoriesHold, Shows;
      ModesAddUp(x, causes, occurrences);
    }

    /** The totals and rows of the response. */
    method Respond(allocations: seq<Allocation>, actual: map<Option<Id>, int>)
        returns (t: ForecastTotals, rows: seq<CategoryRow>, unbudgeted: int)
      requires Balanced() && DistinctCategories(allocations)
      ensures t.scheduled == scheduled.Totals() && t.pending == pending.Totals()
      ensures t.income == t.confirmed.income + t.draft.income
      ensures t.expense == t.confirmed.expense + t.draft.expense
      ensures t.count == t.confirmed.count + t.draft.count == t.scheduled.count + t.pending.count
      ensures t.net == t.income - t.expense
      ensures RowsFit(rows, allocations, actual, byCategory)
      ensures ForecastOnRows(rows) + unbudgeted == t.expense
      ensures AddsUp(t.income, t.expense, t.count, occurrences, {Scheduled, PendingDraft}, None)
      ensures ShowsFlow(t.scheduled, occurrences, {Scheduled}, None)
      ensures ShowsFlow(t.pending, occurrences, {PendingDraft}, None)
      ensures ShowsFlow(t.advisory, occurrences, {Advisory}, None)
      ensures ShowsFlow(t.confirmed, occurrences, {Scheduled, PendingDraft}, Some(ConfirmedMode))
      ensures ShowsFlow(t.draft, occurrences, {Scheduled, PendingDraft}, Some(DraftMode))
      ensures ListsExactly(x, causes) ==>
        && t.income == SumOver(Earning(x, causes, Income), Worth(x))
        && t.expense == SumOver(Earning(x, causes, Expense), Worth(x))
      ensures ListsExactly(x, causes) ==> forall k :: Get(byCategory, k) == CategoryWorth(x, causes, k)
      ensures CountsExceptions(t.exceptions, occurrences)
      ensures t.transferCount == |StatePlaces(occurrences, InformationalTransfer)|
      ensures t.transferVolume == SumOver(StatePlaces(occurrences, InformationalTransfer), AmountAt(occurrences))
    {
      hide TransfersOver, CountsExceptions, StatePlaces, RowsFit, SumOver, ShowsFlow, AddsUp, ListsExactly, Earning, Balanced,
        CategoryWorth;
      FlowsShown();
      ModesAgree();
      CategoriesShown();
      t := Totalled();
      rows, unbudgeted := Allotted(allocations, actual);
    }
  }

  method LoadExecutions(x: Input) returns (order: seq<Id>)
    ensures forall e: Id :: e in order <==> e in x.executions && Loaded(x, e)
    ensures forall i, j :: 0 <= i < j < |order| ==> order[i] != order[j]
  {
    hide Loaded;
    order := OrderBy(map e | e in x.executions && Loaded(x, e) :: Key(x.executions[e].scheduledFor, x.executions[e].rule));
  }

  method LoadRules(x: Input) returns (order: seq<Id>)
    ensures forall r: Id :: r in order <==> ActiveRule(x, r)
    ensures forall i, j :: 0 <= i < j < |order| ==> order[i] != order[j]
  {
    order := OrderBy(map r | r in x.rules && ActiveRule(x, r) :: Key(x.rules[r].nextRunAt.value, 0));
  }

  lemma NoActuals(x: Input)
    ensures Actuals(x, {}) == {}
  {
  }

  lemma NothingGenerated(x: Input)
    ensures GeneratedInAll(x, {}) == 0
  {
  }

  lemma OverdueGeneratesNothing(x: Input, r: Id)
    requires ActiveRule(x, r) && Cursor(x, r) < x.asOf
    ensures Generated(x, r) == 0
  {
  }

  /** `execution_map`: stored executions sit on whole seconds, so cutting the key changes nothing. */
  method ExecutionMap(x: Input, loaded: seq<Id>) returns (records: map<(Id, Instant), Id>)
    requires Stored(x)
    requires forall e: Id :: e in loaded <==> e in x.executions && Loaded(x, e)
    ensures Mapped(x, records)
  {
    hide Loaded;
    records := map[];
    for k := 0 to |loaded|
      invariant forall p :: p in records ==> RecordOf(x, p.0, p.1, records[p])
      invariant forall e :: e in loaded[..k] ==> (x.executions[e].rule, x.executions[e].scheduledFor) in records
    {
      var e := loaded[k];
      assert e in loaded;
      assert loaded[..k + 1] == loaded[..k] + [e];
      records := records[(x.executions[e].rule, Second(x.executions[e].scheduledFor)) := e];
    }
    assert loaded[..|loaded|] == loaded;
    assert forall e :: Loaded(x, e) ==> e in x.executions by { LoadedStored(x); }
  }

  lemma LoadedStored(x: Input)
    ensures forall e :: Loaded(x, e) ==> e in x.executions
  {
  }

  datatype ForecastTotals = ForecastTotals(
    income: int, expense: int, net: int, count: nat,
    scheduled: FlowTotals, pending: FlowTotals, confirmed: FlowTotals, draft: FlowTotals, advisory: FlowTotals,
    exceptions: ExceptionTotals, transferVolume: int, transferCount: nat)

  /** A flow of the response adds up over the listed occurrences of its states and mode. */
  ghost predicate ShowsFlow(f: FlowTotals, occurrences: seq<Occurrence>, states: set<OccurrenceState>, mode: Option<Mode>) {
    AddsUp(f.income, f.expense, f.count, occurrences, states, mode)
  }

  // ----- category rows -----

  datatype CategoryRow = CategoryRow(
    category: Id, planned: int, actual: int, forecast: int, projected: int, remaining: int, usage: int)

  /** One row per allocation: the projection is actual plus forecast, and the usage is its percentage of the
      plan to four decimals. */
  predicate RowFits(row: CategoryRow, a: Allocation, actual: map<Option<Id>, int>, forecast: map<Option<Id>, int>) {
    && row.category == a.category && row.planned == a.planned
    && row.actual == Get(actual, Some(a.category)) && row.forecast == Get(forecast, Some(a.category))
    && row.projected == row.actual + row.forecast
    && row.remaining + row.projected == row.planned
    && Nearest(row.projected * 100 * 10_000, a.planned, row.usage)
  }

  predicate RowsFit(rows: seq<CategoryRow>, allocations: seq<Allocation>, actual: map<Option<Id>, int>,
                    forecast: map<Option<Id>, int>) {
    |rows| == |allocations| && forall i :: 0 <= i < |rows| ==> RowFits(rows[i], allocations[i], actual, forecast)
  }

  method BuildRows(allocations: seq<Allocation>, actual: map<Option<Id>, int>, forecast: map<Option<Id>, int>)
      returns (rows: seq<CategoryRow>)
    ensures RowsFit(rows, allocations, actual, forecast)
  {
    rows := [];
    for i := 0 to |allocations|
      invariant |rows| == i
      invariant forall j :: 0 <= j < i ==> RowFits(rows[j], allocations[j], actual, forecast)
    {
      var a := allocations[i];
      var spent, expected := Get(actual, Some(a.category)), Get(forecast, Some(a.category));
      var projected := spent + expected;
      rows := rows + [CategoryRow(a.category, a.planned, spent, expected, projected, a.planned - projected,
                                  RoundDiv(projected * 100 * 10_000, a.planned))];
    }
  }

  function ForecastOnRows(rows: seq<CategoryRow>): int {
    if rows == [] then 0 else ForecastOnRows(rows[..|rows| - 1]) + rows[|rows| - 1].forecast
  }

  lemma {:induction false} RowsSum(rows: seq<CategoryRow>, allocations: seq<Allocation>, actual: map<Option<Id>, int>,
                                   forecast: map<Option<Id>, int>)
    requires RowsFit(rows, allocations, actual, forecast)
    ensures ForecastOnRows(rows) == OnAllocated(allocations, forecast, |allocations|)
    decreases |rows|
  {
    if rows != [] {
      var n := |rows| - 1;
      RowsSum(rows[..n], allocations[..n], actual, forecast);
      SamePrefix(allocations, forecast, n);
    }
  }

  lemma {:induction false} SamePrefix(allocations: seq<Allocation>, m: map<Option<Id>, int>, n: nat)
    requires n <= |allocations|
    ensures OnAllocated(allocations[..n], m, n) == OnAllocated(allocations, m, n)
    decreases n
  {
    if n > 0 {
      SamePrefix(allocations, m, n - 1);
      SamePrefix(allocations[..n], m, n - 1);
      assert allocations[..n][..n - 1] == allocations[..n - 1];
    }
  }

  // ----- what the listed occurrences guarantee -----

  /** Scheduled and pending amounts are the amounts of the two modes. */
  lemma {:induction false} ModesAddUp(x: Input, causes: seq<Cause>, occurrences: seq<Occurrence>)
    requires Shows(x, causes, occurrences)
    ensures var s, p := FlowOver(occurrences, ScheduledFlow), FlowOver(occurrences, PendingFlow);
      var c, d := FlowOver(occurrences, ModeFlow(ConfirmedMode)), FlowOver(occurrences, ModeFlow(DraftMode));
      s.income + p.income == c.income + d.income && s.expense + p.expense == c.expense + d.expense
      && s.count + p.count == c.count + d.count
    decreases |occurrences|
  {
    if occurrences != [] {
      var n := |occurrences| - 1;
      ModesAddUp(x, causes[..n], occurrences[..n]);
      assert Sensible(x, causes[n]) && occurrences[n] == OccurrenceOf(x, causes[n]);
    }
  }

  /** No slot with a loaded execution adds a scheduled amount, and no open slot is forecast twice. */
  lemma NoSlotTwice(x: Input, causes: seq<Cause>, occurrences: seq<Occurrence>, i: nat, j: nat)
    requires ListsExactly(x, causes) && Shows(x, causes, occurrences)
    requires i < |occurrences| && occurrences[i].execution == None && occurrences[i].state != Exception
    ensures !HasRecord(x, occurrences[i].rule, occurrences[i].scheduledFor)
    ensures j < |occurrences| && i != j && occurrences[j].execution == None ==>
      occurrences[i].rule != occurrences[j].rule || occurrences[i].scheduledFor != occurrences[j].scheduledFor
  {
    hide HasRecord, OpenSlot;
    assert causes[i] in causes;
    assert causes[i] == FromSlot(occurrences[i].rule, occurrences[i].scheduledFor) by { SlotCause(x, causes[i]); }
    if j < |occurrences| && occurrences[j].execution == None {
      assert causes[j] in causes;
      UnrecordedCause(x, causes[j]);
      if occurrences[i].rule == occurrences[j].rule {
        assert !Overdue(x, occurrences[i].rule) by { SlotRule(x, occurrences[i].rule, occurrences[i].scheduledFor); }
      }
    }
  }

  lemma SlotCause(x: Input, c: Cause)
    requires Sensible(x, c) && OccurrenceOf(x, c).execution == None && OccurrenceOf(x, c).state != Exception
    ensures c == FromSlot(OccurrenceOf(x, c).rule, OccurrenceOf(x, c).scheduledFor)
  {
  }

  lemma UnrecordedCause(x: Input, c: Cause)
    requires Sensible(x, c) && OccurrenceOf(x, c).execution == None
    ensures var o := OccurrenceOf(x, c); c == FromSlot(o.rule, o.scheduledFor) || c == FromCursor(o.rule)
  {
  }

  /** An execution is listed at most once outside the pending drafts, exactly once if it is exceptional. */
  lemma ExecutionListedOnce(x: Input, causes: seq<Cause>, occurrences: seq<Occurrence>, e: Id)
    requires ListsExactly(x, causes) && Shows(x, causes, occurrences)
    ensures var places := set i | 0 <= i < |occurrences| && causes[i] == FromExecution(e);
      |places| == if Loaded(x, e) && VerdictOf(x, e).Exceptional? then 1 else 0
    ensures forall i :: 0 <= i < |occurrences| && occurrences[i].execution == Some(e) ==>
      causes[i] == FromExecution(e) || causes[i] == FromPending(e)
  {
    hide OpenSlot, HasRecord, FirstRecord;
    var places := set i | 0 <= i < |occurrences| && causes[i] == FromExecution(e);
    if Expected(x, FromExecution(e)) {
      assert FromExecution(e) in causes;
      var i :| 0 <= i < |causes| && causes[i] == FromExecution(e);
      assert places == {i};
    } else {
      assert forall i :: 0 <= i < |causes| ==> causes[i] in causes;
      assert places == {};
    }
  }

  /** A scheduled expense adds its amount to its category and to the total. */
  /** What a scheduled slot adds to each total. */
  lemma SlotTotals(x: Input, occurrences: seq<Occurrence>, r: Id, slot: Instant)
    requires r in x.rules && x.rules[r].mode != ReminderOnly && x.rules[r].txType != Transfer
    ensures var rule, longer := x.rules[r], occurrences + [SlotOccurrence(x, r, slot)];
      var mode := if rule.mode == ConfirmedMode then ConfirmedMode else DraftMode;
      var other := if rule.mode == ConfirmedMode then DraftMode else ConfirmedMode;
      && FlowOver(longer, ScheduledFlow) == Grown(FlowOver(occurrences, ScheduledFlow), rule.txType, rule.amount)
      && FlowOver(longer, ModeFlow(mode)) == Grown(FlowOver(occurrences, ModeFlow(mode)), rule.txType, rule.amount)
      && FlowOver(longer, ModeFlow(other)) == FlowOver(occurrences, ModeFlow(other))
      && FlowOver(longer, PendingFlow) == FlowOver(occurrences, PendingFlow)
      && FlowOver(longer, AdvisoryFlow) == FlowOver(occurrences, AdvisoryFlow)
      && ExceptionsOver(longer) == ExceptionsOver(occurrences) && TransfersOver(longer) == TransfersOver(occurrences)
  {
    hide FlowOver, ExceptionsOver, TransfersOver, CategoryOver;
    OverAppend(x, occurrences, SlotOccurrence(x, r, slot));
  }

  function Grown(f: FlowTotals, t: TxType, amount: int): FlowTotals {
    if t == Income || t == Expense then AddFlow(f, t, amount) else f
  }

  lemma SlotCategories(x: Input, occurrences: seq<Occurrence>, r: Id, slot: Instant, byCategory: map<Option<Id>, int>,
                       expense: int)
    requires r in x.rules && x.rules[r].mode != ReminderOnly && x.rules[r].txType != Transfer
    requires CategoriesHold(x, occurrences, byCategory, expense)
    ensures var rule := x.rules[r];
      var longer := occurrences + [SlotOccurrence(x, r, slot)];
      if rule.txType == Expense then
        CategoriesHold(x, longer, byCategory[rule.category := Get(byCategory, rule.category) + rule.amount],
                       expense + rule.amount)
      else CategoriesHold(x, longer, byCategory, expense)
  {
    hide CategoryOver, Total;
    OverAppend(x, occurrences, SlotOccurrence(x, r, slot));
    TotalAdd(byCategory, x.rules[r].category, x.rules[r].amount);
  }

  lemma RuleStored(x: Input, e: Id)
    requires Stored(x) && e in x.executions
    ensures x.executions[e].rule in x.rules
  {
  }

  lemma MappedRecord(x: Input, records: map<(Id, Instant), Id>, r: Id, s: Instant)
    requires Mapped(x, records)
    ensures (r, s) in records <==> HasRecord(x, r, s)
    ensures (r, s) in records ==> RecordOf(x, r, s, records[(r, s)])
  {
    if HasRecord(x, r, s) {
      var e :| RecordOf(x, r, s, e);
      assert (x.executions[e].rule, x.executions[e].scheduledFor) in records;
    }
  }

  lemma CursorCovers(x: Input, causes: seq<Cause>, scope: Scope, r: Id, record: Option<Id>)
    requires Stored(x) && Overdue(x, r) && Listed(x, causes, scope) && Tracked(x, scope)
    requires r !in scope.rules && forall s :: (r, s) !in scope.slots
    requires if record.Some? then RecordOf(x, r, Cursor(x, r), record.value) else !HasRecord(x, r, Cursor(x, r))
    ensures var executions := if record == None then scope.executions else scope.executions + {record.value};
      var scope' := scope.(rules := scope.rules + {r}, executions := executions);
      && Tracked(x, scope')
      && Listed(x, causes + [if record == None then FromCursor(r) else FromExecution(record.value)], scope')
  {
    var executions := if record == None then scope.executions else scope.executions + {record.value};
    var scope' := scope.(rules := scope.rules + {r}, executions := executions);
    var c := if record == None then FromCursor(r) else FromExecution(record.value);
    if record.Some? {
      assert AtCursor(x, record.value);
      assert HasRecord(x, r, Cursor(x, r));
    }
    assert Tracked(x, scope') by {
      forall e | Loaded(x, e) && AtCursor(x, e) && x.executions[e].rule == r ensures e in executions {
        assert RecordOf(x, r, Cursor(x, r), e);
      }
    }
    ListedAppends(x, causes, scope, scope', c);
  }

  lemma CursorActuals(x: Input, executions: set<Id>, record: Option<Id>)
    requires record.Some? ==> record.value in x.executions && AtCursor(x, record.value)
    ensures Actuals(x, if record == None then executions else executions + {record.value}) == Actuals(x, executions)
  {
  }

  lemma SlotRule(x: Input, r: Id, s: Instant)
    requires OpenSlot(x, r, s)
    ensures ActiveRule(x, r) && !Overdue(x, r)
  {
  }

  lemma PendingOf(x: Input, pendingIds: set<Id>, e: Id)
    requires Stored(x) && PendingKnown(x, pendingIds) && e in x.executions && x.executions[e].tx.Some?
    ensures x.executions[e].tx.value in pendingIds <==> PendingTx(x, x.executions[e].tx.value)
  {
  }

  lemma ActualsAdd(x: Input, executions: set<Id>, e: Id)
    requires e in x.executions
    ensures Actuals(x, executions + {e}) ==
      if VerdictOf(x, e) == Actual then Actuals(x, executions) + {e} else Actuals(x, executions)
  {
  }

  lemma SlotCovers(x: Input, causes: seq<Cause>, scope: Scope, r: Id, s: Instant, record: Option<Id>)
    requires Stored(x) && OpenSlot(x, r, s) && Listed(x, causes, scope) && Tracked(x, scope)
    requires r !in scope.rules && (r, s) !in scope.slots
    requires if record.Some? then RecordOf(x, r, s, record.value) else !HasRecord(x, r, s)
    ensures var executions := if record == None then scope.executions else scope.executions + {record.value};
      var scope' := scope.(slots := scope.slots + {(r, s)}, executions := executions);
      && Tracked(x, scope')
      && (record == None ==> Listed(x, causes + [FromSlot(r, s)], scope'))
      && (record.Some? && VerdictOf(x, record.value).Exceptional? ==>
            Listed(x, causes + [FromExecution(record.value)], scope'))
      && (record.Some? && !VerdictOf(x, record.value).Exceptional? ==> Listed(x, causes, scope'))
  {
    hide Listed, Stored;
    var executions := if record == None then scope.executions else scope.executions + {record.value};
    var scope' := scope.(slots := scope.slots + {(r, s)}, executions := executions);
    if record == None {
      ListedAppends(x, causes, scope, scope', FromSlot(r, s));
    } else {
      assert HasRecord(x, r, s);
      if VerdictOf(x, record.value).Exceptional? {
        ListedAppends(x, causes, scope, scope', FromExecution(record.value));
      } else {
        ListedStays(x, causes, scope, scope');
      }
    }
  }

  /** All slots of `r` are dealt with, so `r` is. */
  lemma RuleCovers(x: Input, causes: seq<Cause>, scope: Scope, current: Scope, r: Id)
    requires Listed(x, causes, current) && Tracked(x, current)
    requires ActiveRule(x, r) && !Overdue(x, r)
    requires forall s :: OpenSlot(x, r, s) ==> (r, s) in current.slots
    requires current.rules == scope.rules
    ensures var scope' := current.(rules := scope.rules + {r});
      Listed(x, causes, scope') && Tracked(x, scope')
  {
    ListedStays(x, causes, current, current.(rules := scope.rules + {r}));
  }

  lemma PendingCovers(x: Input, causes: seq<Cause>, scope: Scope, e: Id)
    requires FirstRecord(x, e) && e !in scope.pending && Listed(x, causes, scope)
    ensures Listed(x, causes + [FromPending(e)], scope.(pending := scope.pending + {e}))
  {
    hide Listed;
    ListedAppends(x, causes, scope, scope.(pending := scope.pending + {e}), FromPending(e));
  }

  lemma ReplayCovers(x: Input, causes: seq<Cause>, scope: Scope, e: Id)
    requires Loaded(x, e) && e !in scope.executions && Listed(x, causes, scope)
    ensures var scope' := scope.(executions := scope.executions + {e});
      Listed(x, if VerdictOf(x, e).Exceptional? then causes + [FromExecution(e)] else causes, scope')
  {
    hide Listed;
    var scope' := scope.(executions := scope.executions + {e});
    if VerdictOf(x, e).Exceptional? {
      ListedAppends(x, causes, scope, scope', FromExecution(e));
    } else {
      ListedStays(x, causes, scope, scope');
    }
  }

  /** `setdefault` over the pending records: the first record of every transaction. */
  method FirstRecords(x: Input) returns (firsts: seq<Id>, pendingIds: set<Id>)
    requires Stored(x)
    ensures forall e :: e in firsts <==> FirstRecord(x, e)
    ensures forall i, j :: 0 <= i < j < |firsts| ==> firsts[i] != firsts[j]
    ensures PendingKnown(x, pendingIds)
  {
    hide Stored, FirstRecord, Ordered, Before, LinkedBy, FirstsSoFar;
    var keys := PendingKeys(x);
    var order := OrderBy(keys);
    assert forall e: Id :: e in order ==> PendingRecord(x, e);
    firsts, pendingIds := [], {};
    NoFirsts(x);
    for k := 0 to |order|
      invariant FirstsSoFar(x, order[..k], firsts, pendingIds)
    {
      var e := order[k];
      assert e in order;
      var tx := x.executions[e].tx.value;
      FirstStep(x, keys, order, k, firsts, pendingIds);
      if tx !in pendingIds {
        firsts := firsts + [e];
      }
      pendingIds := pendingIds + {tx};
    }
    assert order[..|order|] == order;
    AllLinked(x, order, firsts, pendingIds);
  }

  /** The records of `done` have yielded `firsts`, and link exactly `pendingIds`. */
  ghost predicate FirstsSoFar(x: Input, done: seq<Id>, firsts: seq<Id>, pendingIds: set<Id>) {
    && (forall e: Id :: e in firsts <==> e in done && FirstRecord(x, e))
    && (forall i, j :: 0 <= i < j < |firsts| ==> firsts[i] != firsts[j])
    && (forall tx: Id :: tx in pendingIds <==> LinkedBy(x, done, tx))
  }

  lemma NoFirsts(x: Input)
    ensures forall order: seq<Id> :: FirstsSoFar(x, order[..0], [], {})
  {
  }

  lemma FirstStep(x: Input, keys: map<Id, Key>, order: seq<Id>, k: nat, firsts: seq<Id>, pendingIds: set<Id>)
    requires keys == PendingKeys(x) && k < |order|
    requires forall e: Id :: e in order <==> e in keys
    requires Ordered(keys, order)
    requires FirstsSoFar(x, order[..k], firsts, pendingIds)
    ensures PendingRecord(x, order[k])
    ensures var e := order[k]; var tx := x.executions[e].tx.value;
      FirstsSoFar(x, order[..k + 1], if tx in pendingIds then firsts else firsts + [e], pendingIds + {tx})
  {
    hide FirstRecord, LinkedBy, Ordered;
    var e := order[k];
    FirstOf(x, keys, order, k);
    assert order[..k + 1] == order[..k] + [e];
    LinkedMore(x, order[..k], e);
    assert e !in order[..k];
  }

  lemma AllLinked(x: Input, order: seq<Id>, firsts: seq<Id>, pendingIds: set<Id>)
    requires forall e: Id :: e in order <==> PendingRecord(x, e)
    requires FirstsSoFar(x, order, firsts, pendingIds)
    ensures PendingKnown(x, pendingIds)
    ensures forall e: Id :: e in firsts <==> FirstRecord(x, e)
    ensures forall i, j :: 0 <= i < j < |firsts| ==> firsts[i] != firsts[j]
  {
    forall e | e in x.executions && x.executions[e].rule in x.rules && x.executions[e].tx.Some?
      ensures x.executions[e].tx.value in pendingIds <==> PendingTx(x, x.executions[e].tx.value)
    {
      if PendingTx(x, x.executions[e].tx.value) {
        assert e in order;
      }
    }
  }

  ghost predicate LinkedBy(x: Input, records: seq<Id>, tx: Id) {
    exists e: Id :: e in records && PendingRecord(x, e) && x.executions[e].tx == Some(tx)
  }

  lemma LinkedMore(x: Input, records: seq<Id>, e: Id)
    requires PendingRecord(x, e)
    ensures forall tx: Id :: LinkedBy(x, records + [e], tx) <==> LinkedBy(x, records, tx) || x.executions[e].tx == Some(tx)
  {
    forall tx: Id ensures LinkedBy(x, records + [e], tx) <==> LinkedBy(x, records, tx) || x.executions[e].tx == Some(tx) {
      if LinkedBy(x, records, tx) {
        var y: Id :| y in records && PendingRecord(x, y) && x.executions[y].tx == Some(tx);
        assert y in records + [e];
      }
      assert e in records + [e];
    }
  }

  lemma FirstOf(x: Input, keys: map<Id, Key>, order: seq<Id>, k: nat)
    requires keys == PendingKeys(x) && k < |order|
    requires forall e: Id :: e in order <==> e in keys
    requires Ordered(keys, order)
    ensures PendingRecord(x, order[k])
    ensures FirstRecord(x, order[k]) <==> !LinkedBy(x, order[..k], x.executions[order[k]].tx.value)
    ensures forall i :: 0 <= i < k ==> order[i] != order[k]
  {
    var e := order[k];
    assert e in order;
    forall j | 0 <= j < k ensures order[j] in order[..k] {
      assert order[..k][j] == order[j];
    }
    if LinkedBy(x, order[..k], x.executions[e].tx.value) {
      var y: Id :| y in order[..k] && PendingRecord(x, y) && x.executions[y].tx == x.executions[e].tx;
      assert Before(keys, y, e);
    } else {
      forall y: Id | PendingRecord(x, y) && x.executions[y].tx == x.executions[e].tx && y != e
        ensures Before(keys, e, y)
      {
        assert y in order;
        var j :| 0 <= j < |order| && order[j] == y;
      }
    }
  }
}
