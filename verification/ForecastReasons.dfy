/** What a listed occurrence tells about the tables: where scheduled slots lie, and why an exception is one. */
module ForecastReasons {
  import opened Domain
  import opened Recurrence
  import opened ForecastSpec

  /** The rule is one of the current rules of the currency, with a next run. */
  predicate CurrentRule(x: Input, r: Id) {
    && r in x.rules && x.rules[r].active && !x.rules[r].deleted && x.rules[r].currency == x.currency
    && x.rules[r].nextRunAt.Some?
  }

  predicate RunOverdue(x: Input, r: Id)
    requires r in x.rules
  {
    x.rules[r].nextRunAt.Some? && Second(x.rules[r].nextRunAt.value) < x.asOf
  }

  predicate InPeriodOf(x: Input, t: Transaction) {
    t.currency == x.currency && x.start <= t.occurredAt && t.occurredAt < x.end
  }

  predicate CountsNow(t: Transaction) {
    (t.status == Confirmed || t.status == Reconciled) && !t.deleted
  }

  /** A listed slot lies ahead of the instant of the forecast and inside the period, at or after the next run
      of its rule, and carries the rule's own amount and type. */
  lemma SlotsLieAhead(x: Input, causes: seq<Cause>, occurrences: seq<Occurrence>, i: nat)
    requires ListsExactly(x, causes) && Shows(x, causes, occurrences) && i < |occurrences|
    requires occurrences[i].execution == None && occurrences[i].state != Exception
    requires forall r :: Advances(x.following(r))
    ensures var o := occurrences[i];
      && CurrentRule(x, o.rule) && !RunOverdue(x, o.rule)
      && x.asOf <= o.scheduledFor && x.start <= o.scheduledFor && o.scheduledFor < x.end
      && Second(x.rules[o.rule].nextRunAt.value) <= o.scheduledFor
      && o.txType == x.rules[o.rule].txType && o.amount == x.rules[o.rule].amount && o.effectiveAt == o.scheduledFor
      && (o.state == Advisory <==> x.rules[o.rule].mode == ReminderOnly)
      && (o.state == InformationalTransfer <==> x.rules[o.rule].mode != ReminderOnly && o.txType == Transfer)
  {
    hide HasRecord;
    assert causes[i] in causes;
    assert Expected(x, causes[i]);
    var o := occurrences[i];
    assert causes[i] == FromSlot(o.rule, o.scheduledFor);
    SlotFrom(x.following(o.rule), Cursor(x, o.rule), WindowStart(x), x.end, o.scheduledFor);
  }

  lemma SlotFrom(f: Following, cursor: Instant, from: Instant, end: Instant, s: Instant)
    requires Advances(f) && IsSlot(f, cursor, from, end, s)
    ensures cursor <= s && from <= s && s < end
  {
    var n: nat :| Nth(f, cursor, n) == Some(s);
    if n > 0 {
      LaterSlots(f, cursor, 0, n);
    }
  }

  /** A listed pending draft is one: a live draft of the currency in the period, of the amount it shows. */
  lemma PendingIsDraft(x: Input, causes: seq<Cause>, occurrences: seq<Occurrence>, i: nat)
    requires ListsExactly(x, causes) && Shows(x, causes, occurrences) && i < |occurrences|
    requires occurrences[i].state == PendingDraft
    ensures var o := occurrences[i];
      && o.tx.Some? && o.tx.value in x.txs
      && var t := x.txs[o.tx.value];
      && t.status == Draft && !t.deleted && InPeriodOf(x, t)
      && o.amount == t.amount && o.txType == t.txType && (t.txType == Income || t.txType == Expense)
  {
    assert causes[i] in causes;
  }

  // ----- exceptions -----

  /** What each reason says, on the rows. */
  ghost predicate ReasonHolds(x: Input, o: Occurrence) {
    && o.rule in x.rules && o.reason.Some?
    && (o.execution.Some? ==> o.execution.value in x.executions)
    && match o.reason.value
       case OverdueUnmaterialized =>
         CurrentRule(x, o.rule) && RunOverdue(x, o.rule)
         && !exists e :: RecordOf(x, o.rule, Second(x.rules[o.rule].nextRunAt.value), e)
       case FailedExecution => o.execution.Some? && x.executions[o.execution.value].status == FailedRun
       case IncompleteExecution =>
         o.execution.Some? && x.executions[o.execution.value].status == Created && RunOverdue(x, o.rule)
       case CursorNotAdvanced =>
         o.execution.Some? && RunOverdue(x, o.rule)
         && x.executions[o.execution.value].status != FailedRun && x.executions[o.execution.value].status != Created
       case OutsidePeriod => o.tx.Some? && o.tx.value in x.txs && CountsNow(x.txs[o.tx.value]) && !InPeriodOf(x, x.txs[o.tx.value])
       case DraftMoved =>
         o.tx.Some? && o.tx.value in x.txs
         && x.txs[o.tx.value].status == Draft && !x.txs[o.tx.value].deleted && !InPeriodOf(x, x.txs[o.tx.value])
       case LinkedExcluded =>
         o.tx.Some? && o.tx.value in x.txs && (x.txs[o.tx.value].deleted || x.txs[o.tx.value].status == Cancelled)
       case SkippedExecution => o.execution.Some? && x.executions[o.execution.value].status == Skipped
       case MissingTransaction =>
         o.execution.Some? && x.executions[o.execution.value].tx == None
         && x.executions[o.execution.value].status in {Created, DraftCreated, ConfirmedCreated}
       case UnsupportedPending =>
         o.tx.Some? && o.tx.value in x.txs
         && x.txs[o.tx.value].status == Draft && InPeriodOf(x, x.txs[o.tx.value])
         && (x.txs[o.tx.value].txType == Refund || x.txs[o.tx.value].txType == Adjustment)
  }

  /** What each flag says. */
  ghost predicate FlagsHold(x: Input, o: Occurrence)
    requires o.rule in x.rules && (o.execution.Some? ==> o.execution.value in x.executions)
  {
    && (o.flags.failed ==> o.execution.Some? && x.executions[o.execution.value].status == FailedRun)
    && (o.flags.skipped ==> o.execution.Some? && x.executions[o.execution.value].status == Skipped)
    && (o.flags.overdue <==> o.flags.blocked) && (o.flags.overdue ==> RunOverdue(x, o.rule))
    && (o.flags.excluded ==> o.tx.Some? && o.tx.value in x.txs)
  }

  /** Every listed exception names a reason that is true of the rows, and so are its flags. */
  lemma ExceptionsAreTrue(x: Input, causes: seq<Cause>, occurrences: seq<Occurrence>, i: nat)
    requires Stored(x) && ListsExactly(x, causes) && Shows(x, causes, occurrences) && i < |occurrences|
    requires occurrences[i].state == Exception
    ensures ReasonHolds(x, occurrences[i]) && FlagsHold(x, occurrences[i])
  {
    hide RecordOf;
    var c := causes[i];
    assert c in causes;
    assert Expected(x, c);
    match c
    case FromPending(e) =>
    case FromCursor(r) =>
    case FromExecution(e) => ExecutionIsTrue(x, e);
    case FromSlot(_, _) =>
  }

  lemma ExecutionIsTrue(x: Input, e: Id)
    requires Stored(x) && Loaded(x, e) && VerdictOf(x, e).Exceptional?
    ensures x.executions[e].rule in x.rules
    ensures var o := OccurrenceOf(x, FromExecution(e)); ReasonHolds(x, o) && FlagsHold(x, o)
  {
  }

  /** A loaded execution that is not listed as an exception needs none: its transaction counts in the period,
      or is a pending draft of it, or it was only a reminder. */
  lemma UnlistedIsSettled(x: Input, causes: seq<Cause>, e: Id)
    requires Stored(x) && ListsExactly(x, causes) && Loaded(x, e) && FromExecution(e) !in causes
    ensures var execution := x.executions[e];
      || (execution.tx == None && execution.status == ReminderSent)
      || (execution.tx.Some? && execution.tx.value in x.txs
          && var t := x.txs[execution.tx.value];
          InPeriodOf(x, t) && (CountsNow(t) || (t.status == Draft && !t.deleted)))
  {
    assert !Expected(x, FromExecution(e));
  }
}
