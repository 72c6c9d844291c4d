/** What a budget forecast has to list: one occurrence for every cause, and which causes there are. */
module ForecastSpec {
  import opened Domain
  import opened Sums
  import opened Ordering
  import opened BudgetActuals
  import opened Recurrence

  const SECOND: int := 1_000_000

  function Second(t: Instant): Instant {
    t - t % SECOND
  }

  datatype ExecutionStatus = Created | DraftCreated | ConfirmedCreated | ReminderSent | Skipped | FailedRun
  datatype Execution = Execution(rule: Id, scheduledFor: Instant, status: ExecutionStatus, tx: Option<Id>)

  datatype Mode = DraftMode | ConfirmedMode | ReminderOnly
  type RecurringType = t: TxType | t == Income || t == Expense || t == Transfer witness Income

  datatype Recurring = Recurring(
    txType: RecurringType,
    amount: Positive,
    currency: string,
    category: Option<Id>,
    mode: Mode,
    nextRunAt: Option<Instant>,
    active: bool,
    deleted: bool)

  /** The tables and the arguments of one forecast; `asOf` is cut to the second. */
  datatype Input = Input(
    rules: map<Id, Recurring>,
    executions: map<Id, Execution>,
    txs: map<Id, Transaction>,
    following: Id -> Following,
    currency: string,
    start: Instant,
    end: Instant,
    asOf: Instant)

  /** What the tables guarantee: foreign keys, one execution per rule and slot, slots in whole seconds. */
  ghost predicate Stored(x: Input) {
    && (forall e :: e in x.executions ==>
          && x.executions[e].rule in x.rules
          && x.executions[e].scheduledFor % SECOND == 0
          && (x.executions[e].tx.Some? ==> x.executions[e].tx.value in x.txs))
    && (forall e, e' :: e in x.executions && e' in x.executions && SameSlot(x.executions[e], x.executions[e']) ==>
          e == e')
    && (forall r :: Advances(x.following(r)))
    && x.asOf % SECOND == 0
  }

  predicate SameSlot(e: Execution, e': Execution) {
    e.rule == e'.rule && e.scheduledFor == e'.scheduledFor
  }

  // ----- rules, cursors and slots -----

  predicate ActiveRule(x: Input, r: Id) {
    && r in x.rules && x.rules[r].currency == x.currency
    && x.rules[r].active && !x.rules[r].deleted && x.rules[r].nextRunAt.Some?
  }

  function Cursor(x: Input, r: Id): Instant {
    if r in x.rules && x.rules[r].nextRunAt.Some? then Second(x.rules[r].nextRunAt.value) else 0
  }

  predicate Overdue(x: Input, r: Id) {
    ActiveRule(x, r) && Cursor(x, r) < x.asOf
  }

  function WindowStart(x: Input): Instant {
    if x.start < x.asOf then x.asOf else x.start
  }

  /** The slots a rule still has in the period. An overdue rule is blocked and has none. */
  ghost predicate OpenSlot(x: Input, r: Id, s: Instant) {
    && ActiveRule(x, r) && !Overdue(x, r) && Cursor(x, r) < x.end
    && IsSlot(x.following(r), Cursor(x, r), WindowStart(x), x.end, s)
  }

  // ----- executions -----

  predicate AtCursor(x: Input, e: Id)
    requires e in x.executions
  {
    var rule := x.executions[e].rule;
    Overdue(x, rule) && x.executions[e].scheduledFor == Cursor(x, rule)
  }

  predicate InWindow(x: Input, t: Instant) {
    x.start <= t < x.end
  }

  predicate Loaded(x: Input, e: Id) {
    && e in x.executions && ActiveRule(x, x.executions[e].rule)
    && (InWindow(x, x.executions[e].scheduledFor) || AtCursor(x, e))
  }

  predicate RecordOf(x: Input, r: Id, s: Instant, e: Id) {
    Loaded(x, e) && x.executions[e].rule == r && x.executions[e].scheduledFor == s
  }

  ghost predicate HasRecord(x: Input, r: Id, s: Instant) {
    exists e :: RecordOf(x, r, s, e)
  }

  // ----- pending drafts -----

  predicate PendingTx(x: Input, tx: Id) {
    && tx in x.txs && x.txs[tx].status == Draft && !x.txs[tx].deleted
    && x.txs[tx].currency == x.currency && InWindow(x, x.txs[tx].occurredAt)
  }

  predicate PendingRecord(x: Input, e: Id) {
    && e in x.executions && x.executions[e].rule in x.rules
    && x.executions[e].tx.Some? && PendingTx(x, x.executions[e].tx.value)
  }

  /** The order in which pending records are read. */
  function PendingKeys(x: Input): (keys: map<Id, Key>)
    ensures forall e :: e in keys <==> PendingRecord(x, e)
  {
    map e | e in x.executions && PendingRecord(x, e) ::
      Key(x.txs[x.executions[e].tx.value].occurredAt, x.executions[e].rule)
  }

  /** The record that stands for its transaction: the first one that links it. */
  ghost predicate FirstRecord(x: Input, e: Id) {
    && PendingRecord(x, e)
    && forall e' :: PendingRecord(x, e') && x.executions[e'].tx == x.executions[e].tx && e' != e ==>
         Before(PendingKeys(x), e, e')
  }

  // ----- how an execution is classified -----

  datatype Reason =
    | OverdueUnmaterialized | FailedExecution | IncompleteExecution | CursorNotAdvanced
    | OutsidePeriod | DraftMoved | LinkedExcluded | SkippedExecution | MissingTransaction
    | UnsupportedPending

  datatype Flags = Flags(failed: bool, skipped: bool, excluded: bool, overdue: bool, incomplete: bool, blocked: bool)

  const NO_FLAGS := Flags(false, false, false, false, false, false)

  datatype Verdict = Actual | Silent | Exceptional(reason: Reason, flags: Flags)


  /** An execution that sits on the cursor of an overdue rule. */
  function CursorVerdict(e: Execution): Verdict {
    match e.status
    case FailedRun => Exceptional(FailedExecution, NO_FLAGS.(failed := true, overdue := true, blocked := true))
    case Created => Exceptional(IncompleteExecution, NO_FLAGS.(overdue := true, incomplete := true, blocked := true))
    case status =>
      Exceptional(CursorNotAdvanced,
                  NO_FLAGS.(skipped := status == Skipped, overdue := true, incomplete := true, blocked := true))
  }

  function MaterializedVerdict(x: Input, e: Execution): Verdict {
    var linked := Lookup(x.txs, e.tx);
    if linked.Some? then
      var t := linked.value;
      if Effective(t) then
        if t.currency == x.currency && InWindow(x, t.occurredAt) then Actual
        else Exceptional(OutsidePeriod, NO_FLAGS.(excluded := true))
      else if t.status == Draft && !t.deleted then
        if PendingTx(x, e.tx.value) then Silent else Exceptional(DraftMoved, NO_FLAGS.(excluded := true))
      else Exceptional(LinkedExcluded, NO_FLAGS.(excluded := true))
    else if e.status == ReminderSent then Silent
    else if e.status == Skipped then Exceptional(SkippedExecution, NO_FLAGS.(skipped := true))
    else if e.status == FailedRun then Exceptional(FailedExecution, NO_FLAGS.(failed := true))
    else Exceptional(MissingTransaction, NO_FLAGS.(incomplete := true))
  }

  function VerdictOf(x: Input, e: Id): Verdict
    requires e in x.executions
  {
    if AtCursor(x, e) then CursorVerdict(x.executions[e]) else MaterializedVerdict(x, x.executions[e])
  }

  // ----- causes and occurrences -----

  datatype Cause =
    | FromPending(execution: Id)
    | FromCursor(rule: Id)
    | FromExecution(execution: Id)
    | FromSlot(rule: Id, slot: Instant)

  /** Everything a forecast has to list, each once: every pending draft once, every overdue cursor without an
      execution, every loaded execution that is exceptional, and every open slot without an execution. */
  ghost predicate Expected(x: Input, c: Cause) {
    match c
    case FromPending(e) => FirstRecord(x, e)
    case FromCursor(r) => Overdue(x, r) && !HasRecord(x, r, Cursor(x, r))
    case FromExecution(e) => Loaded(x, e) && VerdictOf(x, e).Exceptional?
    case FromSlot(r, s) => OpenSlot(x, r, s) && !HasRecord(x, r, s)
  }

  datatype OccurrenceState = Scheduled | Advisory | InformationalTransfer | PendingDraft | Exception

  datatype Occurrence = Occurrence(
    rule: Id,
    scheduledFor: Instant,
    effectiveAt: Instant,
    txType: TxType,
    amount: int,
    category: Option<Id>,
    mode: Mode,
    state: OccurrenceState,
    execution: Option<Id>,
    tx: Option<Id>,
    reason: Option<Reason>,
    flags: Flags)

  function ExceptionOccurrence(x: Input, r: Id, s: Instant, e: Option<Id>, tx: Option<Id>, reason: Reason, flags: Flags):
      Occurrence
    requires r in x.rules
  {
    var rule, linked := x.rules[r], Lookup(x.txs, tx);
    if linked.Some? then
      var t := linked.value;
      Occurrence(r, s, t.occurredAt, t.txType, t.amount, t.category, rule.mode, Exception, e, tx, Some(reason), flags)
    else
      Occurrence(r, s, s, rule.txType, rule.amount, rule.category, rule.mode, Exception, e, None, Some(reason), flags)
  }

  function SlotOccurrence(x: Input, r: Id, s: Instant): Occurrence
    requires r in x.rules
  {
    var rule := x.rules[r];
    var state := if rule.mode == ReminderOnly then Advisory
                 else if rule.txType == Transfer then InformationalTransfer else Scheduled;
    Occurrence(r, s, s, rule.txType, rule.amount, rule.category, rule.mode, state, None, None, None, NO_FLAGS)
  }

  function PendingOccurrence(x: Input, e: Id): Occurrence
    requires PendingRecord(x, e)
  {
    var execution := x.executions[e];
    var tx := execution.tx.value;
    var t := x.txs[tx];
    if t.txType == Income || t.txType == Expense then
      Occurrence(execution.rule, execution.scheduledFor, t.occurredAt, t.txType, t.amount,
                 if t.splits != [] then None else t.category, DraftMode, PendingDraft, Some(e), Some(tx), None, NO_FLAGS)
    else if t.txType == Transfer then
      Occurrence(execution.rule, execution.scheduledFor, t.occurredAt, Transfer, t.amount, None, DraftMode,
                 InformationalTransfer, Some(e), Some(tx), None, NO_FLAGS)
    else
      ExceptionOccurrence(x, execution.rule, execution.scheduledFor, Some(e), Some(tx), UnsupportedPending,
                          NO_FLAGS.(excluded := true))
  }

  /** The cause makes sense: what it names exists. */
  ghost predicate Sensible(x: Input, c: Cause) {
    match c
    case FromPending(e) => PendingRecord(x, e)
    case FromCursor(r) => r in x.rules
    case FromExecution(e) => e in x.executions && x.executions[e].rule in x.rules && VerdictOf(x, e).Exceptional?
    case FromSlot(r, _) => r in x.rules
  }

  ghost function OccurrenceOf(x: Input, c: Cause): Occurrence
    requires Sensible(x, c)
  {
    match c
    case FromPending(e) => PendingOccurrence(x, e)
    case FromCursor(r) =>
      ExceptionOccurrence(x, r, Cursor(x, r), None, None, OverdueUnmaterialized,
                          NO_FLAGS.(overdue := true, blocked := true))
    case FromExecution(e) =>
      var execution, verdict := x.executions[e], VerdictOf(x, e);
      ExceptionOccurrence(x, execution.rule, execution.scheduledFor, Some(e), execution.tx, verdict.reason, verdict.flags)
    case FromSlot(r, s) => SlotOccurrence(x, r, s)
  }

  /** `occurrences` shows exactly `causes`, in order. */
  ghost predicate Shows(x: Input, causes: seq<Cause>, occurrences: seq<Occurrence>) {
    && |occurrences| == |causes|
    && forall i :: 0 <= i < |causes| ==> Sensible(x, causes[i]) && occurrences[i] == OccurrenceOf(x, causes[i])
  }

  /** Every expected cause is listed exactly once, and nothing else is. */
  ghost predicate ListsExactly(x: Input, causes: seq<Cause>) {
    && (forall c :: c in causes <==> Expected(x, c))
    && (forall i, j :: 0 <= i < j < |causes| ==> causes[i] != causes[j])
  }

  // ----- totals over a list of occurrences -----

  datatype FlowTotals = FlowTotals(income: int, expense: int, count: nat)

  datatype Selector = ScheduledFlow | PendingFlow | AdvisoryFlow | ModeFlow(mode: Mode)

  predicate Selects(s: Selector, o: Occurrence) {
    match s
    case ScheduledFlow => o.state == Scheduled
    case PendingFlow => o.state == PendingDraft
    case AdvisoryFlow => o.state == Advisory
    case ModeFlow(mode) => (o.state == Scheduled || o.state == PendingDraft) && o.mode == mode
  }

  function AddFlow(f: FlowTotals, t: TxType, amount: int): FlowTotals {
    FlowTotals(f.income + if t == Income then amount else 0, f.expense + if t == Expense then amount else 0, f.count + 1)
  }

  function AddSelected(f: FlowTotals, s: Selector, o: Occurrence): FlowTotals {
    if Selects(s, o) then AddFlow(f, o.txType, o.amount) else f
  }

  function FlowOver(occurrences: seq<Occurrence>, s: Selector): FlowTotals {
    if occurrences == [] then FlowTotals(0, 0, 0)
    else
      AddSelected(FlowOver(occurrences[..|occurrences| - 1], s), s, occurrences[|occurrences| - 1])
  }

  function TransfersOver(occurrences: seq<Occurrence>): seq<int> {
    if occurrences == [] then []
    else
      var before, o := TransfersOver(occurrences[..|occurrences| - 1]), occurrences[|occurrences| - 1];
      if o.state == InformationalTransfer then before + [o.amount] else before
  }

  datatype ExceptionTotals = ExceptionTotals(
    count: nat, failed: nat, skipped: nat, excluded: nat, overdue: nat, incomplete: nat, blocked: set<Id>)

  function One(b: bool): nat {
    if b then 1 else 0
  }

  function AddException(t: ExceptionTotals, rule: Id, f: Flags): ExceptionTotals {
    ExceptionTotals(t.count + 1, t.failed + One(f.failed), t.skipped + One(f.skipped), t.excluded + One(f.excluded),
                    t.overdue + One(f.overdue), t.incomplete + One(f.incomplete),
                    if f.blocked then t.blocked + {rule} else t.blocked)
  }

  function ExceptionsOver(occurrences: seq<Occurrence>): ExceptionTotals {
    if occurrences == [] then ExceptionTotals(0, 0, 0, 0, 0, 0, {})
    else
      var before, o := ExceptionsOver(occurrences[..|occurrences| - 1]), occurrences[|occurrences| - 1];
      if o.state == Exception then AddException(before, o.rule, o.flags) else before
  }

  /** What one occurrence adds to the forecast expense of category `k`. */
  function CategoryPart(x: Input, o: Occurrence, k: Option<Id>): int {
    if o.txType != Expense then 0
    else if o.state == Scheduled then if k == o.category then o.amount else 0
    else if o.state == PendingDraft && o.tx.Some? && o.tx.value in x.txs then
      Portion(x.txs[o.tx.value], x.txs[o.tx.value].amount, k)
    else 0
  }

  function CategoryOver(x: Input, occurrences: seq<Occurrence>, k: Option<Id>): int {
    if occurrences == [] then 0
    else CategoryOver(x, occurrences[..|occurrences| - 1], k) + CategoryPart(x, occurrences[|occurrences| - 1], k)
  }

  /** One more occurrence: how every total moves. */
  lemma OverAppend(x: Input, occurrences: seq<Occurrence>, o: Occurrence)
    ensures forall s: Selector ::
      FlowOver(occurrences + [o], s) == AddSelected(FlowOver(occurrences, s), s, o)
    ensures TransfersOver(occurrences + [o]) ==
      if o.state == InformationalTransfer then TransfersOver(occurrences) + [o.amount] else TransfersOver(occurrences)
    ensures ExceptionsOver(occurrences + [o]) ==
      if o.state == Exception then AddException(ExceptionsOver(occurrences), o.rule, o.flags)
      else ExceptionsOver(occurrences)
    ensures forall k :: CategoryOver(x, occurrences + [o], k) == CategoryOver(x, occurrences, k) + CategoryPart(x, o, k)
  {
    assert (occurrences + [o])[..|occurrences|] == occurrences;
  }

  // ----- how far a forecast has got -----

  /** The pending records, rules, slots of the rule at hand and executions already dealt with. */
  datatype Scope = Scope(pending: set<Id>, rules: set<Id>, slots: set<(Id, Instant)>, executions: set<Id>)

  predicate Covers(scope: Scope, c: Cause) {
    match c
    case FromPending(e) => e in scope.pending
    case FromCursor(r) => r in scope.rules
    case FromSlot(r, s) => r in scope.rules || (r, s) in scope.slots
    case FromExecution(e) => e in scope.executions
  }

  /** The expected causes within the scope are listed, each once, and nothing else. */
  ghost predicate Listed(x: Input, causes: seq<Cause>, scope: Scope) {
    && (forall c :: c in causes <==> Expected(x, c) && Covers(scope, c))
    && (forall i, j :: 0 <= i < j < |causes| ==> causes[i] != causes[j])
  }

  lemma ListedStays(x: Input, causes: seq<Cause>, scope: Scope, scope': Scope)
    requires Listed(x, causes, scope)
    requires forall c :: Expected(x, c) ==> (Covers(scope', c) <==> Covers(scope, c))
    ensures Listed(x, causes, scope')
  {
  }

  lemma ListedAppends(x: Input, causes: seq<Cause>, scope: Scope, scope': Scope, c: Cause)
    requires Listed(x, causes, scope)
    requires Expected(x, c) && Covers(scope', c) && !Covers(scope, c)
    requires forall other :: Expected(x, other) && other != c ==> (Covers(scope', other) <==> Covers(scope, other))
    ensures Listed(x, causes + [c], scope')
  {
    hide Expected, Covers;
    var longer := causes + [c];
    forall other ensures other in longer <==> Expected(x, other) && Covers(scope', other) {
      assert other in longer <==> other in causes || other == c;
    }
  }

  /** Executions dealt with belong to rules or slots dealt with, and an overdue rule that is done took the
      execution on its cursor with it. */
  ghost predicate Tracked(x: Input, scope: Scope) {
    && (forall e :: e in scope.executions ==>
          && Loaded(x, e)
          && var execution := x.executions[e];
          (execution.rule in scope.rules || (execution.rule, execution.scheduledFor) in scope.slots))
    && (forall e :: Loaded(x, e) && AtCursor(x, e) && x.executions[e].rule in scope.rules ==> e in scope.executions)
  }

  ghost function Actuals(x: Input, executions: set<Id>): set<Id> {
    set e | e in executions && e in x.executions && VerdictOf(x, e) == Actual
  }

  /** The slots a rule generates before the end of the period. */
  ghost function Generated(x: Input, r: Id): nat {
    if Stored(x) && ActiveRule(x, r) && !Overdue(x, r) && Cursor(x, r) < x.end then
      SlotCount(x.following(r), Cursor(x, r), x.end)
    else
      0
  }

  /** The execution map of the source. */
  ghost predicate Mapped(x: Input, records: map<(Id, Instant), Id>) {
    && (forall k :: k in records ==> RecordOf(x, k.0, k.1, records[k]))
    && (forall e :: Loaded(x, e) ==> (x.executions[e].rule, x.executions[e].scheduledFor) in records)
  }

  ghost predicate PendingKnown(x: Input, pendingIds: set<Id>) {
    forall e :: e in x.executions && x.executions[e].rule in x.rules && x.executions[e].tx.Some? ==>
      (x.executions[e].tx.value in pendingIds <==> PendingTx(x, x.executions[e].tx.value))
  }

  /** All slots the current rules generate before the end of the period. */
  ghost function GeneratedInAll(x: Input, rules: set<Id>): int {
    SumOver(rules, r => Generated(x, r))
  }

  ghost function ActiveRules(x: Input): (rules: set<Id>)
    ensures forall r :: r in rules <==> ActiveRule(x, r)
  {
    set r | r in x.rules && ActiveRule(x, r)
  }

  ghost function LoadedExecutions(x: Input): (executions: set<Id>)
    ensures forall e :: e in executions <==> Loaded(x, e)
  {
    set e | e in x.executions && Loaded(x, e)
  }

  lemma GeneratedMore(x: Input, done: set<Id>, r: Id)
    requires r !in done
    ensures GeneratedInAll(x, done + {r}) == GeneratedInAll(x, done) + Generated(x, r)
    ensures done <= ActiveRules(x) && r in ActiveRules(x) ==>
      GeneratedInAll(x, done + {r}) <= GeneratedInAll(x, ActiveRules(x))
  {
    SumInsert(done, y => Generated(x, y), r);
    if done <= ActiveRules(x) && r in ActiveRules(x) {
      SumMonotone(done + {r}, ActiveRules(x), y => Generated(x, y));
    }
  }

  /** A finished scope covers every expected cause. */
  lemma ScopeComplete(x: Input, causes: seq<Cause>, scope: Scope)
    requires Listed(x, causes, scope)
    requires forall e :: e in scope.pending <==> FirstRecord(x, e)
    requires scope.rules == ActiveRules(x) && scope.executions == LoadedExecutions(x)
    ensures ListsExactly(x, causes)
  {
    forall c | Expected(x, c) ensures Covers(scope, c) {
    }
  }
}
