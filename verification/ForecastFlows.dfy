/** What the forecast totals are, place by place and cause by cause. */
module ForecastFlows {
  import opened Domain
  import opened Sums
  import opened BudgetActuals
  import opened ForecastSpec

  /** The places of the listed occurrences in one of these states, of one mode if it is given. */
  function FlowPlaces(occurrences: seq<Occurrence>, states: set<OccurrenceState>, mode: Option<Mode>): set<int> {
    set i | 0 <= i < |occurrences| && occurrences[i].state in states
      && (mode == None || mode == Some(occurrences[i].mode))
  }

  function TypedPlaces(occurrences: seq<Occurrence>, states: set<OccurrenceState>, mode: Option<Mode>, t: TxType): set<int> {
    set i | 0 <= i < |occurrences| && occurrences[i].state in states
      && (mode == None || mode == Some(occurrences[i].mode)) && occurrences[i].txType == t
  }

  function AmountAt(occurrences: seq<Occurrence>): int -> int {
    i => if 0 <= i < |occurrences| then occurrences[i].amount else 0
  }

  /** Income is the sum of the incomes at those places, expense that of the expenses, neither is negative,
      and the count is the number of places. */
  ghost predicate AddsUp(income: int, expense: int, count: int, occurrences: seq<Occurrence>, states: set<OccurrenceState>,
                         mode: Option<Mode>) {
    && income == SumOver(TypedPlaces(occurrences, states, mode, Income), AmountAt(occurrences)) >= 0
    && expense == SumOver(TypedPlaces(occurrences, states, mode, Expense), AmountAt(occurrences)) >= 0
    && count == |FlowPlaces(occurrences, states, mode)|
  }

  function StatesOf(s: Selector): set<OccurrenceState> {
    match s
    case ScheduledFlow => {Scheduled}
    case PendingFlow => {PendingDraft}
    case AdvisoryFlow => {Advisory}
    case ModeFlow(_) => {Scheduled, PendingDraft}
  }

  function ModeOf(s: Selector): Option<Mode> {
    if s.ModeFlow? then Some(s.mode) else None
  }

  lemma LastPlaces(occurrences: seq<Occurrence>, states: set<OccurrenceState>, mode: Option<Mode>, t: TxType)
    requires occurrences != []
    ensures var n := |occurrences| - 1;
      var before, o := occurrences[..n], occurrences[n];
      var listed := o.state in states && (mode == None || mode == Some(o.mode));
      && n !in FlowPlaces(before, states, mode) && n !in TypedPlaces(before, states, mode, t)
      && FlowPlaces(occurrences, states, mode) == FlowPlaces(before, states, mode) + (if listed then {n} else {})
      && TypedPlaces(occurrences, states, mode, t)
           == TypedPlaces(before, states, mode, t) + (if listed && o.txType == t then {n} else {})
  {
    var before := occurrences[..|occurrences| - 1];
    assert forall i :: 0 <= i < |before| ==> before[i] == occurrences[i];
  }

  lemma LastSum(occurrences: seq<Occurrence>, states: set<OccurrenceState>, mode: Option<Mode>, t: TxType)
    requires occurrences != []
    ensures var n := |occurrences| - 1;
      var before, o := occurrences[..n], occurrences[n];
      var listed := o.state in states && (mode == None || mode == Some(o.mode));
      && SumOver(TypedPlaces(occurrences, states, mode, t), AmountAt(occurrences))
           == SumOver(TypedPlaces(before, states, mode, t), AmountAt(before))
              + (if listed && o.txType == t then o.amount else 0)
      && |FlowPlaces(occurrences, states, mode)|
           == |FlowPlaces(before, states, mode)| + (if listed then 1 else 0)
  {
    hide SumOver;
    var n := |occurrences| - 1;
    var places := TypedPlaces(occurrences[..n], states, mode, t);
    LastPlaces(occurrences, states, mode, t);
    SumEqual(places, AmountAt(occurrences), AmountAt(occurrences[..n]));
    if n in TypedPlaces(occurrences, states, mode, t) {
      SumInsert(places, AmountAt(occurrences), n);
    } else {
      assert TypedPlaces(occurrences, states, mode, t) == places;
    }
    if n !in FlowPlaces(occurrences, states, mode) {
      assert FlowPlaces(occurrences, states, mode) == FlowPlaces(occurrences[..n], states, mode);
    }
  }

  lemma {:induction false} FlowSums(occurrences: seq<Occurrence>, s: Selector)
    ensures var f, states, mode := FlowOver(occurrences, s), StatesOf(s), ModeOf(s);
      && f.income == SumOver(TypedPlaces(occurrences, states, mode, Income), AmountAt(occurrences))
      && f.expense == SumOver(TypedPlaces(occurrences, states, mode, Expense), AmountAt(occurrences))
      && f.count == |FlowPlaces(occurrences, states, mode)|
    decreases |occurrences|
  {
    if occurrences != [] {
      hide SumOver, TypedPlaces, FlowPlaces;
      FlowSums(occurrences[..|occurrences| - 1], s);
      LastSum(occurrences, StatesOf(s), ModeOf(s), Income);
      LastSum(occurrences, StatesOf(s), ModeOf(s), Expense);
    } else {
      assert TypedPlaces(occurrences, StatesOf(s), ModeOf(s), Income) == {};
      assert TypedPlaces(occurrences, StatesOf(s), ModeOf(s), Expense) == {};
      assert FlowPlaces(occurrences, StatesOf(s), ModeOf(s)) == {};
    }
  }

  /** Listed amounts come from rules and transactions, so they are positive. */
  lemma AmountsPositive(x: Input, causes: seq<Cause>, occurrences: seq<Occurrence>, i: int)
    requires Shows(x, causes, occurrences) && 0 <= i < |occurrences|
    ensures AmountAt(occurrences)(i) > 0
  {
    assert Sensible(x, causes[i]) && occurrences[i] == OccurrenceOf(x, causes[i]);
  }

  lemma PlacesNonNegative(x: Input, causes: seq<Cause>, occurrences: seq<Occurrence>, places: set<int>)
    requires Shows(x, causes, occurrences) && forall i :: i in places ==> 0 <= i < |occurrences|
    ensures SumOver(places, AmountAt(occurrences)) >= 0
  {
    hide Shows;
    forall i | i in places ensures AmountAt(occurrences)(i) >= 0 {
      AmountsPositive(x, causes, occurrences, i);
    }
    SumNonNegative(places, AmountAt(occurrences));
  }

  lemma FlowAddsUp(x: Input, causes: seq<Cause>, occurrences: seq<Occurrence>, s: Selector)
    requires Shows(x, causes, occurrences)
    ensures var f := FlowOver(occurrences, s);
      AddsUp(f.income, f.expense, f.count, occurrences, StatesOf(s), ModeOf(s))
  {
    hide Shows, SumOver, FlowOver;
    FlowSums(occurrences, s);
    PlacesNonNegative(x, causes, occurrences, TypedPlaces(occurrences, StatesOf(s), ModeOf(s), Income));
    PlacesNonNegative(x, causes, occurrences, TypedPlaces(occurrences, StatesOf(s), ModeOf(s), Expense));
  }

  /** Scheduled and pending places together. */
  lemma BothAddUp(occurrences: seq<Occurrence>, i1: int, e1: int, c1: int, i2: int, e2: int, c2: int)
    requires AddsUp(i1, e1, c1, occurrences, {Scheduled}, None) && AddsUp(i2, e2, c2, occurrences, {PendingDraft}, None)
    ensures AddsUp(i1 + i2, e1 + e2, c1 + c2, occurrences, {Scheduled, PendingDraft}, None)
  {
    hide SumOver;
    BothSum(occurrences, Income);
    BothSum(occurrences, Expense);
    var a, b := FlowPlaces(occurrences, {Scheduled}, None), FlowPlaces(occurrences, {PendingDraft}, None);
    assert FlowPlaces(occurrences, {Scheduled, PendingDraft}, None) == a + b && a !! b;
    assert |a + b| == |a| + |b|;
  }

  lemma BothSum(occurrences: seq<Occurrence>, t: TxType)
    ensures SumOver(TypedPlaces(occurrences, {Scheduled, PendingDraft}, None, t), AmountAt(occurrences))
         == SumOver(TypedPlaces(occurrences, {Scheduled}, None, t), AmountAt(occurrences))
            + SumOver(TypedPlaces(occurrences, {PendingDraft}, None, t), AmountAt(occurrences))
  {
    hide SumOver;
    var a, b := TypedPlaces(occurrences, {Scheduled}, None, t), TypedPlaces(occurrences, {PendingDraft}, None, t);
    assert TypedPlaces(occurrences, {Scheduled, PendingDraft}, None, t) == a + b;
    SumUnion(a, b, AmountAt(occurrences));
  }

  // ----- cause by cause -----

  /** What a cause adds to the forecast of type `t`: an open slot of a rule that books, by the amount of the
      rule; a pending draft by the amount of its transaction. */
  ghost predicate Earns(x: Input, c: Cause, t: TxType) {
    match c
    case FromSlot(r, _) => r in x.rules && x.rules[r].mode != ReminderOnly && x.rules[r].txType == t
    case FromPending(e) =>
      e in x.executions && x.executions[e].tx.Some? && x.executions[e].tx.value in x.txs
      && x.txs[x.executions[e].tx.value].txType == t
    case _ => false
  }

  function AmountOfCause(x: Input, c: Cause): int {
    match c
    case FromSlot(r, _) => if r in x.rules then x.rules[r].amount else 0
    case FromPending(e) =>
      if e in x.executions && x.executions[e].tx.Some? && x.executions[e].tx.value in x.txs then
        x.txs[x.executions[e].tx.value].amount
      else 0
    case _ => 0
  }

  function Worth(x: Input): Cause -> int {
    c => AmountOfCause(x, c)
  }

  ghost function Earning(x: Input, causes: seq<Cause>, t: TxType): set<Cause> {
    set c | c in causes && Earns(x, c, t)
  }

  lemma EarningPlace(x: Input, c: Cause, o: Occurrence, t: TxType)
    requires Sensible(x, c) && o == OccurrenceOf(x, c) && (t == Income || t == Expense)
    ensures Earns(x, c, t) <==> (o.state == Scheduled || o.state == PendingDraft) && o.txType == t
    ensures Earns(x, c, t) ==> Worth(x)(c) == o.amount
  {
  }

  lemma {:induction false} PlacesAreCauses(x: Input, causes: seq<Cause>, occurrences: seq<Occurrence>, t: TxType)
    requires Shows(x, causes, occurrences) && (t == Income || t == Expense)
    requires forall i, j :: 0 <= i < j < |causes| ==> causes[i] != causes[j]
    ensures SumOver(TypedPlaces(occurrences, {Scheduled, PendingDraft}, None, t), AmountAt(occurrences))
         == SumOver(Earning(x, causes, t), Worth(x))
    decreases |causes|
  {
    hide SumOver, Earns, OccurrenceOf, Sensible;
    if causes == [] {
      assert TypedPlaces(occurrences, {Scheduled, PendingDraft}, None, t) == {} && Earning(x, causes, t) == {};
      SumZero({}, AmountAt(occurrences));
      SumZero({}, Worth(x));
    } else {
      var n := |causes| - 1;
      var before, c := Earning(x, causes[..n], t), causes[n];
      PlacesAreCauses(x, causes[..n], occurrences[..n], t);
      LastSum(occurrences, {Scheduled, PendingDraft}, None, t);
      EarningPlace(x, c, occurrences[n], t);
      assert causes == causes[..n] + [c];
      assert c !in causes[..n];
      assert Earning(x, causes, t) == if Earns(x, c, t) then before + {c} else before;
      if Earns(x, c, t) {
        SumInsert(before, Worth(x), c);
      }
    }
  }

  /** The forecast income and expense are those of the expected causes: every open slot without an execution
      counts with the amount of its rule, every pending draft with its own. */
  lemma ForecastIsExpected(x: Input, causes: seq<Cause>, occurrences: seq<Occurrence>, income: int, expense: int, count: int)
    requires ListsExactly(x, causes) && Shows(x, causes, occurrences)
    requires AddsUp(income, expense, count, occurrences, {Scheduled, PendingDraft}, None)
    ensures income == SumOver(Earning(x, causes, Income), Worth(x)) && expense == SumOver(Earning(x, causes, Expense), Worth(x))
    ensures forall c, t :: c in Earning(x, causes, t) <==> Expected(x, c) && Earns(x, c, t)
  {
    hide SumOver, Earns, Shows, Expected;
    PlacesAreCauses(x, causes, occurrences, Income);
    PlacesAreCauses(x, causes, occurrences, Expense);
  }

  // ----- the categories -----

  /** The open slots of expense rules that book, for category `k`. */
  ghost function BookedOn(x: Input, causes: seq<Cause>, k: Option<Id>): set<Cause> {
    set c | c in causes && c.FromSlot? && c.rule in x.rules && x.rules[c.rule].mode != ReminderOnly
      && x.rules[c.rule].txType == Expense && x.rules[c.rule].category == k
  }

  ghost function DraftExpenses(x: Input, causes: seq<Cause>): set<Cause> {
    set c | c in causes && c.FromPending? && Earns(x, c, Expense)
  }

  /** What the pending draft puts on category `k` by its splits. */
  function DraftShare(x: Input, k: Option<Id>): Cause -> int {
    (c: Cause) =>
      if c.FromPending? && c.execution in x.executions && x.executions[c.execution].tx.Some?
         && x.executions[c.execution].tx.value in x.txs then
        var t := x.txs[x.executions[c.execution].tx.value];
        Portion(t, t.amount, k)
      else 0
  }

  ghost function CategoryWorth(x: Input, causes: seq<Cause>, k: Option<Id>): int {
    SumOver(BookedOn(x, causes, k), Worth(x)) + SumOver(DraftExpenses(x, causes), DraftShare(x, k))
  }

  lemma PartOfCause(x: Input, c: Cause, o: Occurrence, k: Option<Id>)
    requires Sensible(x, c) && o == OccurrenceOf(x, c)
    ensures CategoryPart(x, o, k)
         == (if c in BookedOn(x, [c], k) then Worth(x)(c) else 0) + (if c in DraftExpenses(x, [c]) then DraftShare(x, k)(c) else 0)
  {
    hide Portion;
  }

  /** The forecast of a category is what the expected causes put on it: the slots of its own rules with their
      amounts, and its shares of the pending drafts. */
  lemma {:induction false} CategoryIsExpected(x: Input, causes: seq<Cause>, occurrences: seq<Occurrence>, k: Option<Id>)
    requires Shows(x, causes, occurrences)
    requires forall i, j :: 0 <= i < j < |causes| ==> causes[i] != causes[j]
    ensures CategoryOver(x, occurrences, k) == CategoryWorth(x, causes, k)
    decreases |causes|
  {
    hide SumOver, Earns, OccurrenceOf, Sensible, CategoryPart, Portion;
    if causes == [] {
      assert BookedOn(x, causes, k) == {} && DraftExpenses(x, causes) == {};
      SumZero({}, Worth(x));
      SumZero({}, DraftShare(x, k));
    } else {
      var n := |causes| - 1;
      var c, booked, drafts := causes[n], BookedOn(x, causes[..n], k), DraftExpenses(x, causes[..n]);
      CategoryIsExpected(x, causes[..n], occurrences[..n], k);
      PartOfCause(x, c, occurrences[n], k);
      assert causes == causes[..n] + [c] && c !in causes[..n];
      assert BookedOn(x, causes, k) == if c in BookedOn(x, [c], k) then booked + {c} else booked;
      assert DraftExpenses(x, causes) == if c in DraftExpenses(x, [c]) then drafts + {c} else drafts;
      if c in BookedOn(x, [c], k) {
        SumInsert(booked, Worth(x), c);
      }
      if c in DraftExpenses(x, [c]) {
        SumInsert(drafts, DraftShare(x, k), c);
      }
    }
  }

  // ----- transfers and exceptions -----

  function StatePlaces(occurrences: seq<Occurrence>, state: OccurrenceState): set<int> {
    set i | 0 <= i < |occurrences| && occurrences[i].state == state
  }

  lemma LastState(occurrences: seq<Occurrence>, state: OccurrenceState)
    requires occurrences != []
    ensures var n := |occurrences| - 1;
      var before := StatePlaces(occurrences[..n], state);
      && n !in before
      && StatePlaces(occurrences, state) == before + (if occurrences[n].state == state then {n} else {})
  {
    var before := occurrences[..|occurrences| - 1];
    assert forall i :: 0 <= i < |before| ==> before[i] == occurrences[i];
  }

  /** The transfers beside the forecast: their number, and their amounts together. */
  lemma {:induction false} TransfersCounted(occurrences: seq<Occurrence>)
    ensures var transfers, places := TransfersOver(occurrences), StatePlaces(occurrences, InformationalTransfer);
      |transfers| == |places| && SumSeq(transfers) == SumOver(places, AmountAt(occurrences))
    decreases |occurrences|
  {
    var places := StatePlaces(occurrences, InformationalTransfer);
    if occurrences == [] {
      assert places == {};
      SumZero({}, AmountAt(occurrences));
    } else {
      hide SumOver, StatePlaces;
      var n := |occurrences| - 1;
      var before := StatePlaces(occurrences[..n], InformationalTransfer);
      TransfersCounted(occurrences[..n]);
      LastState(occurrences, InformationalTransfer);
      PlacesBelow(occurrences[..n], InformationalTransfer);
      SumEqual(before, AmountAt(occurrences), AmountAt(occurrences[..n]));
      if occurrences[n].state == InformationalTransfer {
        SumInsert(before, AmountAt(occurrences), n);
        SumSeqAppend(TransfersOver(occurrences[..n]), occurrences[n].amount);
      } else {
        assert places == before;
      }
    }
  }

  lemma PlacesBelow(occurrences: seq<Occurrence>, state: OccurrenceState)
    ensures forall i :: i in StatePlaces(occurrences, state) ==> 0 <= i < |occurrences|
  {
  }

  datatype ExceptionKind = AnyKind | FailedKind | SkippedKind | ExcludedKind | OverdueKind | IncompleteKind | BlockedKind

  predicate OfKind(f: Flags, kind: ExceptionKind) {
    match kind
    case AnyKind => true
    case FailedKind => f.failed
    case SkippedKind => f.skipped
    case ExcludedKind => f.excluded
    case OverdueKind => f.overdue
    case IncompleteKind => f.incomplete
    case BlockedKind => f.blocked
  }

  function KindPlaces(occurrences: seq<Occurrence>, kind: ExceptionKind): set<int> {
    set i | 0 <= i < |occurrences| && occurrences[i].state == Exception && OfKind(occurrences[i].flags, kind)
  }

  /** Every counter is the number of listed exceptions of its kind, and the blocked rules are those of the
      listed exceptions that block. */
  ghost predicate CountsExceptions(t: ExceptionTotals, occurrences: seq<Occurrence>) {
    && t.count == |KindPlaces(occurrences, AnyKind)|
    && t.failed == |KindPlaces(occurrences, FailedKind)|
    && t.skipped == |KindPlaces(occurrences, SkippedKind)|
    && t.excluded == |KindPlaces(occurrences, ExcludedKind)|
    && t.overdue == |KindPlaces(occurrences, OverdueKind)|
    && t.incomplete == |KindPlaces(occurrences, IncompleteKind)|
    && t.blocked == BlockedRules(occurrences)
  }

  lemma LastKind(occurrences: seq<Occurrence>, kind: ExceptionKind)
    requires occurrences != []
    ensures var n := |occurrences| - 1;
      var before, counted := KindPlaces(occurrences[..n], kind), occurrences[n].state == Exception && OfKind(occurrences[n].flags, kind);
      && n !in before
      && KindPlaces(occurrences, kind) == before + (if counted then {n} else {})
      && |KindPlaces(occurrences, kind)| == |before| + (if counted then 1 else 0)
  {
    hide OfKind;
    var before := occurrences[..|occurrences| - 1];
    assert forall i :: 0 <= i < |before| ==> before[i] == occurrences[i];
    if occurrences[|before|].state != Exception || !OfKind(occurrences[|before|].flags, kind) {
      assert KindPlaces(occurrences, kind) == KindPlaces(before, kind);
    }
  }

  lemma KindsBelow(occurrences: seq<Occurrence>, kind: ExceptionKind)
    ensures forall i :: i in KindPlaces(occurrences, kind) ==> 0 <= i < |occurrences|
  {
  }

  function CounterOf(t: ExceptionTotals, kind: ExceptionKind): nat {
    match kind
    case AnyKind => t.count
    case FailedKind => t.failed
    case SkippedKind => t.skipped
    case ExcludedKind => t.excluded
    case OverdueKind => t.overdue
    case IncompleteKind => t.incomplete
    case BlockedKind => |t.blocked|
  }

  lemma {:induction false} KindCounted(occurrences: seq<Occurrence>, kind: ExceptionKind)
    requires kind != BlockedKind
    ensures CounterOf(ExceptionsOver(occurrences), kind) == |KindPlaces(occurrences, kind)|
    decreases |occurrences|
  {
    if occurrences != [] {
      hide KindPlaces;
      KindCounted(occurrences[..|occurrences| - 1], kind);
      LastKind(occurrences, kind);
    }
  }

  function BlockedRules(occurrences: seq<Occurrence>): set<Id> {
    set i | i in KindPlaces(occurrences, BlockedKind) && 0 <= i < |occurrences| :: occurrences[i].rule
  }

  lemma {:induction false} BlockedCounted(occurrences: seq<Occurrence>)
    ensures ExceptionsOver(occurrences).blocked == BlockedRules(occurrences)
    decreases |occurrences|
  {
    if occurrences != [] {
      hide KindPlaces;
      BlockedCounted(occurrences[..|occurrences| - 1]);
      LastKind(occurrences, BlockedKind);
      KindsBelow(occurrences[..|occurrences| - 1], BlockedKind);
    }
  }

  lemma ExceptionsCounted(occurrences: seq<Occurrence>)
    ensures CountsExceptions(ExceptionsOver(occurrences), occurrences)
  {
    hide ExceptionsOver, KindPlaces;
    KindCounted(occurrences, AnyKind);
    KindCounted(occurrences, FailedKind);
    KindCounted(occurrences, SkippedKind);
    KindCounted(occurrences, ExcludedKind);
    KindCounted(occurrences, OverdueKind);
    KindCounted(occurrences, IncompleteKind);
    BlockedCounted(occurrences);
  }
}
