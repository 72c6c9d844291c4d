/** The executor reads its evidence in eight statements while other transactions commit in between. The
    locks it holds make those reads equivalent to one atomic decision at the last statement, except for
    the categories the re-match reads. */
module Interleaving {
  import opened Domain
  import opened RuleSet
  import opened Executor
  import opened Locking
  import Ordering

  datatype LedgerCommand =
    | RuleChange(command: RuleSet.Command)
    | CreateTransaction(tx: Id, row: Transaction)
    | ChangeTransaction(tx: Id, row: Transaction)
    | ChangeAccount(account: Id, accountRow: Account)
    | ChangeClosed(closedBefore: Option<Instant>)
    | ChangeCategory(category: Id, categoryRow: Category)

  function ProgramOf(c: LedgerCommand): Program {
    match c
    case RuleChange(command) =>
      RuleRun(if command.Create? then None else Some(command.id), None)
    case CreateTransaction(_, _) => TransactionRun(None, None)
    case ChangeTransaction(tx, _) => TransactionRun(Some(tx), None)
    case ChangeAccount(account, _) => AccountRun(Some(account))
    case ChangeClosed(_) => MonthRun([])
    case ChangeCategory(category, _) => CategoryRun(category)
  }

  function Effect(db: Db, c: LedgerCommand): Db {
    match c
    case RuleChange(command) => RuleStep(db, command)
    case CreateTransaction(tx, row) => if tx in db.txs then db else db.(txs := db.txs[tx := row])
    case ChangeTransaction(tx, row) => if tx in db.txs then db.(txs := db.txs[tx := row]) else db
    case ChangeAccount(account, row) => db.(accounts := db.accounts[account := row])
    case ChangeClosed(closedBefore) => db.(closedBefore := closedBefore)
    case ChangeCategory(category, row) => db.(categories := db.categories[category := row])
  }

  /** A command commits while it holds all its locks, so none of them may conflict with `held`. */
  predicate CanCommit(c: LedgerCommand, held: seq<Lock>) {
    forall l, h :: l in Locks(ProgramOf(c)) && h in held ==> !Conflict(l, h)
  }

  function Effects(db: Db, commands: seq<LedgerCommand>): Db
    decreases |commands|
  {
    if commands == [] then db else Effect(Effects(db, commands[..|commands| - 1]), commands[|commands| - 1])
  }

  /** What can happen to the rows between two statements of a transaction that holds `held`. */
  ghost predicate Between(db: Db, db': Db, held: seq<Lock>) {
    exists commands :: (forall c :: c in commands ==> CanCommit(c, held)) && db' == Effects(db, commands)
  }

  /** The lock machine only lets compatible commands commit beside a running executor. */
  lemma CommitsAreCompatible(s: System, p: Id, q: Id, c: LedgerCommand)
    requires Reachable(s) && p in s && q in s && p != q
    requires s[q] == Running(ProgramOf(c), |Locks(ProgramOf(c))|) && s[p].held <= |Locks(s[p].program)|
    ensures CanCommit(c, Locks(s[p].program)[..s[p].held])
  {
    hide Locks;
    ReachableExcludes(s);
    assert HoldTogether(s[q], s[p]);
    var locks, held := Locks(ProgramOf(c)), Locks(s[p].program)[..s[p].held];
    forall l, h | l in locks && h in held ensures !Conflict(l, h) {
      var i: nat :| i < |locks| && locks[i] == l;
      var j: nat :| j < |held| && held[j] == h;
      assert Holds(s[q], i) && Holds(s[p], j);
    }
  }

  // ----- what each lock pins -----

  ghost predicate Pinned(held: seq<Lock>, db: Db, db': Db) {
    && (Lock(Gate, Shared) in held ==> db'.ruleSet == db.ruleSet && db'.rules == db.rules)
    && (Lock(Month, Exclusive) in held ==>
          db'.txs == db.txs && db'.accounts == db.accounts && db'.closedBefore == db.closedBefore)
    && (forall id :: Lock(CategoryRow(id), Shared) in held ==>
          Lookup(db'.categories, Some(id)) == Lookup(db.categories, Some(id)))
  }

  lemma EffectPinned(db: Db, c: LedgerCommand, held: seq<Lock>)
    requires CanCommit(c, held)
    ensures Pinned(held, db, Effect(db, c))
  {
    var locks := Locks(ProgramOf(c));
    assert locks[0] in locks;
  }

  lemma {:induction false} EffectsPinned(db: Db, commands: seq<LedgerCommand>, held: seq<Lock>)
    requires forall c :: c in commands ==> CanCommit(c, held)
    ensures Pinned(held, db, Effects(db, commands))
    decreases |commands|
  {
    hide CanCommit, Effect;
    if commands != [] {
      var before := commands[..|commands| - 1];
      EffectsPinned(db, before, held);
      EffectPinned(Effects(db, before), commands[|commands| - 1], held);
    }
  }

  lemma BetweenPinned(db: Db, db': Db, held: seq<Lock>)
    requires Between(db, db', held)
    ensures Pinned(held, db, db')
  {
    var commands :| (forall c :: c in commands ==> CanCommit(c, held)) && db' == Effects(db, commands);
    EffectsPinned(db, commands, held);
  }

  // ----- the executor, statement by statement -----

  const GATE := 0
  const MONTH := 1
  const TX := 2
  const SPLITS := 3
  const RULE := 4
  const TARGET := 5
  const REMATCH := 6
  const WRITE := 7

  /** How many locks are held once statement `i` has run. */
  function HeldAfter(i: nat): nat {
    if i <= TX then i + 1 else if i == SPLITS then 3 else if i == RULE then 4 else 5
  }

  function HeldBy(e: Expectation, i: nat): seq<Lock> {
    Locks(ExecutorRun(e.tx, e.rule, e.category))[..HeldAfter(i)]
  }

  /** `h[i]` is what statement `i` finds; the others run in between as far as the locks let them. */
  ghost predicate Interleaved(h: seq<Db>, e: Expectation) {
    |h| == 8 && forall i {:trigger HeldBy(e, i)} :: 0 <= i < 7 ==> Between(h[i], h[i + 1], HeldBy(e, i))
  }

  /** The outcome and the statement after which the executor stops, each guard on its own reads. */
  ghost function Statements(h: seq<Db>, e: Expectation): (r: (Outcome, nat))
    requires |h| == 8
    ensures r.1 <= WRITE
  {
    var ruleSetChanged := e.ruleSet.Some? && h[GATE].ruleSet != e.ruleSet.value;
    if e.tx !in h[TX].txs || h[TX].txs[e.tx].deleted then (Terminal(NotFound, None, None), TX)
    else
      var t := h[TX].txs[e.tx];
      if t.version != e.txVersion then (Terminal(TransactionChanged, Some(e.txVersion), Some(t.version)), TX)
      else if t.txType == Transfer then (Terminal(IsTransfer, None, None), TX)
      else if t.category.Some? then (Terminal(AlreadyCategorized, None, None), TX)
      else if e.tx in h[SPLITS].txs && h[SPLITS].txs[e.tx].splits != [] then (Terminal(HasSplits, None, None), SPLITS)
      else if t.status == Reconciled then (Terminal(IsReconciled, None, None), SPLITS)
      else if ruleSetChanged then (Terminal(RuleChanged, None, None), SPLITS)
      else if !ProposedRuleHolds(h[RULE], e) then (Terminal(RuleChanged, None, None), RULE)
      else if !TargetHolds(h[TARGET], e, t) then (Terminal(CategoryChanged, None, None), TARGET)
      else
        var confirmed := FirstMatch(h[REMATCH].rules, h[REMATCH].categories, t);
        if confirmed == None then (Terminal(NoMatch, None, None), REMATCH)
        else if confirmed != Some(e.rule) || e.rule !in h[REMATCH].rules
                || h[REMATCH].rules[e.rule].version != e.ruleVersion
                || h[REMATCH].rules[e.rule].content.category != e.category then
          (Terminal(RuleChanged, None, None), REMATCH)
        else (Update(h[WRITE], e, t), WRITE)
  }

  /** The transaction service, which reads the row again. `held` is the row the executor has in hand. */
  ghost function Update(db: Db, e: Expectation, held: Transaction): Outcome {
    if e.tx !in db.txs || db.txs[e.tx].deleted then Raised
    else if db.txs[e.tx].version != e.txVersion then
      Terminal(TransactionChanged, Some(e.txVersion), Some(held.version))
    else if db.txs[e.tx].status == Reconciled then Terminal(IsReconciled, None, None)
    else if Closed(db.closedBefore, db.txs[e.tx].occurredAt) then Terminal(ClosedPeriod, None, None)
    else if !WriteValid(db, e.tx) then Raised
    else Terminal(Applied, Some(e.txVersion), Some(db.txs[e.tx].version + 1))
  }

  lemma ReadsPinned(h: seq<Db>, e: Expectation)
    requires Interleaved(h, e)
    ensures |h| == 8
    ensures forall i :: 0 <= i < 8 ==> h[i].ruleSet == h[GATE].ruleSet && h[i].rules == h[GATE].rules
    ensures forall i :: MONTH <= i < 8 ==>
      h[i].txs == h[MONTH].txs && h[i].accounts == h[MONTH].accounts && h[i].closedBefore == h[MONTH].closedBefore
    ensures forall i :: TARGET <= i < 8 ==>
      Lookup(h[i].categories, Some(e.category)) == Lookup(h[TARGET].categories, Some(e.category))
  {
    hide Between;
    assert Pinned(HeldBy(e, 0), h[0], h[1]) by { BetweenPinned(h[0], h[1], HeldBy(e, 0)); }
    assert Pinned(HeldBy(e, 1), h[1], h[2]) by { BetweenPinned(h[1], h[2], HeldBy(e, 1)); }
    assert Pinned(HeldBy(e, 2), h[2], h[3]) by { BetweenPinned(h[2], h[3], HeldBy(e, 2)); }
    assert Pinned(HeldBy(e, 3), h[3], h[4]) by { BetweenPinned(h[3], h[4], HeldBy(e, 3)); }
    assert Pinned(HeldBy(e, 4), h[4], h[5]) by { BetweenPinned(h[4], h[5], HeldBy(e, 4)); }
    assert Pinned(HeldBy(e, 5), h[5], h[6]) by { BetweenPinned(h[5], h[6], HeldBy(e, 5)); }
    assert Pinned(HeldBy(e, 6), h[6], h[7]) by { BetweenPinned(h[6], h[7], HeldBy(e, 6)); }
    HeldLocks(e);
  }

  lemma HeldLocks(e: Expectation)
    ensures forall i: nat :: Lock(Gate, Shared) in HeldBy(e, i)
    ensures forall i: nat :: i >= 1 ==> Lock(Month, Exclusive) in HeldBy(e, i)
    ensures forall i: nat :: i >= 5 ==> Lock(CategoryRow(e.category), Shared) in HeldBy(e, i)
  {
    forall i: nat ensures HeldBy(e, i)[0] == Lock(Gate, Shared) {
    }
    forall i: nat | i >= 1 ensures HeldBy(e, i)[1] == Lock(Month, Exclusive) {
    }
    forall i: nat | i >= 5 ensures HeldBy(e, i)[4] == Lock(CategoryRow(e.category), Shared) {
    }
  }

  /** Whatever commits between its statements, the executor answers what it would have answered had it
      taken all its reads at the moment of its last statement, with the categories of the re-match; and
      what it writes is the atomic write of that moment. */
  lemma ExecutorIsAtomic(h: seq<Db>, e: Expectation)
    requires Interleaved(h, e)
    ensures var (outcome, last) := Statements(h, e);
      && outcome == Decide(h[last], h[REMATCH].categories, e)
      && (last < WRITE ==> Execute(h[last], h[REMATCH].categories, e) == h[last])
      && (outcome.Terminal? && outcome.status == Applied ==>
            last == WRITE && Execute(h[last], h[REMATCH].categories, e) == WriteCategory(h[last], e.tx, e.category))
  {
    hide Interleaved, WriteValid;
    ReadsPinned(h, e);
    if e.tx in h[TX].txs {
      var t := h[TX].txs[e.tx];
      var rules, categories := h[REMATCH].rules, h[REMATCH].categories;
      if IsFirstMatch(rules, categories, t, e.rule) {
        FirstMatchUnique(rules, categories, t, e.rule);
      }
    }
  }

  predicate Before(db: Db, x: Id, y: Id)
    requires x in db.rules && y in db.rules
  {
    Ordering.Before(RuleKeys(db.rules), x, y)
  }

  /** The category accepts the transaction for the matcher. */
  predicate UsableFor(categories: map<Id, Category>, category: Id, t: Transaction) {
    && category in categories && !categories[category].archived
    && Compatible(t.txType, categories[category].categoryType)
  }

  /** A current rule that matches the transaction and is ordered before the applied one. */
  predicate EarlierMatch(db: Db, e: Expectation, other: Id)
    requires e.tx in db.txs && e.rule in db.rules
  {
    && other in db.rules && other != e.rule && Before(db, other, e.rule)
    && Current(db.rules[other]) && Matches(db.rules[other].content, db.txs[e.tx])
  }

  /** Is the applied rule also the first match of the category table as it stands at the commit? Exactly
      when no earlier matching rule whose category was unusable at the re-match has it usable at the
      commit; the categories of the other rules are not locked. */
  lemma MatchAtCommit(h: seq<Db>, e: Expectation)
    requires Interleaved(h, e)
    requires Statements(h, e).0 == Terminal(Applied, Some(e.txVersion), Some(e.txVersion + 1))
    ensures e.tx in h[WRITE].txs && e.rule in h[WRITE].rules
    ensures var db, t := h[WRITE], h[WRITE].txs[e.tx];
      IsFirstMatch(db.rules, db.categories, t, e.rule) <==>
        forall other :: EarlierMatch(db, e, other) ==>
          var category := db.rules[other].content.category;
          UsableFor(db.categories, category, t) ==> UsableFor(h[REMATCH].categories, category, t)
  {
    hide Interleaved, Statements, WriteValid;
    ReadsPinned(h, e);
    ExecutorIsAtomic(h, e);
    var db, seen, t := h[WRITE], h[REMATCH].categories, h[WRITE].txs[e.tx];
    ExecutorSound(db, seen, e);
    FirstAmongEarlier(db, seen, e);
    FirstAmongEarlier(db, db.categories, e);
  }

  /** A rule that is itself eligible is the first match exactly if no earlier match is usable. */
  lemma FirstAmongEarlier(db: Db, categories: map<Id, Category>, e: Expectation)
    requires e.tx in db.txs && e.rule in db.rules
    requires Eligible(db.rules, categories, db.txs[e.tx], e.rule)
    ensures IsFirstMatch(db.rules, categories, db.txs[e.tx], e.rule) <==>
      forall other :: EarlierMatch(db, e, other) ==>
        !UsableFor(categories, db.rules[other].content.category, db.txs[e.tx])
  {
    var t := db.txs[e.tx];
    forall other | other in db.rules && other != e.rule
      ensures Ordering.Before(RuleKeys(db.rules), e.rule, other) <==> !Before(db, other, e.rule)
    {
    }
    forall other | other in db.rules
      ensures Eligible(db.rules, categories, t, other) <==>
        && Current(db.rules[other]) && Matches(db.rules[other].content, t)
        && UsableFor(categories, db.rules[other].content.category, t)
    {
    }
  }

  /** No command of `commands` changes the category of a rule that matches before the applied one. */
  ghost predicate LeavesEarlierCategories(db: Db, e: Expectation, commands: seq<LedgerCommand>)
    requires e.tx in db.txs && e.rule in db.rules
  {
    forall c, other :: c in commands && c.ChangeCategory? && EarlierMatch(db, e, other) ==>
      c.category != db.rules[other].content.category
  }

  lemma {:induction false} UntouchedCategory(db: Db, commands: seq<LedgerCommand>, category: Id)
    requires forall c :: c in commands && c.ChangeCategory? ==> c.category != category
    ensures Lookup(Effects(db, commands).categories, Some(category)) == Lookup(db.categories, Some(category))
    decreases |commands|
  {
    hide Effect;
    if commands != [] {
      var before := commands[..|commands| - 1];
      UntouchedCategory(db, before, category);
      UntouchedByOne(Effects(db, before), commands[|commands| - 1], category);
    }
  }

  lemma UntouchedByOne(db: Db, c: LedgerCommand, category: Id)
    requires c.ChangeCategory? ==> c.category != category
    ensures Lookup(Effect(db, c).categories, Some(category)) == Lookup(db.categories, Some(category))
  {
    hide Accepts, Bumps, NewRow;
  }

  /** Seen from the commands: as long as nobody edits the category of an earlier matching rule between
      re-match and commit, the applied rule is the first match at the commit. */
  lemma QuietCategoriesKeepMatch(h: seq<Db>, e: Expectation, commands: seq<LedgerCommand>)
    requires Interleaved(h, e)
    requires Statements(h, e).0 == Terminal(Applied, Some(e.txVersion), Some(e.txVersion + 1))
    requires h[WRITE] == Effects(h[REMATCH], commands)
    requires e.tx in h[WRITE].txs && e.rule in h[WRITE].rules && LeavesEarlierCategories(h[WRITE], e, commands)
    ensures IsFirstMatch(h[WRITE].rules, h[WRITE].categories, h[WRITE].txs[e.tx], e.rule)
  {
    hide Interleaved, Statements, Effects, EarlierMatch, IsFirstMatch;
    ReadsPinned(h, e);
    MatchAtCommit(h, e);
    var db := h[WRITE];
    forall other | EarlierMatch(db, e, other)
      ensures other in db.rules
      ensures Lookup(db.categories, Some(db.rules[other].content.category))
           == Lookup(h[REMATCH].categories, Some(db.rules[other].content.category))
    {
      assert other in db.rules by { EarlierStored(db, e, other); }
      UntouchedCategory(h[REMATCH], commands, db.rules[other].content.category);
    }
  }

  lemma EarlierStored(db: Db, e: Expectation, other: Id)
    requires e.tx in db.txs && e.rule in db.rules && EarlierMatch(db, e, other)
    ensures other in db.rules
  {
  }

  // ----- a stale match -----

  function SampleRule(category: Id, priority: int): Rule {
    Rule(RuleContent("", priority, true, Some(Expense), None, None, None, None, category), 0, false, 1)
  }

  function SampleDb(archived: bool): Db {
    var tx := Transaction(0, Expense, 10_000, "EUR", 0, None, None, None, "", "", "", Confirmed, None, [], 1, false);
    Db(1, map[1 := SampleRule(1, 0), 2 := SampleRule(2, 1)],
       map[1 := Category("a", ExpenseOnly, None, archived, false, 1), 2 := Category("b", ExpenseOnly, None, false, false, 1)],
       map[0 := Account("", "EUR", 0, 0, false, false, 1)], map[0 := tx], None)
  }

  function SampleHistory(): seq<Db> {
    seq(8, i requires 0 <= i < 8 => SampleDb(i != WRITE))
  }

  lemma SampleInterleaved(e: Expectation)
    requires e == Expectation(0, 1, 2, 1, 2, Some(1), Some(1))
    ensures Interleaved(SampleHistory(), e)
  {
    hide Between, SampleDb;
    var h := SampleHistory();
    forall i {:trigger HeldBy(e, i)} | 0 <= i < 7 ensures Between(h[i], h[i + 1], HeldBy(e, i)) {
      if i < 6 {
        SampleQuiet(h[i], HeldBy(e, i));
      } else {
        SampleUnarchive(HeldBy(e, i));
      }
    }
  }

  /** The condition of `MatchAtCommit` can fail: the category of an earlier rule is taken out of the
      archive between the re-match and the commit, and the later rule is applied all the same. */
  lemma StaleMatch()
    ensures var h, e := SampleHistory(), Expectation(0, 1, 2, 1, 2, Some(1), Some(1));
      && Interleaved(h, e)
      && Statements(h, e).0 == Terminal(Applied, Some(1), Some(2))
      && !IsFirstMatch(h[WRITE].rules, h[WRITE].categories, h[WRITE].txs[0], 2)
      && IsFirstMatch(h[WRITE].rules, h[WRITE].categories, h[WRITE].txs[0], 1)
  {
    hide Interleaved;
    SampleInterleaved(Expectation(0, 1, 2, 1, 2, Some(1), Some(1)));
    var db, db' := SampleDb(true), SampleDb(false);
    var t := db.txs[0];
    assert IsFirstMatch(db.rules, db.categories, t, 2);
    FirstMatchUnique(db.rules, db.categories, t, 2);
    assert Ordering.Before(RuleKeys(db'.rules), 1, 2);
    assert Eligible(db'.rules, db'.categories, t, 1);
  }

  lemma SampleQuiet(db: Db, held: seq<Lock>)
    ensures Between(db, db, held)
  {
    assert Effects(db, []) == db;
  }

  lemma OneCommit(db: Db, c: LedgerCommand, held: seq<Lock>)
    requires CanCommit(c, held)
    ensures Between(db, Effect(db, c), held)
  {
    hide Effect, CanCommit;
    assert Effects(db, [c][..0]) == db;
    assert Effects(db, [c]) == Effect(db, c);
  }

  lemma SampleUnarchive(held: seq<Lock>)
    requires held == Locks(ExecutorRun(0, 2, 2))
    ensures Between(SampleDb(true), SampleDb(false), held)
  {
    hide Between;
    var c := ChangeCategory(1, Category("a", ExpenseOnly, None, false, false, 1));
    OneCommit(SampleDb(true), c, held);
    assert Effect(SampleDb(true), c) == SampleDb(false);
  }
}
