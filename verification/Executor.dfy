/** The one guarded path that writes a categorization decision: what it decides, and what it writes. */
module Executor {
  import opened Domain
  import opened RuleSet
  import opened Refunds
  import opened Sums

  /** The rows the executor reads and writes. */
  datatype Db = Db(
    ruleSet: nat,
    rules: map<Id, Rule>,
    categories: map<Id, Category>,
    accounts: map<Id, Account>,
    txs: map<Id, Transaction>,
    closedBefore: Option<Instant>)

  datatype ApplyStatus =
    | Applied | TransactionChanged | RuleChanged | CategoryChanged | AlreadyCategorized | HasSplits
    | IsTransfer | IsReconciled | ClosedPeriod | NoMatch | NotFound | Failed

  function ErrorCode(s: ApplyStatus): Option<string> {
    match s
    case Applied => None
    case TransactionChanged => Some("CATEGORIZATION_TRANSACTION_CHANGED")
    case RuleChanged => Some("CATEGORIZATION_RULE_CHANGED")
    case CategoryChanged => Some("CATEGORIZATION_CATEGORY_CHANGED")
    case AlreadyCategorized => Some("CATEGORIZATION_ALREADY_CATEGORIZED")
    case HasSplits => Some("CATEGORIZATION_TRANSACTION_SPLIT")
    case IsTransfer => Some("CATEGORIZATION_TRANSFER_NOT_ELIGIBLE")
    case IsReconciled => Some("RECONCILED_TRANSACTION_IMMUTABLE")
    case ClosedPeriod => Some("MONTH_CLOSED")
    case NoMatch => Some("CATEGORIZATION_NO_MATCH")
    case NotFound => Some("TRANSACTION_NOT_FOUND")
    case Failed => Some("CATEGORIZATION_APPLY_FAILED")
  }

  /** What the caller claims was true when the proposal was made. */
  datatype Expectation = Expectation(
    tx: Id,
    txVersion: nat,
    rule: Id,
    ruleVersion: nat,
    category: Id,
    categoryVersion: Option<nat>,
    ruleSet: Option<nat>)

  /** `Raised` is an error outside the executor's vocabulary: it propagates and nothing is written. */
  datatype Outcome =
    | Terminal(status: ApplyStatus, expected: Option<nat>, current: Option<nat>)
    | Raised

  // ----- the authoritative mutation path -----

  /** A refund still points at a live income or expense of the same account and currency and does not
      push the refunds of that original over its amount. */
  ghost predicate RefundValid(db: Db, id: Id)
    requires id in db.txs
  {
    var t := db.txs[id];
    && t.related.Some?
    && t.related.value in db.txs
    && var original := db.txs[t.related.value];
    && !original.deleted
    && (original.txType == Income || original.txType == Expense)
    && t.account == original.account && t.currency == original.currency
    && OtherRefunded(db.txs, t.related.value, id) + t.amount <= original.amount
  }

  predicate AccountValid(db: Db, t: Transaction) {
    && t.account in db.accounts
    && !db.accounts[t.account].deleted
    && !db.accounts[t.account].archived
    && db.accounts[t.account].currency == t.currency
  }

  /** The checks of the transaction service that a category-only update of row `id` has to pass besides
      the version, reconciliation, closed-period and category checks. */
  ghost predicate WriteValid(db: Db, id: Id)
    requires id in db.txs
  {
    var t := db.txs[id];
    && AccountValid(db, t)
    && t.target == None
    && (t.txType == Refund ==> RefundValid(db, id))
    && (t.txType == Adjustment ==> t.comment != "")
  }

  function WriteCategory(db: Db, id: Id, category: Id): Db
    requires id in db.txs
  {
    db.(txs := db.txs[id := db.txs[id].(category := Some(category), version := db.txs[id].version + 1)])
  }

  /** A rule command, with the revision of the rule set advanced exactly when matching or order can
      change. */
  function RuleStep(db: Db, c: Command): Db {
    if Accepts(db.rules, db.categories, db.accounts, c) then
      db.(rules := db.rules[c.id := NewRow(db.rules, c)],
          ruleSet := if Bumps(db.rules, c) then db.ruleSet + 1 else db.ruleSet)
    else
      db
  }

  // ----- the proposal, re-proved -----

  predicate ProposedRuleHolds(db: Db, e: Expectation) {
    && e.rule in db.rules
    && db.rules[e.rule].version == e.ruleVersion
    && Current(db.rules[e.rule])
    && db.rules[e.rule].content.category == e.category
  }

  predicate TargetHolds(db: Db, e: Expectation, t: Transaction) {
    && e.category in db.categories
    && var c := db.categories[e.category];
    && !c.deleted && !c.archived
    && Compatible(t.txType, c.categoryType)
    && (e.categoryVersion.Some? ==> e.categoryVersion.value == c.version)
  }

  predicate Untouched(t: Transaction) {
    t.txType != Transfer && t.category == None && t.splits == [] && t.status != Reconciled
  }

  /** Everything that has to hold for the write. `seen` is the category table as the re-match statement
      read it: categories other than the target are not locked, so it may be older than the commit. */
  ghost predicate Admissible(db: Db, seen: map<Id, Category>, e: Expectation) {
    && e.tx in db.txs
    && !db.txs[e.tx].deleted
    && db.txs[e.tx].version == e.txVersion
    && Untouched(db.txs[e.tx])
    && (e.ruleSet.Some? ==> e.ruleSet.value == db.ruleSet)
    && ProposedRuleHolds(db, e)
    && TargetHolds(db, e, db.txs[e.tx])
    && IsFirstMatch(db.rules, seen, db.txs[e.tx], e.rule)
    && !Closed(db.closedBefore, db.txs[e.tx].occurredAt)
    && WriteValid(db, e.tx)
  }

  /** The first guard that fails, in the order of precedence the source documents. */
  ghost function Refusal(db: Db, seen: map<Id, Category>, e: Expectation): Outcome
    requires !Admissible(db, seen, e)
  {
    if e.tx !in db.txs || db.txs[e.tx].deleted then Terminal(NotFound, None, None)
    else
      var t := db.txs[e.tx];
      var first := FirstMatch(db.rules, seen, t);
      if t.version != e.txVersion then Terminal(TransactionChanged, Some(e.txVersion), Some(t.version))
      else if t.txType == Transfer then Terminal(IsTransfer, None, None)
      else if t.category.Some? then Terminal(AlreadyCategorized, None, None)
      else if t.splits != [] then Terminal(HasSplits, None, None)
      else if t.status == Reconciled then Terminal(IsReconciled, None, None)
      else if e.ruleSet.Some? && e.ruleSet.value != db.ruleSet then Terminal(RuleChanged, None, None)
      else if !ProposedRuleHolds(db, e) then Terminal(RuleChanged, None, None)
      else if !TargetHolds(db, e, t) then Terminal(CategoryChanged, None, None)
      else if first == None then Terminal(NoMatch, None, None)
      else if first != Some(e.rule) then Terminal(RuleChanged, None, None)
      else if Closed(db.closedBefore, t.occurredAt) then Terminal(ClosedPeriod, None, None)
      else Raised
  }

  ghost function Decide(db: Db, seen: map<Id, Category>, e: Expectation): Outcome {
    if Admissible(db, seen, e) then
      Terminal(Applied, Some(e.txVersion), Some(e.txVersion + 1))
    else
      Refusal(db, seen, e)
  }

  ghost function Execute(db: Db, seen: map<Id, Category>, e: Expectation): Db {
    if Admissible(db, seen, e) then WriteCategory(db, e.tx, e.category) else db
  }

  /** `applied` is reported exactly when every expectation still holds, and then one row changed, by
      its category and one version; every other outcome leaves every row as it was. */
  lemma ExecutorSound(db: Db, seen: map<Id, Category>, e: Expectation)
    ensures var outcome, db' := Decide(db, seen, e), Execute(db, seen, e);
      && (outcome.Terminal? && outcome.status == Applied <==> Admissible(db, seen, e))
      && (!Admissible(db, seen, e) ==> db' == db)
      && (Admissible(db, seen, e) ==>
            && db'.(txs := db.txs) == db
            && db'.txs.Keys == db.txs.Keys
            && (forall id :: id in db.txs && id != e.tx ==> db'.txs[id] == db.txs[id])
            && db'.txs[e.tx].category == Some(e.category)
            && db'.txs[e.tx].version == e.txVersion + 1
            && db'.txs[e.tx].(category := None, version := e.txVersion) == db.txs[e.tx]
            && !Admissible(db', seen, e))
  {
    if Admissible(db, seen, e) {
      FirstMatchUnique(db.rules, seen, db.txs[e.tx], e.rule);
    }
  }

  /** Every guard of the executor passes and the transaction service rejects the write all the same:
      account, currency, target, refund or comment. */
  ghost predicate WriteRejected(db: Db, seen: map<Id, Category>, e: Expectation) {
    && e.tx in db.txs && !db.txs[e.tx].deleted && db.txs[e.tx].version == e.txVersion
    && Untouched(db.txs[e.tx])
    && (e.ruleSet.Some? ==> e.ruleSet.value == db.ruleSet)
    && ProposedRuleHolds(db, e) && TargetHolds(db, e, db.txs[e.tx])
    && IsFirstMatch(db.rules, seen, db.txs[e.tx], e.rule)
    && !Closed(db.closedBefore, db.txs[e.tx].occurredAt)
    && !WriteValid(db, e.tx)
  }

  /** That is the one way out of the executor's vocabulary. */
  lemma RaisedExactly(db: Db, seen: map<Id, Category>, e: Expectation)
    ensures Decide(db, seen, e) == Raised <==> WriteRejected(db, seen, e)
  {
    hide WriteValid, TargetHolds, ProposedRuleHolds;
    if e.tx in db.txs {
      var t := db.txs[e.tx];
      FirstMatchExists(db.rules, seen, t);
      if IsFirstMatch(db.rules, seen, t, e.rule) {
        FirstMatchUnique(db.rules, seen, t, e.rule);
      }
    }
  }

  /** The transaction service takes the row as it stands: a live, unarchived account of its currency, no target;
      an adjustment has a comment; a refund is for a live income or expense of the same account and currency,
      whose other standing refunds leave room for it. */
  ghost predicate Acceptable(db: Db, id: Id)
    requires id in db.txs
  {
    var t := db.txs[id];
    && t.account in db.accounts && t.target == None
    && var account := db.accounts[t.account];
    && !account.deleted && !account.archived && account.currency == t.currency
    && (t.txType == Adjustment ==> |t.comment| > 0)
    && (t.txType == Refund ==>
          && t.related.Some? && t.related.value in db.txs
          && var original := db.txs[t.related.value];
          && !original.deleted && original.txType in {Income, Expense}
          && original.account == t.account && original.currency == t.currency
          && t.amount <= original.amount - SumOver(StandingRefunds(db.txs, t.related.value, id), AmountOf(db.txs)))
  }

  lemma AcceptableExactly(db: Db, id: Id)
    requires id in db.txs
    ensures WriteValid(db, id) <==> Acceptable(db, id)
  {
    hide SumOver;
    if db.txs[id].related.Some? {
      assert OtherRefunds(db.txs, db.txs[id].related.value, id) == StandingRefunds(db.txs, db.txs[id].related.value, id);
    }
  }

  /** What a write stands for, condition by condition: the transaction is live, at the expected version, in
      open history, without category and splits, not reconciled; the proposed rule is live at its version and
      is the first that fits; the category is live, at its version and suits the type. */
  ghost predicate WriteIsDue(db: Db, seen: map<Id, Category>, e: Expectation) {
    && e.tx in db.txs && e.rule in db.rules && e.category in db.categories
    && var t, rule, c := db.txs[e.tx], db.rules[e.rule], db.categories[e.category];
    && !t.deleted && t.version == e.txVersion && t.txType != Transfer
    && t.category == None && t.splits == [] && t.status != Reconciled
    && (db.closedBefore.Some? ==> db.closedBefore.value <= t.occurredAt)
    && !rule.deleted && rule.content.active && rule.version == e.ruleVersion && rule.content.category == e.category
    && !c.deleted && !c.archived && Suits(t.txType, c.categoryType)
    && (e.categoryVersion.Some? ==> c.version == e.categoryVersion.value)
    && (e.ruleSet.Some? ==> db.ruleSet == e.ruleSet.value)
    && FirstToFit(db.rules, seen, t, Some(e.rule))
    && Acceptable(db, e.tx)
  }

  lemma AdmissibleExactly(db: Db, seen: map<Id, Category>, e: Expectation)
    ensures Admissible(db, seen, e) <==> WriteIsDue(db, seen, e)
  {
    hide Fits, WriteValid, Acceptable, Eligible;
    if e.tx in db.txs {
      AcceptableExactly(db, e.tx);
    }
    if e.tx in db.txs && e.rule in db.rules {
      var t := db.txs[e.tx];
      FirstExactly(db.rules, seen, t, e.rule);
    }
  }

  /** `applied` is the answer exactly when the write is due. */
  lemma AppliedExactly(db: Db, seen: map<Id, Category>, e: Expectation)
    ensures var outcome := Decide(db, seen, e);
      outcome.Terminal? && outcome.status == Applied <==> WriteIsDue(db, seen, e)
  {
    hide Admissible, WriteIsDue;
    AdmissibleExactly(db, seen, e);
  }

  lemma FirstExactly(rules: map<Id, Rule>, seen: map<Id, Category>, t: Transaction, id: Id)
    ensures IsFirstMatch(rules, seen, t, id) <==> FirstToFit(rules, seen, t, Some(id))
  {
    hide Fits, Eligible;
    forall x ensures Eligible(rules, seen, t, x) <==> Fits(rules, seen, t, x) {
      EligibleExactly(rules, seen, t, x);
    }
    forall x | Fits(rules, seen, t, x) ensures x in rules {
      FitsStored(rules, seen, t, x);
    }
  }

  /** What a reported outcome claims about the rows, whatever else may be wrong with them. */
  ghost predicate Reason(db: Db, seen: map<Id, Category>, e: Expectation, status: ApplyStatus) {
    if status == NotFound then e.tx !in db.txs || db.txs[e.tx].deleted
    else
      && e.tx in db.txs && !db.txs[e.tx].deleted
      && var t := db.txs[e.tx];
      match status
      case TransactionChanged => t.version != e.txVersion
      case IsTransfer => t.txType == Transfer
      case AlreadyCategorized => t.category.Some?
      case HasSplits => t.splits != []
      case IsReconciled => t.status == Reconciled
      case RuleChanged =>
        || (e.ruleSet.Some? && e.ruleSet.value != db.ruleSet)
        || !ProposedRuleHolds(db, e)
        || (exists other :: other != e.rule && IsFirstMatch(db.rules, seen, t, other))
      case CategoryChanged => !TargetHolds(db, e, t)
      case NoMatch => forall id :: !Eligible(db.rules, seen, t, id)
      case ClosedPeriod => Closed(db.closedBefore, t.occurredAt)
      case _ => false
  }

  /** Every refusal names a reason that is true, identity and state of the transaction before rules, and
      versions are reported exactly for a changed transaction. */
  lemma RefusalIsTrue(db: Db, seen: map<Id, Category>, e: Expectation)
    requires !Admissible(db, seen, e)
    ensures var r := Refusal(db, seen, e);
      && (r.Terminal? ==> Reason(db, seen, e, r.status))
      && (r.Raised? ==> e.tx in db.txs && !WriteValid(db, e.tx))
      && (r.Terminal? && r.status == TransactionChanged ==>
            r.expected == Some(e.txVersion) && r.current == Some(db.txs[e.tx].version))
      && (r.Terminal? && r.status != TransactionChanged ==> r.expected == None && r.current == None)
      && (r.Terminal? && r.status != NotFound && r.status != TransactionChanged ==>
            db.txs[e.tx].version == e.txVersion)
      && (r.Terminal? && r.status in {RuleChanged, CategoryChanged, NoMatch, ClosedPeriod} ==> Untouched(db.txs[e.tx]))
  {
    if e.tx in db.txs {
      var t := db.txs[e.tx];
      FirstMatchExists(db.rules, seen, t);
      if IsFirstMatch(db.rules, seen, t, e.rule) {
        FirstMatchUnique(db.rules, seen, t, e.rule);
      }
    }
  }

  /** The documented precedence of the guards, with the no-match outcome where the code has it. */
  const GUARD_PRECEDENCE: seq<ApplyStatus> :=
    [NotFound, TransactionChanged, IsTransfer, AlreadyCategorized, HasSplits, IsReconciled, CategoryChanged, NoMatch, ClosedPeriod]

  /** The proposed rule, or the rule set it was made on, has moved; `RuleChanged` is reported for this before
      the category is looked at, and for another first match only after it. */
  predicate ProposalMoved(db: Db, e: Expectation) {
    || (e.ruleSet.Some? && e.ruleSet.value != db.ruleSet)
    || e.rule !in db.rules || db.rules[e.rule].deleted || !db.rules[e.rule].content.active
    || db.rules[e.rule].version != e.ruleVersion || db.rules[e.rule].content.category != e.category
  }

  /** Of all reasons that hold the refusal reports the first one of the precedence. */
  lemma RefusalIsFirst(db: Db, seen: map<Id, Category>, e: Expectation, i: nat)
    requires Decide(db, seen, e).Terminal? && i < |GUARD_PRECEDENCE|
    ensures var status, other := Decide(db, seen, e).status, GUARD_PRECEDENCE[i];
      && (status == Applied ==> !Reason(db, seen, e, other))
      && (status == RuleChanged ==>
            && (i < 6 ==> !Reason(db, seen, e, other))
            && (!ProposalMoved(db, e) && i < 8 ==> !Reason(db, seen, e, other)))
      && (forall j :: i < j < |GUARD_PRECEDENCE| && GUARD_PRECEDENCE[j] == status ==> !Reason(db, seen, e, other))
      && (status in {CategoryChanged, NoMatch, ClosedPeriod} ==> !ProposalMoved(db, e))
      && (status == ClosedPeriod ==> !Reason(db, seen, e, RuleChanged))
  {
    hide Eligible, WriteValid, TargetHolds, Compatible;
    if e.tx in db.txs {
      var t := db.txs[e.tx];
      FirstMatchExists(db.rules, seen, t);
      if IsFirstMatch(db.rules, seen, t, e.rule) {
        FirstMatchUnique(db.rules, seen, t, e.rule);
      }
    }
  }
}
