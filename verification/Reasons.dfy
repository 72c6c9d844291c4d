/** What a recorded result says is true: of the rows at preview time for an item that was not applicable, of
    the rows at its own commit for a proposal. */
module Reasons {
  import opened Domain
  import opened RuleSet
  import opened Executor
  import opened Preview
  import opened Protocol
  import opened ProtocolInvariant
  import opened Alone
  import opened Recovery
  import opened BulkApply
  import opened Replays

  // ----- one item -----

  /** The status names a reason that holds of transaction `tx` on `db`, whatever is proposed for it. */
  ghost predicate Told(db: Db, tx: Id, status: ApplyStatus) {
    forall e: Expectation :: e.tx == tx && (tx in db.txs ==> e.txVersion == db.txs[tx].version) ==>
      Reason(db, db.categories, e, status)
  }

  /** An item previewed as not applicable is answered with the reason the preview found, writes nothing and
      never ends the request, on whatever rows it is processed later. */
  lemma InapplicableIsTold(db: Db, tx: Id, later: Db, seen: map<Id, Category>, op: Id, ruleSet: nat, id: Id)
    requires MakeItem(db, tx).status != PreviewMatched
    ensures var work := Process(later, seen, op, ruleSet, id, Some(MakeItem(db, tx)));
      && work.Commit? && work.db == later && work.writes == []
      && work.row.item == work.reply.item == id && work.row.tx == work.reply.tx == Some(tx)
      && work.reply.status == work.row.status && Told(db, tx, work.row.status)
  {
    hide Decide, Execute, MakeItem, Told;
    ItemNames(db, tx);
    PreviewIsTold(db, tx);
    PlainProcess(later, seen, op, ruleSet, id, MakeItem(db, tx));
  }

  lemma PreviewIsTold(db: Db, tx: Id)
    requires MakeItem(db, tx).status != PreviewMatched
    ensures var reason := Ineligible(MakeItem(db, tx).status); reason.Some? && Told(db, tx, reason.value)
  {
    hide Eligible, IsFirstMatch;
    if tx in db.txs {
      FirstMatchExists(db.rules, db.categories, db.txs[tx]);
    }
  }

  /** What each error code of an inapplicable item tells the caller about the transaction. */
  ghost predicate CodeTold(db: Db, tx: Id, code: string) {
    if code == "TRANSACTION_NOT_FOUND" then tx !in db.txs || db.txs[tx].deleted
    else
      && tx in db.txs
      && var t := db.txs[tx];
      match code
      case "CATEGORIZATION_TRANSFER_NOT_ELIGIBLE" => t.txType == Transfer
      case "CATEGORIZATION_ALREADY_CATEGORIZED" => t.category != None
      case "CATEGORIZATION_TRANSACTION_SPLIT" => t.splits != []
      case "RECONCILED_TRANSACTION_IMMUTABLE" => t.status == Reconciled
      case "MONTH_CLOSED" => db.closedBefore.Some? && t.occurredAt < db.closedBefore.value
      case "CATEGORIZATION_NO_MATCH" => FirstToFit(db.rules, db.categories, t, None)
      case _ => false
  }

  /** The error code of an inapplicable item is true of the rows of the preview. */
  lemma InapplicableCode(db: Db, tx: Id, later: Db, seen: map<Id, Category>, op: Id, ruleSet: nat, id: Id)
    requires MakeItem(db, tx).status != PreviewMatched
    ensures var work := Process(later, seen, op, ruleSet, id, Some(MakeItem(db, tx)));
      work.Commit? && work.row.error.Some? && CodeTold(db, tx, work.row.error.value)
  {
    hide Decide, Execute, MakeItem, CodeTold, ErrorCode;
    PreviewCode(db, tx);
    PlainProcess(later, seen, op, ruleSet, id, MakeItem(db, tx));
  }

  lemma PreviewCode(db: Db, tx: Id)
    requires MakeItem(db, tx).status != PreviewMatched
    ensures var reason := Ineligible(MakeItem(db, tx).status);
      reason.Some? && ErrorCode(reason.value).Some? && CodeTold(db, tx, ErrorCode(reason.value).value)
  {
    hide MakeItem, Told, ErrorCode, CodeTold;
    PreviewIsTold(db, tx);
    ToldCode(db, tx, MakeItem(db, tx).status);
  }

  lemma ToldCode(db: Db, tx: Id, status: PreviewStatus)
    requires status != PreviewMatched && Told(db, tx, Ineligible(status).value)
    ensures var reason := Ineligible(status).value;
      ErrorCode(reason).Some? && CodeTold(db, tx, ErrorCode(reason).value)
  {
    hide FirstToFit, Eligible, IsFirstMatch, ProposedRuleHolds, TargetHolds;
    var version := if tx in db.txs then db.txs[tx].version else 0;
    assert Reason(db, db.categories, Expectation(tx, version, 0, 0, 0, None, None), Ineligible(status).value);
    if tx in db.txs {
      NoneFits(db.rules, db.categories, db.txs[tx]);
    }
  }

  /** What each error code of a proposal tells the caller: about the transaction, or about rule set, rule and
      category. */
  ghost predicate RefusalTold(db: Db, seen: map<Id, Category>, e: Expectation, code: string) {
    match code
    case "CATEGORIZATION_TRANSACTION_CHANGED" => e.tx in db.txs && db.txs[e.tx].version != e.txVersion
    case "CATEGORIZATION_RULE_CHANGED" =>
      e.tx in db.txs && (RuleSetMoved(db, e) || RuleGone(db, e) || !FirstToFit(db.rules, seen, db.txs[e.tx], Some(e.rule)))
    case "CATEGORIZATION_CATEGORY_CHANGED" => e.tx in db.txs && CategoryGone(db, e, db.txs[e.tx].txType)
    case "CATEGORIZATION_NO_MATCH" => e.tx in db.txs && FirstToFit(db.rules, seen, db.txs[e.tx], None)
    case _ => CodeTold(db, e.tx, code)
  }

  predicate RuleSetMoved(db: Db, e: Expectation) {
    e.ruleSet.Some? && db.ruleSet != e.ruleSet.value
  }

  predicate RuleGone(db: Db, e: Expectation) {
    e.rule in db.rules ==>
      var rule := db.rules[e.rule];
      rule.deleted || !rule.content.active || rule.version != e.ruleVersion || rule.content.category != e.category
  }

  predicate CategoryGone(db: Db, e: Expectation, t: TxType) {
    e.category in db.categories ==>
      var c := db.categories[e.category];
      c.deleted || c.archived || !Suits(t, c.categoryType)
      || (e.categoryVersion.Some? && c.version != e.categoryVersion.value)
  }

  /** Every refusal carries an error code that is true of the rows; `applied` carries none. */
  lemma RefusalCode(db: Db, seen: map<Id, Category>, e: Expectation)
    requires Decide(db, seen, e).Terminal?
    ensures var status := Decide(db, seen, e).status;
      if status == Applied then ErrorCode(status) == None
      else ErrorCode(status).Some? && RefusalTold(db, seen, e, ErrorCode(status).value)
  {
    hide Reason, RefusalTold, ErrorCode, Refusal;
    AppliedExactly(db, seen, e);
    RefusedTruly(db, seen, e);
    if Decide(db, seen, e).status == Applied {
      NoCode();
    } else {
      ReasonCode(db, seen, e, Decide(db, seen, e).status);
    }
  }

  lemma NoCode()
    ensures ErrorCode(Applied) == None
  {
  }

  lemma ReasonCode(db: Db, seen: map<Id, Category>, e: Expectation, status: ApplyStatus)
    requires Reason(db, seen, e, status)
    ensures ErrorCode(status).Some? && RefusalTold(db, seen, e, ErrorCode(status).value)
  {
    hide Reason, RefusalTold, ErrorCode;
    if status in {RuleChanged, CategoryChanged, NoMatch} {
      RuleCode(db, seen, e, status);
    } else {
      StateCode(db, seen, e, status);
    }
  }

  lemma RuleCode(db: Db, seen: map<Id, Category>, e: Expectation, status: ApplyStatus)
    requires Reason(db, seen, e, status) && status in {RuleChanged, CategoryChanged, NoMatch}
    ensures ErrorCode(status).Some? && RefusalTold(db, seen, e, ErrorCode(status).value)
  {
    hide FirstToFit, IsFirstMatch, CodeTold;
    var t := db.txs[e.tx];
    NoneFits(db.rules, seen, t);
    AnotherFirst(db.rules, seen, t, e.rule);
  }

  lemma StateCode(db: Db, seen: map<Id, Category>, e: Expectation, status: ApplyStatus)
    requires Reason(db, seen, e, status) && status !in {RuleChanged, CategoryChanged, NoMatch}
    ensures ErrorCode(status).Some? && RefusalTold(db, seen, e, ErrorCode(status).value)
  {
    hide FirstToFit, IsFirstMatch, Eligible, ProposedRuleHolds, TargetHolds;
  }

  lemma NoneFits(rules: map<Id, Rule>, seen: map<Id, Category>, t: Transaction)
    ensures (forall id :: !Eligible(rules, seen, t, id)) ==> FirstToFit(rules, seen, t, None)
  {
    FirstMatchExists(rules, seen, t);
    FirstMatchMeans(rules, seen, t);
  }

  lemma AnotherFirst(rules: map<Id, Rule>, seen: map<Id, Category>, t: Transaction, id: Id)
    ensures (exists other :: other != id && IsFirstMatch(rules, seen, t, other)) ==> !FirstToFit(rules, seen, t, Some(id))
  {
    hide Eligible, FirstToFit;
    FirstExactly(rules, seen, t, id);
    if other :| other != id && IsFirstMatch(rules, seen, t, other) {
      FirstMatchUnique(rules, seen, t, other);
      IsTheFirst(rules, seen, t, id);
    }
  }

  lemma IsTheFirst(rules: map<Id, Rule>, seen: map<Id, Category>, t: Transaction, id: Id)
    ensures FirstMatch(rules, seen, t) == Some(id) <==> IsFirstMatch(rules, seen, t, id)
  {
    hide Eligible;
    if IsFirstMatch(rules, seen, t, id) {
      FirstMatchUnique(rules, seen, t, id);
    }
  }

  // ----- what a step records -----

  /** How the result of `k` came about in state `s`. */
  ghost predicate Explained(s: State, seen: map<Id, Category>, k: (Id, Id), r: ItemResult) {
    || r.status == Failed
    || r == Plain(k.1, None, NotFound)
    || (ItemOf(s, k).Some? && k.0 in s.ops && s.ops[k.0].preview in s.previews
        && var work := Process(s.db, seen, k.0, s.previews[s.ops[k.0].preview].ruleSet, k.1, ItemOf(s, k));
        work.Commit? && r == work.row)
  }

  lemma OthersRecordNothing(s: State, a: Action)
    requires !a.DoItem? && !a.DoFail?
    ensures Step(s, a).results == s.results
  {
    hide RuleStep, BuildPreview, Sweep, LoadItems, Canonical, Find, Claim;
    if a.DoFind? && Step(s, a) != s {
      FindShape(s, a.p);
    } else if a.DoClaim? && Step(s, a) != s {
      ClaimShape(s, a.p, a.newOp);
    }
  }

  lemma ItemRecords(s: State, p: Id, seen: map<Id, Category>, k: (Id, Id))
    requires Inv(s) && p in s.requests && HasNext(s.requests[p])
    requires k in RunItem(s, p, seen).results && k !in s.results
    ensures Explained(s, seen, k, RunItem(s, p, seen).results[k].result)
  {
    hide Inv, Vacant, Decide, Execute;
    var r, id := s.requests[p], Next(s.requests[p]);
    NextFits(s, p);
    if r.ruleSet.Some? {
      NextRuleSet(s, p);
    }
    assert k == (r.op, id);
    assert ItemOf(s, k) == Some(s.previews[r.preview].items[id]);
  }

  lemma NextRuleSet(s: State, p: Id)
    requires Inv(s) && p in s.requests && HasNext(s.requests[p]) && s.requests[p].ruleSet.Some?
    ensures s.requests[p].preview in s.previews
    ensures s.requests[p].ruleSet.value == s.previews[s.requests[p].preview].ruleSet
  {
    assert RequestOk(s.requests[p], s.ops, s.results, s.previews, s.live);
  }

  lemma FailureRecords(s: State, p: Id, k: (Id, Id))
    requires p in s.requests && HasNext(s.requests[p])
    requires k in FailItem(s, p).results && k !in s.results
    ensures FailItem(s, p).results[k].result.status == Failed
  {
    hide Vacant, LoadItems;
  }

  ghost function SeenBy(s: State, a: Action): map<Id, Category> {
    if a.DoItem? then a.seen else s.db.categories
  }

  lemma StepRecords(s: State, a: Action, k: (Id, Id))
    requires Inv(s) && k in Step(s, a).results && k !in s.results
    ensures Explained(s, SeenBy(s, a), k, Step(s, a).results[k].result)
  {
    hide Inv, RunItem, FailItem, Explained;
    if a.DoItem? {
      if a.p in s.requests && HasNext(s.requests[a.p]) {
        StepRuns(s, a.p, a.seen);
        ItemRecords(s, a.p, a.seen, k);
      }
    } else if a.DoFail? {
      if a.p in s.requests && HasNext(s.requests[a.p]) {
        FailureRecords(s, a.p, k);
        ExplainedFailure(s, SeenBy(s, a), k, Step(s, a).results[k].result);
      }
    } else {
      OthersRecordNothing(s, a);
    }
  }

  lemma ExplainedFailure(s: State, seen: map<Id, Category>, k: (Id, Id), r: ItemResult)
    requires r.status == Failed
    ensures Explained(s, seen, k, r)
  {
  }

  // ----- items that were not applicable, over runs -----

  /** Every result of an item that was not applicable is that of the preview, a failure, or that of a pruned
      preview. */
  ghost predicate InapplicableOk(s: State) {
    forall k :: k in s.results && ItemOf(s, k).Some? && ItemOf(s, k).value.status != PreviewMatched ==>
      AsPreviewed(s.results[k].result, k.1, ItemOf(s, k).value)
  }

  ghost predicate AsPreviewed(r: ItemResult, id: Id, item: Item) {
    || r.status == Failed
    || r == Plain(id, None, NotFound)
    || (Ineligible(item.status).Some? && r == Plain(id, Some(item.tx), Ineligible(item.status).value))
  }

  lemma ExplainedAsPreviewed(s: State, seen: map<Id, Category>, k: (Id, Id), r: ItemResult)
    requires Explained(s, seen, k, r) && ItemOf(s, k).Some? && ItemOf(s, k).value.status != PreviewMatched
    ensures AsPreviewed(r, k.1, ItemOf(s, k).value)
  {
    hide Decide, Execute;
  }

  lemma StepKeepsInapplicable(s: State, a: Action)
    requires Inv(s) && InapplicableOk(s)
    ensures InapplicableOk(Step(s, a))
  {
    hide Inv, Step, Grows, Explained, AsPreviewed, ItemOf;
    var s' := Step(s, a);
    StepKeeps(s, a);
    forall k | k in s'.results && ItemOf(s', k).Some? && ItemOf(s', k).value.status != PreviewMatched
      ensures AsPreviewed(s'.results[k].result, k.1, ItemOf(s', k).value)
    {
      if k in s.results {
        SameItem(s, s', k);
      } else {
        StepRecords(s, a, k);
        ItemStays(s, s', k, SeenBy(s, a), s'.results[k].result);
      }
    }
  }

  /** A new result speaks of the item as it was before the step. */
  lemma ItemStays(s: State, s': State, k: (Id, Id), seen: map<Id, Category>, r: ItemResult)
    requires Inv(s) && Grows(s, s') && Explained(s, seen, k, r)
    requires ItemOf(s', k).Some? && ItemOf(s', k).value.status != PreviewMatched
    ensures AsPreviewed(r, k.1, ItemOf(s', k).value)
  {
    hide Inv, Process;
    if r.status != Failed && r != Plain(k.1, None, NotFound) {
      assert ItemOf(s', k) == ItemOf(s, k);
      ExplainedAsPreviewed(s, seen, k, r);
    }
  }

  lemma {:induction false} TraceInapplicable(trace: seq<State>, actions: seq<Action>, n: nat)
    requires IsRun(trace, actions) && Inv(trace[0]) && InapplicableOk(trace[0]) && n <= |actions|
    ensures Inv(trace[n]) && InapplicableOk(trace[n])
  {
    hide Inv, Step, Grows, InapplicableOk;
    if n > 0 {
      TraceInapplicable(trace, actions, n - 1);
      StepKeeps(trace[n - 1], actions[n - 1]);
      StepKeepsInapplicable(trace[n - 1], actions[n - 1]);
    }
  }

  lemma ReachableInapplicable(s: State)
    requires Reachable(s)
    ensures InapplicableOk(s)
  {
    hide Inv, Step;
    var start :| Initial(start) && Leads(start, s);
    InitialInv(start);
    var trace, actions :| IsRun(trace, actions) && trace[0] == start && trace[|actions|] == s;
    assert InapplicableOk(start);
    TraceInapplicable(trace, actions, |actions|);
  }

  lemma InitialInv(s: State)
    requires Initial(s)
    ensures Inv(s)
  {
  }

  /** From preview to result, across any run: what is recorded for an item that was not applicable, unless it
      failed or its preview was pruned, names a reason that was true at preview time. */
  lemma InapplicableStaysTrue(s: State, id: Id, itemIds: seq<Id>, txIds: seq<Id>, i: nat, s': State, op: Id)
    requires Reachable(s) && id !in s.previews
    requires |itemIds| == |txIds| && Distinct(itemIds) && Distinct(txIds) && i < |itemIds|
    requires MakeItem(s.db, txIds[i]).status != PreviewMatched
    requires Leads(Step(s, CreatePreview(id, itemIds, txIds)), s')
    requires op in s'.ops && s'.ops[op].preview == id && (op, itemIds[i]) in s'.results
    ensures var r := s'.results[(op, itemIds[i])].result;
      || r.status == Failed
      || r == Plain(itemIds[i], None, NotFound)
      || (r.tx == Some(txIds[i]) && Told(s.db, txIds[i], r.status))
  {
    hide Leads, Step, Reachable, InapplicableOk, Told, MakeItem, Process;
    ReachesPreview(s, id, itemIds, txIds, s');
    ReachableInapplicable(s');
    ItemOfPreview(s, id, itemIds, txIds, i, s', op);
    var k := (op, itemIds[i]);
    assert AsPreviewed(s'.results[k].result, k.1, MakeItem(s.db, txIds[i])) by { InapplicableOf(s', k); }
    InapplicableIsTold(s.db, txIds[i], s.db, s.db.categories, op, 0, itemIds[i]);
    PlainProcess(s.db, s.db.categories, op, 0, itemIds[i], MakeItem(s.db, txIds[i]));
    ItemNames(s.db, txIds[i]);
  }

  lemma InapplicableOf(s: State, k: (Id, Id))
    requires InapplicableOk(s) && k in s.results && ItemOf(s, k).Some? && ItemOf(s, k).value.status != PreviewMatched
    ensures AsPreviewed(s.results[k].result, k.1, ItemOf(s, k).value)
  {
  }

  lemma PlainProcess(db: Db, seen: map<Id, Category>, op: Id, ruleSet: nat, id: Id, item: Item)
    requires Ineligible(item.status).Some?
    ensures var work := Process(db, seen, op, ruleSet, id, Some(item));
      && work.Commit? && work.row == Plain(id, Some(item.tx), Ineligible(item.status).value)
      && work.reply == work.row.(expected := item.txVersion) && work.db == db && work.writes == []
  {
  }

  lemma ItemOfPreview(s: State, id: Id, itemIds: seq<Id>, txIds: seq<Id>, i: nat, s': State, op: Id)
    requires |itemIds| == |txIds| && Distinct(itemIds) && i < |itemIds|
    requires id in s'.previews && s'.previews[id] == BuildPreview(s, itemIds, txIds)
    requires op in s'.ops && s'.ops[op].preview == id
    ensures ItemOf(s', (op, itemIds[i])) == Some(MakeItem(s.db, txIds[i]))
  {
    hide MakeItem;
  }

  // ----- proposals, over runs -----

  /** A result recorded for a proposal says `applied` and its write was due on the rows of the step, or names
      a reason that was true of them. */
  ghost predicate TrueThen(s: State, seen: map<Id, Category>, item: Item, ruleSet: nat, r: ItemResult)
    requires item.proposal.Some? && item.txVersion.Some?
  {
    var e := Expect(item, ruleSet);
    if r.status == Applied then WriteIsDue(s.db, seen, e) else Reason(s.db, seen, e, r.status)
  }

  lemma ProposalIsTrue(s: State, seen: map<Id, Category>, k: (Id, Id), r: ItemResult)
    requires Inv(s) && Explained(s, seen, k, r) && ItemOf(s, k).Some? && ItemOf(s, k).value.status == PreviewMatched
    requires r.status != Failed && r != Plain(k.1, None, NotFound)
    ensures var item := ItemOf(s, k).value;
      && item.proposal.Some? && item.txVersion.Some?
      && TrueThen(s, seen, item, s.previews[s.ops[k.0].preview].ruleSet, r)
  {
    hide WriteIsDue, Reason, Decide, Execute;
    var item := ItemOf(s, k).value;
    assert ItemsOk(s.previews[s.ops[k.0].preview].items);
    var e := Expect(item, s.previews[s.ops[k.0].preview].ruleSet);
    AppliedExactly(s.db, seen, e);
    RefusedTruly(s.db, seen, e);
  }

  lemma RefusedTruly(db: Db, seen: map<Id, Category>, e: Expectation)
    ensures var outcome := Decide(db, seen, e);
      outcome.Terminal? && outcome.status != Applied ==> Reason(db, seen, e, outcome.status)
  {
    hide Admissible, Reason;
    if !Admissible(db, seen, e) {
      RefusalIsTrue(db, seen, e);
    }
  }

  /** Over every run each recorded result of a proposal, unless it failed or its preview was pruned, was true
      of the rows of some step of the run, the one that recorded it. */
  lemma {:induction false} ProposalsAreTrue(trace: seq<State>, actions: seq<Action>, n: nat, k: (Id, Id)) returns (i: nat)
    requires IsRun(trace, actions) && Initial(trace[0]) && n <= |actions|
    requires k in trace[n].results && trace[n].results[k].result.status != Failed
    requires trace[n].results[k].result != Plain(k.1, None, NotFound)
    requires ItemOf(trace[n], k).Some? && ItemOf(trace[n], k).value.status == PreviewMatched
    ensures i < n && k !in trace[i].results && k in trace[i + 1].results
    ensures k.0 in trace[i].ops && trace[i].ops[k.0].preview in trace[i].previews
    ensures var item := ItemOf(trace[n], k).value;
      && item.proposal.Some? && item.txVersion.Some?
      && TrueThen(trace[i], SeenBy(trace[i], actions[i]), item, trace[i].previews[trace[i].ops[k.0].preview].ruleSet,
                  trace[n].results[k].result)
    decreases n
  {
    hide Inv, Step, Grows, TrueThen, ItemOf, Explained;
    assert n > 0;
    var s, a := trace[n - 1], actions[n - 1];
    TraceStands(trace, actions, n - 1);
    StepKeeps(s, a);
    if k in s.results {
      SameItem(s, trace[n], k);
      i := ProposalsAreTrue(trace, actions, n - 1, k);
    } else {
      i := n - 1;
      StepRecords(s, a, k);
      ItemKept(s, trace[n], k, SeenBy(s, a), trace[n].results[k].result);
      ProposalIsTrue(s, SeenBy(s, a), k, trace[n].results[k].result);
    }
  }

  lemma ItemKept(s: State, s': State, k: (Id, Id), seen: map<Id, Category>, r: ItemResult)
    requires Inv(s) && Grows(s, s') && Explained(s, seen, k, r)
    requires r.status != Failed && r != Plain(k.1, None, NotFound)
    ensures ItemOf(s', k) == ItemOf(s, k) && k.0 in s.ops && s.ops[k.0].preview in s.previews
  {
    hide Inv, Process;
  }

  lemma TraceStands(trace: seq<State>, actions: seq<Action>, n: nat)
    requires IsRun(trace, actions) && Initial(trace[0]) && n <= |actions|
    ensures Inv(trace[n])
  {
    hide Inv, Step, Grows;
    InitialInv(trace[0]);
    TraceKeeps(trace, actions, n);
  }
}
