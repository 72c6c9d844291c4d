/** What the bulk apply protocol promises over whole runs. Every theorem is about an arbitrary run from an
    empty set of apply tables, over an arbitrary ledger. */
module ApplyGuarantees {
  import opened Domain
  import opened RuleSet
  import opened Executor
  import opened Preview
  import opened Protocol
  import opened ProtocolInvariant

  // ----- exactly once -----

  ghost function WritesOf(s: State, op: Id, tx: Id): set<int> {
    set i | 0 <= i < |s.audit| && s.audit[i].tx == tx && s.audit[i].cause == Some(op)
  }

  predicate RecordedApplied(s: State, op: Id, item: Id) {
    (op, item) in s.results && s.results[(op, item)].result.status == Applied
  }

  /** Two applied results never share the version they replaced: whatever keys are used, a proposal is
      applied at most once ever. */
  lemma AppliedOnceEver(s: State, k: (Id, Id), k': (Id, Id))
    requires Reachable(s)
    requires RecordedApplied(s, k.0, k.1) && RecordedApplied(s, k'.0, k'.1)
    requires s.results[k].result.tx == s.results[k'].result.tx
    requires s.results[k].result.expected == s.results[k'].result.expected
    ensures k == k'
  {
    ReachableKeeps(s);
    InvTables(s);
    SameWrite(s, k, k');
  }

  lemma SameWrite(s: State, k: (Id, Id), k': (Id, Id))
    requires AuditOk(s.audit, s.db.txs) && EffectsOk(s.audit, s.results)
    requires RowsOk(s.results, s.ops, s.previews) && PreviewsOk(s.previews)
    requires RecordedApplied(s, k.0, k.1) && RecordedApplied(s, k'.0, k'.1)
    requires s.results[k].result.tx == s.results[k'].result.tx
    requires s.results[k].result.expected == s.results[k'].result.expected
    ensures k == k'
  {
    var i :| EffectAt(s.audit, i, k.0, s.results[k]);
    var j :| EffectAt(s.audit, j, k'.0, s.results[k']);
    assert i == j;
    assert RowOk(k, s.results[k], s.ops, s.previews) && RowOk(k', s.results[k'], s.ops, s.previews);
  }

  /** The same preview item is applied by at most one operation. */
  lemma ItemAppliedOnce(s: State, op: Id, op': Id, item: Id)
    requires Reachable(s)
    requires op in s.ops && op' in s.ops && s.ops[op].preview == s.ops[op'].preview
    requires RecordedApplied(s, op, item) && RecordedApplied(s, op', item)
    ensures op == op'
  {
    ReachableKeeps(s);
    InvTables(s);
    assert RowOk((op, item), s.results[(op, item)], s.ops, s.previews);
    assert RowOk((op', item), s.results[(op', item)], s.ops, s.previews);
    AppliedOnceEver(s, (op, item), (op', item));
  }

  /** An item of an operation caused exactly one write of its transaction if its result is `applied`, and
      none otherwise. */
  lemma ExactlyOnce(s: State, op: Id, item: Id)
    requires Reachable(s) && op in s.ops && item in s.ops[op].items
    ensures s.ops[op].preview in s.previews && item in s.previews[s.ops[op].preview].items
    ensures var tx := s.previews[s.ops[op].preview].items[item].tx;
      |WritesOf(s, op, tx)| == if RecordedApplied(s, op, item) then 1 else 0
  {
    ReachableKeeps(s);
    InvTables(s);
    assert OpOk(s.ops[op], s.previews);
    CountWrites(s, op, item);
  }

  lemma CountWrites(s: State, op: Id, item: Id)
    requires TablesOk(s) && op in s.ops && s.ops[op].preview in s.previews
    requires item in s.previews[s.ops[op].preview].items
    ensures var tx := s.previews[s.ops[op].preview].items[item].tx;
      |WritesOf(s, op, tx)| == if RecordedApplied(s, op, item) then 1 else 0
  {
    var tx := s.previews[s.ops[op].preview].items[item].tx;
    forall i | i in WritesOf(s, op, tx)
      ensures (op, item) in s.results && Caused(s.audit[i], op, s.results[(op, item)])
    {
      var k :| CausedBy(s.audit[i], s.results, k);
      assert RowOk(k, s.results[k], s.ops, s.previews);
      assert ItemsOk(s.previews[s.ops[op].preview].items);
      assert k == (op, item);
    }
    if RecordedApplied(s, op, item) {
      assert RowOk((op, item), s.results[(op, item)], s.ops, s.previews);
      var i :| EffectAt(s.audit, i, op, s.results[(op, item)]);
      assert WritesOf(s, op, tx) == {i};
    } else {
      assert WritesOf(s, op, tx) == {};
    }
  }

  // ----- durable results -----

  /** A terminal result, once recorded, is there in every later state, unchanged; so are the identity and
      the completion of its operation, and every write. */
  lemma ResultsAreFinal(s: State, s': State)
    requires Reachable(s) && Leads(s, s')
    ensures ResultsGrow(s.results, s'.results) && OpsGrow(s.ops, s'.ops) && s.audit <= s'.audit
  {
    hide Leads, Reachable;
    ReachableKeeps(s);
    RunsKeep(s, s');
  }

  /** Sequences are ranks in the canonical order, whatever permutations the retries submitted, and a
      completed operation has a result for every requested item. */
  lemma SequencesAreRanks(s: State, op: Id)
    requires Reachable(s) && op in s.ops
    ensures StrictlySorted(s.ops[op].items)
    ensures forall item :: (op, item) in s.results ==>
      && s.results[(op, item)].sequence < |s.ops[op].items|
      && s.ops[op].items[s.results[(op, item)].sequence] == item
    ensures s.ops[op].completed ==> forall item :: item in s.ops[op].items ==> (op, item) in s.results
  {
    ReachableKeeps(s);
    InvTables(s);
    assert OpOk(s.ops[op], s.previews);
    forall item | (op, item) in s.results
      ensures s.results[(op, item)].sequence < |s.ops[op].items|
      ensures s.ops[op].items[s.results[(op, item)].sequence] == item
    {
      assert RowOk((op, item), s.results[(op, item)], s.ops, s.previews);
    }
  }

  lemma AnswerOf(op: Id, order: seq<Id>, collected: seq<ItemResult>, results: map<(Id, Id), ResultRow>, item: Id)
      returns (answer: ItemResult)
    requires CollectedOk(op, order, collected, results) && |collected| == |order| && item in order
    requires forall k :: k in results ==> results[k].result.item == k.1
    ensures answer in collected && answer.item == item
    ensures (op, item) in results && Agrees(answer, results[(op, item)].result)
  {
    var i :| 0 <= i < |order| && order[i] == item;
    answer := collected[i];
  }

  lemma FinishedRecord(s: State, p: Id)
    requires Reachable(s) && At(s, p, Done)
    ensures var r := s.requests[p];
      && r.op in s.ops && s.ops[r.op].completed && s.ops[r.op].key == r.key && Distinct(r.caller)
      && CollectedOk(r.op, Canonical(r.caller), r.collected, s.results)
      && |r.collected| == |Canonical(r.caller)|
      && forall k :: k in s.results ==> s.results[k].result.item == k.1
  {
    ReachableKeeps(s);
    assert RequestOk(s.requests[p], s.ops, s.results, s.previews, s.live);
    forall k | k in s.results ensures s.results[k].result.item == k.1 {
      assert RowOk(k, s.results[k], s.ops, s.previews);
    }
  }

  /** A finished request can answer in its caller's order, once per item, and every answer agrees with the
      recorded result in item, transaction, status and error code. */
  lemma FinishedRequestAnswers(s: State, p: Id) returns (response: seq<ItemResult>)
    requires Reachable(s) && At(s, p, Done)
    ensures var r := s.requests[p];
      && Responds(r, response)
      && r.op in s.ops && s.ops[r.op].completed && s.ops[r.op].key == r.key
      && (forall i :: 0 <= i < |r.caller| ==>
            (r.op, r.caller[i]) in s.results && Agrees(response[i], s.results[(r.op, r.caller[i])].result))
  {
    hide CollectedOk;
    var r := s.requests[p];
    FinishedRecord(s, p);
    CanonicalSorted(r.caller);
    response := [];
    while |response| < |r.caller|
      invariant |response| <= |r.caller|
      invariant forall i :: 0 <= i < |response| ==>
        && response[i] in r.collected && response[i].item == r.caller[i]
        && (r.op, r.caller[i]) in s.results && Agrees(response[i], s.results[(r.op, r.caller[i])].result)
    {
      var answer := AnswerOf(r.op, Canonical(r.caller), r.collected, s.results, r.caller[|response|]);
      response := response + [answer];
    }
  }

  /** Two finished requests of one key agree, item by item, in everything but the expected version. */
  lemma ReplaysAgree(s: State, p: Id, q: Id, i: nat, j: nat)
    requires Reachable(s)
    requires At(s, p, Done) && At(s, q, Done) && s.requests[p].key == s.requests[q].key
    requires i < |s.requests[p].collected| && j < |s.requests[q].collected|
    requires s.requests[p].collected[i].item == s.requests[q].collected[j].item
    ensures Agrees(s.requests[p].collected[i], s.requests[q].collected[j])
  {
    ReachableKeeps(s);
    InvTables(s);
    var r, r' := s.requests[p], s.requests[q];
    assert RequestOk(r, s.ops, s.results, s.previews, s.live);
    assert RequestOk(r', s.ops, s.results, s.previews, s.live);
    assert r.op == r'.op;
    var k, k' := (r.op, Canonical(r.caller)[i]), (r.op, Canonical(r'.caller)[j]);
    assert RowOk(k, s.results[k], s.ops, s.previews) && RowOk(k', s.results[k'], s.ops, s.previews);
  }

  // ----- claim and prune -----

  /** An operation in progress keeps its preview until the recovery window has passed, and a requester
      that holds the preview lock finds the preview when it claims. */
  lemma ClaimVersusPrune(s: State)
    requires Reachable(s)
    ensures forall op :: op in s.ops && !s.ops[op].completed ==>
      && s.ops[op].preview in s.previews
      && (s.ops[op].preview in s.live || s.previews[s.ops[op].preview].expiresAt + s.window <= s.clock)
    ensures forall p :: At(s, p, Claiming) ==> s.requests[p].preview in s.live
  {
    ReachableKeeps(s);
    InvTables(s);
    ClaimsLive(s);
    forall op | op in s.ops ensures s.ops[op].preview in s.previews {
      assert OpOk(s.ops[op], s.previews);
    }
  }

  ghost function Backlog(s: State, now: Instant): set<Id> {
    set x | x in s.live && Prunable(s, now, x) && !Locked(s, x)
  }

  lemma StepPrunes(s: State, now: Instant, limit: nat, victims: set<Id>)
    requires now <= s.clock && Sweep(s, now, limit, victims)
    ensures Step(s, Prune(now, limit, victims)) == s.(live := s.live - victims)
  {
    hide Sweep;
  }

  lemma BacklogWithout(s: State, now: Instant, victims: set<Id>)
    ensures Backlog(s.(live := s.live - victims), now) == Backlog(s, now) - victims
  {
    var s' := s.(live := s.live - victims);
    forall x ensures Prunable(s', now, x) <==> Prunable(s, now, x) && x !in victims {
      assert InProgress(s', x) == InProgress(s, x);
    }
    forall x ensures Locked(s', x) == Locked(s, x) {
    }
  }

  /** One sweep removes `limit` previews of the backlog, or all of it, oldest first, and nothing else. */
  lemma SweepDrains(s: State, now: Instant, limit: nat, victims: set<Id>)
    requires now <= s.clock && Sweep(s, now, limit, victims)
    ensures var s' := Step(s, Prune(now, limit, victims));
      && s' == s.(live := s.live - victims)
      && Backlog(s', now) == Backlog(s, now) - victims && victims <= Backlog(s, now)
      && |Backlog(s', now)| == if |Backlog(s, now)| <= limit then 0 else |Backlog(s, now)| - limit
  {
    hide Step, Locked, InProgress, Older;
    StepPrunes(s, now, limit, victims);
    BacklogWithout(s, now, victims);
    var backlog := Backlog(s, now);
    assert victims <= backlog;
    assert |victims| < limit ==> victims == backlog;
    hide Backlog, Sweep, Prunable;
    assert |backlog - victims| == |backlog| - |victims|;
    assert |backlog| <= limit && |victims| == limit ==> backlog - victims == {};
  }

  ghost predicate Sweeps(s: State, now: Instant, limit: nat, sweeps: seq<set<Id>>)
    decreases |sweeps|
  {
    sweeps == [] ||
    (Sweep(s, now, limit, sweeps[0]) && Sweeps(Step(s, Prune(now, limit, sweeps[0])), now, limit, sweeps[1..]))
  }

  ghost function AfterSweeps(s: State, now: Instant, limit: nat, sweeps: seq<set<Id>>): State
    decreases |sweeps|
  {
    if sweeps == [] then s else AfterSweeps(Step(s, Prune(now, limit, sweeps[0])), now, limit, sweeps[1..])
  }

  /** A backlog of n previews is gone after ceil(n / limit) sweeps. */
  lemma {:induction false} BacklogDrains(s: State, now: Instant, limit: nat, sweeps: seq<set<Id>>)
    requires now <= s.clock && Sweeps(s, now, limit, sweeps)
    requires |Backlog(s, now)| <= |sweeps| * limit
    ensures Backlog(AfterSweeps(s, now, limit, sweeps), now) == {}
    decreases |sweeps|
  {
    if sweeps != [] {
      SweepDrains(s, now, limit, sweeps[0]);
      var s' := Step(s, Prune(now, limit, sweeps[0]));
      assert (|sweeps| - 1) * limit == |sweeps| * limit - limit;
      BacklogDrains(s', now, limit, sweeps[1..]);
    }
  }

  // ----- versions stand for content -----

  /** Equal rule-set revisions in a run mean the same matching rules in the same order; equal transaction
      versions mean the same row. */
  lemma VersionsIdentify(s: State, s': State)
    requires Reachable(s) && Leads(s, s')
    ensures
      && (s'.db.ruleSet == s.db.ruleSet ==> View(s'.db.rules) == View(s.db.rules))
      && (forall tx :: tx in s.db.txs ==>
            tx in s'.db.txs && (s'.db.txs[tx].version == s.db.txs[tx].version ==> s'.db.txs[tx] == s.db.txs[tx]))
  {
    hide Leads, Reachable;
    ReachableKeeps(s);
    RunsKeep(s, s');
  }

  /** What the matcher and the executor read of the categories, and the closed period, are as at preview
      time; the target category keeps its row. */
  ghost predicate SameSurroundings(db: Db, db': Db, target: Id) {
    && db'.categories.Keys == db.categories.Keys
    && (forall c :: c in db.categories ==>
          && db'.categories[c].archived == db.categories[c].archived
          && db'.categories[c].categoryType == db.categories[c].categoryType)
    && Lookup(db'.categories, Some(target)) == Lookup(db.categories, Some(target))
    && db'.closedBefore == db.closedBefore
  }

  ghost predicate SameVersions(db: Db, db': Db, item: Item) {
    && item.proposal.Some? && item.txVersion.Some?
    && db'.ruleSet == db.ruleSet
    && item.proposal.value.rule in db'.rules
    && db'.rules[item.proposal.value.rule].version == item.proposal.value.ruleVersion
    && item.tx in db'.txs && db'.txs[item.tx].version == item.txVersion.value
  }

  lemma PreviewCreated(s: State, id: Id, itemIds: seq<Id>, txIds: seq<Id>, k: nat)
    requires Inv(s) && id !in s.previews
    requires |itemIds| == |txIds| && Distinct(itemIds) && Distinct(txIds) && k < |itemIds|
    ensures var s1 := Step(s, CreatePreview(id, itemIds, txIds));
      && Inv(s1) && s1.db == s.db && id in s1.previews && s1.previews[id].ruleSet == s.db.ruleSet
      && itemIds[k] in s1.previews[id].items && s1.previews[id].items[itemIds[k]] == MakeItem(s.db, txIds[k])
  {
    hide Inv, MakeItem;
    StepKeeps(s, CreatePreview(id, itemIds, txIds));
  }

  lemma RuleSetOf(s: State, p: Id)
    requires Inv(s) && p in s.requests && HasNext(s.requests[p]) && s.requests[p].ruleSet.Some?
    ensures s.requests[p].preview in s.previews
    ensures s.requests[p].ruleSet.value == s.previews[s.requests[p].preview].ruleSet
  {
    assert RequestOk(s.requests[p], s.ops, s.results, s.previews, s.live);
  }

  /** From preview to apply, across any run in between: while the versions and surroundings are those of
      the preview, running a matched item records `applied` exactly when its category is not deleted and
      the transaction service accepts the write. */
  lemma PreviewToApply(s: State, id: Id, itemIds: seq<Id>, txIds: seq<Id>, k: nat, s': State, p: Id)
    requires Reachable(s) && id !in s.previews
    requires |itemIds| == |txIds| && Distinct(itemIds) && Distinct(txIds) && k < |itemIds|
    requires MakeItem(s.db, txIds[k]).status == PreviewMatched
    requires Leads(Step(s, CreatePreview(id, itemIds, txIds)), s')
    requires SameVersions(s.db, s'.db, MakeItem(s.db, txIds[k]))
    requires SameSurroundings(s.db, s'.db, MakeItem(s.db, txIds[k]).proposal.value.category)
    requires p in s'.requests && HasNext(s'.requests[p]) && Next(s'.requests[p]) == itemIds[k]
    requires s'.requests[p].preview == id && s'.requests[p].ruleSet.Some? && itemIds[k] in s'.requests[p].items
    requires (s'.requests[p].op, itemIds[k]) !in s'.results
    ensures RecordedApplied(Step(s', DoItem(p, s'.db.categories)), s'.requests[p].op, itemIds[k]) ==
      (!s.db.categories[MakeItem(s.db, txIds[k]).proposal.value.category].deleted && WriteValid(s'.db, txIds[k]))
  {
    hide Inv, Step, SameEvidence, Decide, Leads, Reachable;
    var item := MakeItem(s.db, txIds[k]);
    var s1 := Step(s, CreatePreview(id, itemIds, txIds));
    assert item.tx == txIds[k];
    ReachableKeeps(s);
    PreviewCreated(s, id, itemIds, txIds, k);
    RunsKeep(s1, s');
    assert SameEvidence(s.db, s'.db, item) by {
      EvidenceHolds(s1.db, s'.db, item);
    }
    NextFits(s', p);
    RuleSetOf(s', p);
    MatchedIsApplied(s.db, s'.db, txIds[k]);
    ItemStatus(s', p, item, s.db.ruleSet);
  }

  lemma EvidenceHolds(db: Db, db': Db, item: Item)
    requires DbGrows(db, db') && item == MakeItem(db, item.tx) && item.status == PreviewMatched
    requires SameVersions(db, db', item) && SameSurroundings(db, db', item.proposal.value.category)
    ensures SameEvidence(db, db', item)
  {
  }

  /** Running an item that was never attempted records the executor's decision. */
  lemma ItemStatus(s: State, p: Id, item: Item, ruleSet: nat)
    requires p in s.requests && HasNext(s.requests[p])
    requires var r, id := s.requests[p], Next(s.requests[p]);
      && id !in r.persisted && r.ruleSet == Some(ruleSet)
      && id in r.items && r.items[id] == item
      && item.status == PreviewMatched && item.proposal.Some? && item.txVersion.Some?
      && (r.op, id) !in s.results && Vacant(s.results, r.op, id, |r.collected|)
    ensures var r, id := s.requests[p], Next(s.requests[p]);
      var outcome := Decide(s.db, s.db.categories, Expect(item, ruleSet));
      RecordedApplied(Step(s, DoItem(p, s.db.categories)), r.op, id) ==
        (outcome.Terminal? && outcome.status == Applied)
  {
    hide Decide, Execute;
    var r := s.requests[p];
    var work := Process(s.db, s.db.categories, r.op, ruleSet, Next(r), Some(item));
    assert Step(s, DoItem(p, s.db.categories)) == RunItem(s, p, s.db.categories);
  }
}
