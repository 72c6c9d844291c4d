/** A new apply request that runs alone, and several proposals of one preview applied by it: none gets in
    the way of another. */
module BulkApply {
  import opened Domain
  import opened RuleSet
  import opened Executor
  import opened Preview
  import opened Protocol
  import opened ProtocolInvariant
  import opened Alone
  import opened Recovery

  /** The proposal for `tx`, made on the rows of `made`, still stands on `db`, and its write would be accepted. */
  ghost predicate Stands(made: Db, db: Db, tx: Id) {
    && MakeItem(made, tx).status == PreviewMatched
    && SameEvidence(made, db, MakeItem(made, tx))
    && !made.categories[MakeItem(made, tx).proposal.value.category].deleted
    && WriteValid(db, tx)
  }

  /** Categorizing one transaction leaves the proposal of every other one standing. */
  lemma OthersStand(made: Db, db: Db, tx: Id, other: Id, category: Id)
    requires Stands(made, db, other) && tx in db.txs && tx != other
    ensures Stands(made, WriteCategory(db, tx, category), other)
  {
    hide MakeItem, WriteValid;
    ItemNames(made, other);
    OthersWritable(db, tx, other, category);
  }

  // ----- a new request -----

  /** The key is unknown, and the open preview holds every submitted item. */
  ghost predicate Submittable(s: State, p: Id, preview: Id, caller: seq<Id>, key: string, newOp: Id) {
    && p !in s.requests && caller != [] && Distinct(caller)
    && newOp !in s.ops && (forall o :: !HasKey(s.ops, key, o))
    && preview in s.live && preview in s.previews && s.clock < s.previews[preview].expiresAt
    && forall x :: x in caller ==> x in s.previews[preview].items
  }

  /** The rows of `s` with the new operation claimed. */
  function WithOperation(s: State, preview: Id, caller: seq<Id>, key: string, newOp: Id): State {
    s.(ops := s.ops[newOp := Operation(key, preview, Canonical(caller), false)])
  }

  /** The five statements before the loop of a request with a new key. */
  lemma SubmitEnters(s: State, p: Id, preview: Id, caller: seq<Id>, key: string, newOp: Id)
    requires Submittable(s, p, preview, caller, key, newOp)
    ensures var s1 := WithOperation(s, preview, caller, key, newOp);
      After(Step(s, Spawn(p, preview, caller, key)), p, newOp, 5)
        == Put(s1, p, LoopStart(s1, preview, caller, key, newOp, RuleSetOf(s1, preview)))
  {
    hide Step, After, LoopStart, Claim;
    var r0 := Spawned(preview, caller, key);
    var r1, r2 := r0.(pc := Locking), r0.(pc := Claiming);
    var s1 := WithOperation(s, preview, caller, key, newOp);
    var r3 := r0.(op := newOp, ruleSet := RuleSetOf(s1, preview), pc := Reading);
    StepSpawns(s, p, preview, caller, key);
    StepFinds(Put(s, p, r0), p);
    FindsNothing(Put(s, p, r0), p);
    PutTwice(s, p, r0, r1);
    AfterNext(Put(s, p, r0), p, newOp, 4, Put(s, p, r1));
    StepLocks(Put(s, p, r1), p);
    PutTwice(s, p, r1, r2);
    assert Lock(Put(s, p, r1), p) == Put(s, p, r2);
    AfterNext(Put(s, p, r1), p, newOp, 3, Put(s, p, r2));
    StepClaims(Put(s, p, r2), p, newOp);
    ClaimsNew(Put(s, p, r2), p, newOp);
    PutTwice(s1, p, r2, r3);
    assert Claim(Put(s, p, r2), p, newOp) == Put(s1, p, r3);
    AfterNext(Put(s, p, r2), p, newOp, 2, Put(s1, p, r3));
    ReadsAndLoads(s1, p, newOp, preview, caller, key, newOp, RuleSetOf(s1, preview));
  }

  lemma ClaimedFits(s: State, p: Id, preview: Id, caller: seq<Id>, key: string, newOp: Id)
    requires Inv(s) && Submittable(s, p, preview, caller, key, newOp)
    ensures OperationFits(WithOperation(s, preview, caller, key, newOp), newOp)
    ensures forall x :: (newOp, x) !in s.results
  {
    CanonicalSorted(caller);
    InvTables(s);
    forall k | k in s.results ensures k.0 in s.ops {
      assert RowOk(k, s.results[k], s.ops, s.previews);
    }
  }

  /** A request with a new key that runs alone claims its operation and ends as a retry of it would. */
  lemma NewRequestEnds(s: State, p: Id, preview: Id, caller: seq<Id>, key: string, newOp: Id) returns (s': State)
    requires Reachable(s) && Submittable(s, p, preview, caller, key, newOp)
    ensures EndsIn(Step(s, Spawn(p, preview, caller, key)), p, newOp, s') && Leads(s, s')
    ensures var s1 := WithOperation(s, preview, caller, key, newOp);
      && CompletedUnlessBlocked(s1, p, newOp, s') && RecordedUpToBlock(s1, newOp, s') && AnsweredFrom(s1, p, caller, newOp, s')
  {
    hide Inv, Leads, Step, Reachable, After, EndsIn, Processed, LoopStart, Rejected, Process, LoopsOver, AnsweredFrom,
      RecordedUpToBlock, CompletedUnlessBlocked;
    ReachableKeeps(s);
    ClaimedFits(s, p, preview, caller, key, newOp);
    var s1 := WithOperation(s, preview, caller, key, newOp);
    var r := LoopStart(s1, preview, caller, key, newOp, RuleSetOf(s1, preview));
    SubmitEnters(s, p, preview, caller, key, newOp);
    LeadsHere(s);
    LeadsOn(s, s, Spawn(p, preview, caller, key));
    StartFields(s1, preview, caller, key, newOp);
    s' := EntersLoop(s, Step(s, Spawn(p, preview, caller, key)), p, newOp, 5, Put(s1, p, r));
    RetryItems(s1, caller, newOp);
    LoopOutcome(s1, p, r, newOp, Put(s1, p, r), s');
  }

  // ----- what stands is applied -----

  lemma StandingIsApplied(made: Db, db: Db, tx: Id, op: Id, x: Id)
    requires Stands(made, db, tx)
    ensures var work := Process(db, db.categories, op, made.ruleSet, x, Some(MakeItem(made, tx)));
      work.Commit? && work.row.status == Applied && work.reply == work.row
  {
    hide MakeItem, SameEvidence, Decide, Execute;
    ItemNames(made, tx);
    MatchedIsApplied(made, db, tx);
  }

  /** Whatever items of a preview are submitted: if all their proposals still stand, a new request that runs
      alone completes and every one of them is applied. */
  lemma EverySubsetIsApplied(s: State, id: Id, itemIds: seq<Id>, txIds: seq<Id>, s1: State, p: Id, caller: seq<Id>,
                             key: string, newOp: Id) returns (s': State)
    requires Reachable(s) && id !in s.previews
    requires |itemIds| == |txIds| && Distinct(itemIds) && Distinct(txIds)
    requires Leads(Step(s, CreatePreview(id, itemIds, txIds)), s1)
    requires Submittable(s1, p, id, caller, key, newOp)
    requires forall k :: 0 <= k < |itemIds| && itemIds[k] in caller ==> Stands(s.db, s1.db, txIds[k])
    ensures EndsIn(Step(s1, Spawn(p, id, caller, key)), p, newOp, s') && Leads(s1, s') && At(s', p, Done)
    ensures forall x :: x in caller ==> (newOp, x) in s'.results && s'.results[(newOp, x)].result.status == Applied
    ensures forall i :: 0 <= i < |s'.requests[p].collected| ==> s'.requests[p].collected[i].status == Applied
  {
    hide Inv, Leads, Step, Reachable, EndsIn, Stands, WorkOn, MakeItem, Submittable, Rejected, CompletedUnlessBlocked,
      RecordedUpToBlock, AnsweredFrom;
    ReachesPreview(s, id, itemIds, txIds, s1);
    s' := NewRequestEnds(s1, p, id, caller, key, newOp);
    var s2 := WithOperation(s1, id, caller, key, newOp);
    assert Distinct(caller) && id in s1.live && forall x :: x in caller ==> x in s1.previews[id].items by {
      SubmitsItems(s1, p, id, caller, key, newOp);
    }
    CanonicalSorted(caller);
    NoneRecorded(s1, p, id, caller, key, newOp);
    forall x | x in caller
      ensures var work := WorkOn(s2, id, newOp, x);
        work.Commit? && work.row.status == Applied && work.reply == work.row && !Rejected(s2, newOp, x)
    {
      ItemApplied(s, id, itemIds, txIds, s1, caller, key, newOp, x);
    }
    AllApplied(s2, p, caller, newOp, s');
  }

  /** If no item is rejected and each comes to `applied`, so do all results and answers. */
  lemma AllApplied(s: State, p: Id, caller: seq<Id>, op: Id, s': State)
    requires op in s.ops && (forall x :: x in s.ops[op].items <==> x in caller) && forall x :: (op, x) !in s.results
    requires CompletedUnlessBlocked(s, p, op, s') && RecordedUpToBlock(s, op, s') && AnsweredFrom(s, p, caller, op, s')
    requires forall x :: x in caller ==>
      var work := WorkOn(s, s.ops[op].preview, op, x);
      work.Commit? && work.row.status == Applied && work.reply == work.row && !Rejected(s, op, x)
    ensures At(s', p, Done)
    ensures forall x :: x in caller ==> (op, x) in s'.results && s'.results[(op, x)].result.status == Applied
    ensures forall i :: 0 <= i < |s'.requests[p].collected| ==> s'.requests[p].collected[i].status == Applied
  {
    hide Rejected, WorkOn, ResultsGrow;
    forall x | x in caller
      ensures (op, x) in s'.results && RowOf(WorkOn(s, s.ops[op].preview, op, x)) == Some(s'.results[(op, x)].result)
    {
      assert x in s.ops[op].items;
    }
  }

  lemma SubmitsItems(s: State, p: Id, preview: Id, caller: seq<Id>, key: string, newOp: Id)
    requires Submittable(s, p, preview, caller, key, newOp)
    ensures Distinct(caller) && preview in s.live && preview in s.previews
    ensures forall x :: x in caller ==> x in s.previews[preview].items
  {
  }

  lemma NoneRecorded(s: State, p: Id, preview: Id, caller: seq<Id>, key: string, newOp: Id)
    requires Reachable(s) && Submittable(s, p, preview, caller, key, newOp)
    ensures forall x :: (newOp, x) !in s.results
  {
    hide Reachable, Inv, Submittable;
    ReachableKeeps(s);
    ClaimedFits(s, p, preview, caller, key, newOp);
  }

  lemma ReachesPreview(s: State, id: Id, itemIds: seq<Id>, txIds: seq<Id>, s1: State)
    requires Reachable(s) && id !in s.previews
    requires |itemIds| == |txIds| && Distinct(itemIds) && Distinct(txIds)
    requires Leads(Step(s, CreatePreview(id, itemIds, txIds)), s1)
    ensures Reachable(s1) && id in s1.previews && s1.previews[id] == BuildPreview(s, itemIds, txIds)
  {
    hide Inv, Leads, BuildPreview, Step;
    ReachableKeeps(s);
    var s0 := Step(s, CreatePreview(id, itemIds, txIds));
    assert s0.previews == s.previews[id := BuildPreview(s, itemIds, txIds)] by { StepCreates(s, id, itemIds, txIds); }
    StepKeeps(s, CreatePreview(id, itemIds, txIds));
    RunsKeep(s0, s1);
    var start :| Initial(start) && Leads(start, s);
    LeadsOn(start, s, CreatePreview(id, itemIds, txIds));
    LeadsFurther(start, s0, s1);
  }

  lemma StepCreates(s: State, id: Id, itemIds: seq<Id>, txIds: seq<Id>)
    requires id !in s.previews && |itemIds| == |txIds| && Distinct(itemIds) && Distinct(txIds)
    ensures Step(s, CreatePreview(id, itemIds, txIds))
         == s.(previews := s.previews[id := BuildPreview(s, itemIds, txIds)], live := s.live + {id})
  {
    hide BuildPreview;
  }

  /** An item whose proposal stands is applied by whatever request takes it alone. */
  lemma ItemApplied(s: State, id: Id, itemIds: seq<Id>, txIds: seq<Id>, s1: State, caller: seq<Id>, key: string,
                    newOp: Id, x: Id)
    requires |itemIds| == |txIds| && Distinct(itemIds) && id in s1.previews && id in s1.live
    requires s1.previews[id] == BuildPreview(s, itemIds, txIds)
    requires forall k :: 0 <= k < |itemIds| && itemIds[k] in caller ==> Stands(s.db, s1.db, txIds[k])
    requires x in caller && x in s1.previews[id].items
    ensures var s2 := WithOperation(s1, id, caller, key, newOp);
      var work := WorkOn(s2, id, newOp, x);
      work.Commit? && work.row.status == Applied && work.reply == work.row && !Rejected(s2, newOp, x)
  {
    hide Stands, Process, MakeItem, RejectedItem;
    var k :| 0 <= k < |itemIds| && itemIds[k] == x;
    StandingIsApplied(s.db, s1.db, txIds[k], newOp, x);
    AbortExactly(s1.db, newOp, s.db.ruleSet, x, MakeItem(s.db, txIds[k]));
  }

  // ----- two runs -----

  /** One expense that one rule matches, with account and category of the transaction to choose. */
  function SampleDb(archived: bool, category: Option<Id>): Db {
    var content := RuleContent("", 0, true, Some(Expense), None, None, None, None, 1);
    var tx := Transaction(0, Expense, 10_000, "EUR", 0, None, category, None, "", "", "", Confirmed, None, [], 1, false);
    Db(1, map[1 := Rule(content, 0, false, 1)], map[1 := Category("a", ExpenseOnly, None, false, false, 1)],
       map[0 := Account("", "EUR", 0, 0, archived, false, 1)], map[0 := tx], None)
  }

  lemma SampleMatched()
    ensures MakeItem(SampleDb(true, None), 0) == Item(0, Some(1), PreviewMatched, Some(Proposal(1, 1, 1, 1)))
    ensures RejectedItem(SampleDb(true, None), MakeItem(SampleDb(true, None), 0), 1)
  {
    var db := SampleDb(true, None);
    assert Eligible(db.rules, db.categories, db.txs[0], 1);
    assert IsFirstMatch(db.rules, db.categories, db.txs[0], 1);
    FirstMatchUnique(db.rules, db.categories, db.txs[0], 1);
  }

  /** The tables over `db` with one preview of transaction 0, as item 5. */
  ghost function SampleStart(db: Db): State {
    var s := State(db, 0, 0, map[], {}, map[], map[], [], map[]);
    s.(previews := map[1 := BuildPreview(s, [5], [0])], live := {1})
  }

  lemma BuiltOne(s: State, item: Id, tx: Id)
    ensures BuildPreview(s, [item], [tx]).items == map[item := MakeItem(s.db, tx)]
  {
    hide MakeItem;
    var items, itemIds := BuildPreview(s, [item], [tx]).items, [item];
    assert itemIds[0] in items;
    assert items[item] == MakeItem(s.db, tx);
    assert items.Keys == {item};
  }

  lemma SampleReachable(db: Db)
    ensures var s := SampleStart(db);
      && Reachable(s) && Submittable(s, 1, 1, [5], "k", 9)
      && s.previews[1].items == map[5 := MakeItem(db, 0)] && s.previews[1].ruleSet == db.ruleSet
  {
    hide Step, Leads, MakeItem;
    var s := State(db, 0, 0, map[], {}, map[], map[], [], map[]);
    LeadsHere(s);
    LeadsOn(s, s, CreatePreview(1, [5], [0]));
    StepCreates(s, 1, [5], [0]);
    assert Initial(s);
    BuiltOne(s, 5, 0);
    var previews, live := s.previews[1 := BuildPreview(s, [5], [0])], s.live + {1};
    assert previews == map[1 := BuildPreview(s, [5], [0])] && live == {1};
    assert SampleStart(db) == s.(previews := previews, live := live);
  }

  /** A proposal for a transaction of an archived account: the request ends, the operation stays in progress
      without a result, and every retry that runs alone ends the same way. */
  lemma RejectedWriteBlocks() returns (s: State)
    ensures Reachable(s) && At(s, 1, Dead) && 9 in s.ops && !s.ops[9].completed && (9, 5) !in s.results
    ensures forall p, s' :: p !in s.requests && EndsIn(Retried(s, p, [5], 9), p, 9, s') ==> At(s', p, Dead)
  {
    hide Step, Leads, Reachable, EndsIn, MakeItem, RejectedItem, Submittable, SampleStart;
    var s0 := SampleStart(SampleDb(true, None));
    SampleReachable(SampleDb(true, None));
    SampleMatched();
    s := NewRequestEnds(s0, 1, 1, [5], "k", 9);
    SampleOrder();
    assert Rejected(WithOperation(s0, 1, [5], "k", 9), 9, 5) by { SampleRejected(); }
    ReachesOn(s0, s);
    forall p, s' | p !in s.requests && EndsIn(Retried(s, p, [5], 9), p, 9, s') ensures At(s', p, Dead) {
      var s1 := CrashedOperationRecovers(s, p, [5], 9);
      OneEnd(Retried(s, p, [5], 9), p, 9, s1, s');
    }
  }

  lemma SampleOrder()
    ensures Canonical([5]) == [5]
  {
    assert [5][1..] == [];
    assert Canonical([5][1..]) == [];
  }

  lemma SampleRejected()
    ensures Rejected(WithOperation(SampleStart(SampleDb(true, None)), 1, [5], "k", 9), 9, 5)
  {
    hide MakeItem, RejectedItem, BuildPreview;
    SampleReachable(SampleDb(true, None));
    SampleMatched();
  }

  lemma ReachesOn(s: State, s': State)
    requires Reachable(s) && Leads(s, s')
    ensures Reachable(s')
  {
    hide Leads;
    var start :| Initial(start) && Leads(start, s);
    LeadsFurther(start, s, s');
  }
}
