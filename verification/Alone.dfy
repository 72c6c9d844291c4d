/** One request running alone: a step system of its own, without a choice. What each item ends in is decided
    by the state in which the item loop starts, because no item gets in the way of another. */
module Alone {
  import opened Domain
  import opened Sums
  import opened Refunds
  import opened RuleSet
  import opened Executor
  import opened Preview
  import opened Protocol
  import opened ProtocolInvariant

  /** The one step request `p` takes next; `newOp` is the id a new operation would get. */
  ghost function NextAction(s: State, p: Id, newOp: Id): Action {
    if p !in s.requests then Tick(s.clock)
    else match s.requests[p].pc
      case Finding => DoFind(p)
      case Locking => DoLock(p)
      case Claiming => DoClaim(p, newOp)
      case Fetching => DoFetch(p)
      case Reading => DoRead(p)
      case Loading => DoLoad(p)
      case Running => if HasNext(s.requests[p]) then DoItem(p, s.db.categories) else DoComplete(p)
      case Conflicted => DoReplay(p)
      case Done => Tick(s.clock)
      case Dead => Tick(s.clock)
  }

  ghost function After(s: State, p: Id, newOp: Id, n: nat): State
    decreases n
  {
    if n == 0 then s else After(Step(s, NextAction(s, p, newOp)), p, newOp, n - 1)
  }

  predicate Ended(s: State, p: Id) {
    At(s, p, Done) || At(s, p, Dead)
  }

  /** Running alone from `s`, request `p` ends in `s'`. */
  ghost predicate EndsIn(s: State, p: Id, newOp: Id, s': State) {
    Ended(s', p) && exists n: nat :: After(s, p, newOp, n) == s'
  }

  lemma {:induction false} EndStays(s: State, p: Id, newOp: Id, n: nat)
    requires Ended(s, p)
    ensures After(s, p, newOp, n) == s
  {
    if n > 0 {
      assert Step(s, NextAction(s, p, newOp)) == s by { Rests(s); }
      EndStays(s, p, newOp, n - 1);
    }
  }

  lemma Rests(s: State)
    ensures Step(s, Tick(s.clock)) == s
  {
  }

  /** A request that runs alone ends in one state only. */
  lemma {:induction false} EndUnique(s: State, p: Id, newOp: Id, m: nat, n: nat)
    requires Ended(After(s, p, newOp, m), p) && Ended(After(s, p, newOp, n), p)
    ensures After(s, p, newOp, m) == After(s, p, newOp, n)
    decreases m
  {
    hide Step;
    if m == 0 {
      EndStays(s, p, newOp, n);
    } else if n == 0 {
      EndStays(s, p, newOp, m);
    } else {
      EndUnique(Step(s, NextAction(s, p, newOp)), p, newOp, m - 1, n - 1);
    }
  }

  lemma OneEnd(s: State, p: Id, newOp: Id, s1: State, s2: State)
    requires EndsIn(s, p, newOp, s1) && EndsIn(s, p, newOp, s2)
    ensures s1 == s2
  {
    hide After;
    var m: nat :| After(s, p, newOp, m) == s1;
    var n: nat :| After(s, p, newOp, n) == s2;
    EndUnique(s, p, newOp, m, n);
  }

  lemma Onward(s: State, p: Id, newOp: Id, s1: State, s': State)
    requires s1 == Step(s, NextAction(s, p, newOp)) && EndsIn(s1, p, newOp, s')
    ensures EndsIn(s, p, newOp, s')
  {
    hide Step;
    var n: nat :| After(s1, p, newOp, n) == s';
    assert After(s, p, newOp, n + 1) == s';
  }

  lemma {:induction false} AfterLeads(s0: State, s: State, p: Id, newOp: Id, n: nat)
    requires Leads(s0, s)
    ensures Leads(s0, After(s, p, newOp, n))
    decreases n
  {
    hide Step, Leads;
    if n > 0 {
      LeadsOn(s0, s, NextAction(s, p, newOp));
      AfterLeads(s0, Step(s, NextAction(s, p, newOp)), p, newOp, n - 1);
    }
  }

  lemma EndsLead(s0: State, s: State, p: Id, newOp: Id, s': State)
    requires Leads(s0, s) && EndsIn(s, p, newOp, s')
    ensures Leads(s0, s')
  {
    hide Leads, After;
    var n: nat :| After(s, p, newOp, n) == s';
    AfterLeads(s0, s, p, newOp, n);
  }

  // ----- what an item ends in -----

  ghost function WorkFor(db: Db, r: Request, x: Id): Work {
    Process(db, db.categories, r.op, if r.ruleSet == None then 0 else r.ruleSet.value, x,
            if r.ruleSet == None then None else Lookup(r.items, Some(x)))
  }

  /** The item has no result yet and processing it ends in an error outside the executor's vocabulary. */
  ghost predicate Stops(db: Db, r: Request, x: Id) {
    x !in r.persisted && WorkFor(db, r, x) == Abort
  }

  ghost function Answer(db: Db, r: Request, x: Id): ItemResult
    requires !Stops(db, r, x)
  {
    if x in r.persisted then r.persisted[x] else WorkFor(db, r, x).reply
  }

  /** The row an item gets, unless it stops the request. */
  function RowOf(work: Work): Option<ItemResult> {
    if work.Commit? then Some(work.row) else None
  }

  function ReplyOf(work: Work): Option<ItemResult> {
    if work.Commit? then Some(work.reply) else None
  }

  lemma OthersRefunded(db: Db, tx: Id, category: Id, original: Id, other: Id)
    requires tx in db.txs
    ensures OtherRefunded(WriteCategory(db, tx, category).txs, original, other) == OtherRefunded(db.txs, original, other)
  {
    var txs' := WriteCategory(db, tx, category).txs;
    assert OtherRefunds(txs', original, other) == OtherRefunds(db.txs, original, other);
    SumEqual(OtherRefunds(db.txs, original, other), AmountOf(txs'), AmountOf(db.txs));
  }

  lemma OthersWritable(db: Db, tx: Id, other: Id, category: Id)
    requires tx in db.txs && other in db.txs && tx != other
    ensures WriteValid(WriteCategory(db, tx, category), other) <==> WriteValid(db, other)
  {
    hide OtherRefunded;
    if db.txs[other].related.Some? {
      OthersRefunded(db, tx, category, db.txs[other].related.value, other);
    }
  }

  /** Writing the category of one transaction decides nothing about any other. */
  lemma OthersDecided(db: Db, tx: Id, category: Id, e: Expectation)
    requires tx in db.txs && e.tx != tx
    ensures Decide(WriteCategory(db, tx, category), db.categories, e) == Decide(db, db.categories, e)
  {
    hide WriteValid, IsFirstMatch, FirstMatch, ProposedRuleHolds;
    if e.tx in db.txs {
      OthersWritable(db, tx, e.tx, category);
    }
    var db' := WriteCategory(db, tx, category);
    assert db'.categories == db.categories && db'.rules == db.rules;
    assert ProposedRuleHolds(db', e) == ProposedRuleHolds(db, e) by { SameProposal(db, db', e); }
  }

  lemma SameProposal(db: Db, db': Db, e: Expectation)
    requires db'.rules == db.rules
    ensures ProposedRuleHolds(db', e) == ProposedRuleHolds(db, e)
  {
  }

  ghost predicate SameVerdict(w: Work, w': Work) {
    (w == Abort <==> w' == Abort) && (w.Commit? ==> w'.row == w.row && w'.reply == w.reply)
  }

  lemma DecidedAlike(db: Db, db': Db, op: Id, ruleSet: nat, x: Id, item: Option<Item>)
    requires db'.categories == db.categories
    requires item.Some? && item.value.proposal.Some? && item.value.txVersion.Some? ==>
      var e := Expect(item.value, ruleSet); Decide(db', db.categories, e) == Decide(db, db.categories, e)
    ensures SameVerdict(Process(db, db.categories, op, ruleSet, x, item),
                        Process(db', db'.categories, op, ruleSet, x, item))
  {
    hide Decide, Execute;
  }

  lemma WorkWrites(db: Db, op: Id, ruleSet: nat, x: Id, item: Option<Item>)
    ensures var work := Process(db, db.categories, op, ruleSet, x, item);
      work.Commit? && work.db != db ==>
        item.Some? && item.value.tx in db.txs && exists category :: work.db == WriteCategory(db, item.value.tx, category)
  {
    hide WriteCategory, Refusal, WriteValid, IsFirstMatch, TargetHolds, ProposedRuleHolds;
  }

  /** Processing one item leaves the verdict on every other item as it was. */
  lemma WorkStays(db: Db, r: Request, id: Id, x: Id)
    requires WorkFor(db, r, id).Commit?
    requires x in r.items && id in r.items ==> r.items[x].tx != r.items[id].tx
    ensures WorkFor(db, r, id).db.categories == db.categories
    ensures SameVerdict(WorkFor(db, r, x), WorkFor(WorkFor(db, r, id).db, r, x))
  {
    hide Process, Decide, Execute, SameVerdict;
    var ruleSet := if r.ruleSet == None then 0 else r.ruleSet.value;
    var own := if r.ruleSet == None then None else Lookup(r.items, Some(id));
    var item := if r.ruleSet == None then None else Lookup(r.items, Some(x));
    var db' := WorkFor(db, r, id).db;
    WorkWrites(db, r.op, ruleSet, id, own);
    if db' != db && item.Some? && item.value.proposal.Some? && item.value.txVersion.Some? {
      var category :| db' == WriteCategory(db, own.value.tx, category);
      OthersDecided(db, own.value.tx, category, Expect(item.value, ruleSet));
    }
    DecidedAlike(db, db', r.op, ruleSet, x, item);
  }

  // ----- the item loop -----

  /** Every result of the operation was there when the request read them, or the request wrote it. */
  ghost predicate Settled(s: State, p: Id) {
    && At(s, p, Running)
    && var r := s.requests[p];
    && |r.collected| <= |Canonical(r.caller)|
    && forall x :: (r.op, x) in s.results ==> x in r.persisted || x in Canonical(r.caller)[..|r.collected|]
  }

  /** What one iteration leaves if the item does not stop the request. */
  ghost predicate Taken(s: State, p: Id, s': State)
    requires p in s.requests && HasNext(s.requests[p]) && !Stops(s.db, s.requests[p], Next(s.requests[p]))
  {
    var r, id := s.requests[p], Next(s.requests[p]);
    && s' == Put(s.(db := s'.db, audit := s'.audit, results := s'.results), p,
                 r.(collected := r.collected + [Answer(s.db, r, id)]))
    && if id in r.persisted then s'.db == s.db && s'.audit == s.audit && s'.results == s.results
       else
         var work := WorkFor(s.db, r, id);
         && s'.db == work.db && s'.audit == s.audit + work.writes
         && s'.results == s.results[(r.op, id) := ResultRow(|r.collected|, work.row)]
  }

  lemma ItemShape(s: State, p: Id)
    requires At(s, p, Running) && HasNext(s.requests[p])
    requires var r, id := s.requests[p], Next(s.requests[p]);
      id !in r.persisted ==> Vacant(s.results, r.op, id, |r.collected|)
    ensures var s', r := RunItem(s, p, s.db.categories), s.requests[p];
      if Stops(s.db, r, Next(r)) then s' == Put(s, p, r.(pc := Dead)) else Taken(s, p, s')
  {
    hide Process, Vacant;
  }

  lemma ItemTaken(s: State, p: Id)
    requires Inv(s) && Settled(s, p) && HasNext(s.requests[p])
    ensures var s', r := RunItem(s, p, s.db.categories), s.requests[p];
      && Inv(s')
      && if Stops(s.db, r, Next(r)) then s' == Put(s, p, r.(pc := Dead))
         else Taken(s, p, s') && Settled(s', p) && (Next(r) !in r.persisted ==> (r.op, Next(r)) !in s.results)
  {
    hide Inv, RunItem, Vacant, Stops, WorkFor;
    var r, id := s.requests[p], Next(s.requests[p]);
    NextFits(s, p);
    CanonicalSorted(r.caller);
    var order := Canonical(r.caller);
    assert id !in order[..|r.collected|];
    assert order[..|r.collected| + 1] == order[..|r.collected|] + [id];
    ItemShape(s, p);
    RunKeeps(s, p, s.db.categories);
  }

  lemma ItemsApart(s: State, p: Id, x: Id, y: Id)
    requires Inv(s) && At(s, p, Running)
    ensures var items := s.requests[p].items; x != y && x in items && y in items ==> items[x].tx != items[y].tx
  {
    var r := s.requests[p];
    assert RequestOk(r, s.ops, s.results, s.previews, s.live);
    if x in r.items {
      assert ItemsOk(s.previews[r.preview].items);
    }
  }

  /** What the rest of the loop does, in terms of the state `s` it starts from: the items from here on get
      the answers and rows of that state, up to the first that stops, or to the end. */
  ghost predicate Processed(s: State, p: Id, s': State)
    requires At(s, p, Running)
  {
    var r := s.requests[p];
    var order := Canonical(r.caller);
    && p in s'.requests
    && var r' := s'.requests[p];
    && r' == r.(collected := r'.collected, pc := r'.pc)
    && r.collected <= r'.collected && |r'.collected| <= |order|
    && (forall i :: |r.collected| <= i < |r'.collected| ==> Attempted(s, r, order[i], r'.collected[i], s'.results))
    && Recorded(s.results, s'.results, r.op, order[|r.collected|..|r'.collected|])
    && (if r'.pc == Done then |r'.collected| == |order|
        else
          && r'.pc == Dead && |r'.collected| < |order|
          && Stops(s.db, r, order[|r'.collected|]) && Stops(s'.db, r, order[|r'.collected|]))
  }

  ghost predicate Attempted(s: State, r: Request, x: Id, answer: ItemResult, results: map<(Id, Id), ResultRow>) {
    && !Stops(s.db, r, x) && answer == Answer(s.db, r, x)
    && (x !in r.persisted ==> (r.op, x) in results && results[(r.op, x)].result == WorkFor(s.db, r, x).row)
  }

  /** Results were only added, and only for these items. */
  ghost predicate Recorded(results: map<(Id, Id), ResultRow>, results': map<(Id, Id), ResultRow>, op: Id, items: seq<Id>) {
    && ResultsGrow(results, results')
    && forall k :: k in results' && k !in results ==> k.0 == op && k.1 in items
  }

  /** The tables a loop without commits does not touch, and what becomes of the operation. */
  ghost predicate Remains(s: State, p: Id, s': State)
    requires p in s.requests && p in s'.requests
  {
    var r, r' := s.requests[p], s'.requests[p];
    && s'.previews == s.previews && s'.live == s.live && s'.clock == s.clock && s'.window == s.window
    && s'.requests == s.requests[p := r'] && r.op in s.ops
    && s'.ops == (if r'.pc == Done then s.ops[r.op := s.ops[r.op].(completed := true)] else s.ops)
    && (r.ruleSet == None || r'.collected == r.collected ==> s'.db == s.db && s'.audit == s.audit)
  }

  lemma AttemptedThen(s: State, p: Id, s1: State, s': State, i: nat)
    requires Inv(s) && At(s, p, Running) && HasNext(s.requests[p])
    requires !Stops(s.db, s.requests[p], Next(s.requests[p])) && Taken(s, p, s1) && Processed(s1, p, s')
    requires Distinct(s.requests[p].caller) && |s.requests[p].collected| <= i < |s'.requests[p].collected|
    ensures Attempted(s, s.requests[p], Canonical(s.requests[p].caller)[i], s'.requests[p].collected[i], s'.results)
  {
    hide Inv, Process;
    var r, r1, r', id := s.requests[p], s1.requests[p], s'.requests[p], Next(s.requests[p]);
    var order := Canonical(r.caller);
    if i == |r.collected| {
      assert r'.collected[i] == r1.collected[i] == Answer(s.db, r, id);
      if id !in r.persisted {
        assert s1.results[(r.op, id)].result == WorkFor(s.db, r, id).row;
      }
    } else {
      CanonicalSorted(r.caller);
      assert order[i] != id;
      assert Attempted(s1, r1, order[i], r'.collected[i], s'.results);
      Elsewhere(s, p, s1, order[i]);
    }
  }

  lemma StopsThen(s: State, p: Id, s1: State, s': State)
    requires Inv(s) && At(s, p, Running) && HasNext(s.requests[p])
    requires !Stops(s.db, s.requests[p], Next(s.requests[p])) && Taken(s, p, s1) && Processed(s1, p, s')
    requires Distinct(s.requests[p].caller)
    ensures var r, r' := s.requests[p], s'.requests[p];
      |r'.collected| < |Canonical(r.caller)| ==>
        && Stops(s.db, r, Canonical(r.caller)[|r'.collected|])
        && Stops(s'.db, r, Canonical(r.caller)[|r'.collected|])
  {
    hide Inv, Attempted, Process, ResultsGrow, SameVerdict;
    var order, k := Canonical(s.requests[p].caller), |s'.requests[p].collected|;
    CanonicalSorted(s.requests[p].caller);
    if k < |order| {
      assert order[k] != Next(s.requests[p]);
      Elsewhere(s, p, s1, order[k]);
    }
  }

  lemma TakenThen(s: State, p: Id, s1: State, s': State)
    requires Inv(s) && At(s, p, Running) && HasNext(s.requests[p])
    requires !Stops(s.db, s.requests[p], Next(s.requests[p])) && Taken(s, p, s1)
    requires Next(s.requests[p]) !in s.requests[p].persisted ==> (s.requests[p].op, Next(s.requests[p])) !in s.results
    requires Processed(s1, p, s')
    ensures Processed(s, p, s')
  {
    hide Inv, Stops, WorkFor, Answer, Attempted, Recorded;
    var r, r' := s.requests[p], s'.requests[p];
    var order, k := Canonical(r.caller), |s.requests[p].collected|;
    assert Distinct(r.caller) by { NextFits(s, p); }
    forall i | k <= i < |r'.collected| ensures Attempted(s, r, order[i], r'.collected[i], s'.results) {
      AttemptedThen(s, p, s1, s', i);
    }
    StopsThen(s, p, s1, s');
    ResultsThen(s, p, s1, s');
  }

  lemma ResultsThen(s: State, p: Id, s1: State, s': State)
    requires At(s, p, Running) && HasNext(s.requests[p]) && !Stops(s.db, s.requests[p], Next(s.requests[p]))
    requires Taken(s, p, s1) && Processed(s1, p, s')
    requires Next(s.requests[p]) !in s.requests[p].persisted ==> (s.requests[p].op, Next(s.requests[p])) !in s.results
    ensures var r, r' := s.requests[p], s'.requests[p];
      Recorded(s.results, s'.results, r.op, Canonical(r.caller)[|r.collected|..|r'.collected|])
  {
    hide Stops, WorkFor, Answer, Attempted;
    var r, r' := s.requests[p], s'.requests[p];
    var items := Canonical(r.caller)[|r.collected|..|r'.collected|];
    assert items[0] == Next(r) && items[1..] == Canonical(r.caller)[|r.collected| + 1..|r'.collected|];
  }

  lemma Elsewhere(s: State, p: Id, s1: State, x: Id)
    requires Inv(s) && At(s, p, Running) && HasNext(s.requests[p]) && x != Next(s.requests[p])
    requires !Stops(s.db, s.requests[p], Next(s.requests[p])) && Taken(s, p, s1)
    ensures Stops(s1.db, s1.requests[p], x) <==> Stops(s.db, s.requests[p], x)
    ensures SameVerdict(WorkFor(s.db, s.requests[p], x), WorkFor(s1.db, s1.requests[p], x))
  {
    hide Inv, Process;
    var r, id := s.requests[p], Next(s.requests[p]);
    assert WorkFor(s1.db, s1.requests[p], x) == WorkFor(s1.db, r, x);
    ItemsApart(s, p, x, id);
    if id !in r.persisted {
      WorkStays(s.db, r, id, x);
    }
  }

  /** Running alone, the request takes its items one by one and completes, or stops at the first item whose
      write is rejected. */
  lemma {:induction false} LoopEnds(s: State, p: Id, newOp: Id) returns (s': State)
    requires Inv(s) && Settled(s, p)
    ensures EndsIn(s, p, newOp, s') && Processed(s, p, s') && Remains(s, p, s')
    decreases |Canonical(s.requests[p].caller)| - |s.requests[p].collected|
  {
    hide Inv, RunItem, EndsIn, Processed, Remains, Stops, Taken, Settled;
    AtLoop(s, p);
    var r := s.requests[p];
    if HasNext(r) {
      ItemTaken(s, p);
      var s1 := RunItem(s, p, s.db.categories);
      assert s1 == Step(s, NextAction(s, p, newOp)) by { StepRuns(s, p, s.db.categories); }
      if Stops(s.db, r, Next(r)) {
        s' := s1;
        StopsHere(s, p, newOp, s');
      } else {
        TakenMoves(s, p, s1);
        s' := LoopEnds(s1, p, newOp);
        TakenThen(s, p, s1, s');
        TakenRemains(s, p, s1, s');
      }
      Onward(s, p, newOp, s1, s');
    } else {
      RunningOwns(s, p);
      s' := Complete(s, p);
      assert s' == Step(s, NextAction(s, p, newOp)) by { StepCompletes(s, p); }
      CompletesHere(s, p, newOp, s');
      Onward(s, p, newOp, s', s');
    }
  }

  lemma AtLoop(s: State, p: Id)
    requires Settled(s, p)
    ensures At(s, p, Running) && |s.requests[p].collected| <= |Canonical(s.requests[p].caller)|
  {
  }

  lemma TakenMoves(s: State, p: Id, s1: State)
    requires At(s, p, Running) && HasNext(s.requests[p]) && !Stops(s.db, s.requests[p], Next(s.requests[p]))
    requires Taken(s, p, s1)
    ensures At(s1, p, Running) && s1.requests[p].caller == s.requests[p].caller
    ensures |s1.requests[p].collected| == |s.requests[p].collected| + 1
  {
  }

  lemma StopsHere(s: State, p: Id, newOp: Id, s': State)
    requires Inv(s) && At(s, p, Running) && HasNext(s.requests[p]) && Stops(s.db, s.requests[p], Next(s.requests[p]))
    requires s' == Put(s, p, s.requests[p].(pc := Dead))
    ensures EndsIn(s', p, newOp, s') && Processed(s, p, s') && Remains(s, p, s')
  {
    hide Inv, Step;
    RunningOwns(s, p);
    assert After(s', p, newOp, 0) == s';
  }

  lemma CompletesHere(s: State, p: Id, newOp: Id, s': State)
    requires At(s, p, Running) && |s.requests[p].collected| == |Canonical(s.requests[p].caller)|
    requires s.requests[p].op in s.ops && s' == Complete(s, p)
    ensures EndsIn(s', p, newOp, s') && Processed(s, p, s') && Remains(s, p, s')
  {
    hide Step;
    assert After(s', p, newOp, 0) == s';
  }

  lemma TakenRemains(s: State, p: Id, s1: State, s': State)
    requires At(s, p, Running) && HasNext(s.requests[p]) && !Stops(s.db, s.requests[p], Next(s.requests[p]))
    requires Taken(s, p, s1) && Processed(s1, p, s') && Remains(s1, p, s')
    ensures Remains(s, p, s')
  {
    hide Decide, Execute, Attempted, ResultsGrow;
    assert |s'.requests[p].collected| > |s.requests[p].collected|;
  }

  lemma RunningOwns(s: State, p: Id)
    requires Inv(s) && At(s, p, Running)
    ensures s.requests[p].op in s.ops
  {
    assert RequestOk(s.requests[p], s.ops, s.results, s.previews, s.live);
  }

  // ----- the steps by name -----

  lemma LeadsHere(s: State)
    ensures Leads(s, s)
  {
    var trace, actions: seq<Action> := [s], [];
    assert IsRun(trace, actions);
  }

  function Spawned(preview: Id, caller: seq<Id>, key: string): Request {
    Request(preview, caller, key, Finding, 0, None, map[], map[], [])
  }

  lemma StepSpawns(s: State, p: Id, preview: Id, caller: seq<Id>, key: string)
    requires p !in s.requests && caller != [] && Distinct(caller)
    ensures Step(s, Spawn(p, preview, caller, key)) == Put(s, p, Spawned(preview, caller, key))
  {
  }

  lemma StepFinds(s: State, p: Id)
    requires At(s, p, Finding)
    ensures Step(s, DoFind(p)) == Find(s, p)
  {
  }

  lemma StepLocks(s: State, p: Id)
    requires At(s, p, Locking)
    ensures Step(s, DoLock(p)) == Lock(s, p)
  {
  }

  lemma StepClaims(s: State, p: Id, newOp: Id)
    requires At(s, p, Claiming) && s.requests[p].preview in s.previews && newOp !in s.ops
    ensures Step(s, DoClaim(p, newOp)) == Claim(s, p, newOp)
  {
  }

  lemma StepFetches(s: State, p: Id)
    requires At(s, p, Fetching)
    ensures Step(s, DoFetch(p)) == Fetch(s, p)
  {
  }

  lemma StepReads(s: State, p: Id)
    requires At(s, p, Reading)
    ensures Step(s, DoRead(p)) == ReadResults(s, p)
  {
    hide ReadResults;
  }

  lemma StepLoads(s: State, p: Id)
    requires At(s, p, Loading)
    ensures Step(s, DoLoad(p)) == Load(s, p)
  {
    hide Load;
  }

  lemma StepRuns(s: State, p: Id, seen: map<Id, Category>)
    requires p in s.requests && HasNext(s.requests[p])
    ensures Step(s, DoItem(p, seen)) == RunItem(s, p, seen)
  {
    hide RunItem;
  }

  lemma StepCompletes(s: State, p: Id)
    requires At(s, p, Running) && !HasNext(s.requests[p]) && s.requests[p].op in s.ops
    ensures Step(s, DoComplete(p)) == Complete(s, p)
  {
    hide Complete;
  }

  predicate OnlyKey(ops: map<Id, Operation>, key: string, op: Id) {
    HasKey(ops, key, op) && forall o :: o in ops && ops[o].key == key ==> o == op
  }

  lemma KeyNames(s: State, key: string, op: Id)
    requires Inv(s) && HasKey(s.ops, key, op)
    ensures OnlyKey(s.ops, key, op)
  {
    InvTables(s);
  }

  lemma FindsKey(s: State, p: Id, op: Id)
    requires At(s, p, Finding) && OnlyKey(s.ops, s.requests[p].key, op)
    ensures Find(s, p) == Put(s, p, if SameRequest(s.ops[op], s.requests[p]) then s.requests[p].(op := op, pc := Fetching)
                                    else s.requests[p].(pc := Dead))
  {
  }

  lemma FindsNothing(s: State, p: Id)
    requires At(s, p, Finding) && forall o :: !HasKey(s.ops, s.requests[p].key, o)
    ensures Find(s, p) == Put(s, p, s.requests[p].(pc := Locking))
  {
  }

  /** Without a competitor the claim inserts the new operation, unless an item is not of the preview. */
  lemma ClaimsNew(s: State, p: Id, newOp: Id)
    requires At(s, p, Claiming) && s.requests[p].preview in s.previews && newOp !in s.ops
    requires forall o :: !HasKey(s.ops, s.requests[p].key, o)
    ensures var r := s.requests[p];
      var preview := s.previews[r.preview];
      Claim(s, p, newOp) ==
        if forall x :: x in r.caller ==> x in preview.items then
          Put(s.(ops := s.ops[newOp := Operation(r.key, r.preview, Canonical(r.caller), false)]), p,
              r.(op := newOp, ruleSet := Some(preview.ruleSet), pc := Reading))
        else Put(s, p, r.(pc := Dead))
  {
    var r := s.requests[p];
    var ops := s.ops[newOp := Operation(r.key, r.preview, Canonical(r.caller), false)];
    assert forall o :: HasKey(ops, r.key, o) <==> o == newOp || HasKey(s.ops, r.key, o);
  }
}
