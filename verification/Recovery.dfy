/** A crashed operation taken up again, and a new one: what a request reaches when it runs alone, from any
    reachable state, and exactly when it completes. */
module Recovery {
  import opened Domain
  import opened Executor
  import opened Preview
  import opened Protocol
  import opened ProtocolInvariant
  import opened Alone

  lemma {:induction false} AfterThen(s: State, p: Id, newOp: Id, n: nat, s': State)
    requires EndsIn(After(s, p, newOp, n), p, newOp, s')
    ensures EndsIn(s, p, newOp, s')
    decreases n
  {
    hide Step, EndsIn;
    if n > 0 {
      var s1 := Step(s, NextAction(s, p, newOp));
      AfterThen(s1, p, newOp, n - 1, s');
      Onward(s, p, newOp, s1, s');
    }
  }

  lemma AfterNext(s: State, p: Id, newOp: Id, n: nat, s1: State)
    requires s1 == Step(s, NextAction(s, p, newOp))
    ensures After(s, p, newOp, n + 1) == After(s1, p, newOp, n)
  {
    hide Step, NextAction;
  }

  /** What a request holds when it reaches its item loop. */
  function LoopStart(s: State, preview: Id, caller: seq<Id>, key: string, op: Id, ruleSet: Option<nat>): Request {
    Request(preview, caller, key, Running, op, ruleSet,
            map x | x in caller && (op, x) in s.results :: s.results[(op, x)].result,
            LoadItems(s, Spawned(preview, caller, key)), [])
  }

  lemma PutTwice(s: State, p: Id, r: Request, r': Request)
    ensures Put(Put(s, p, r), p, r') == Put(s, p, r')
  {
    assert s.requests[p := r][p := r'] == s.requests[p := r'];
  }

  lemma ReadsAndLoads(s: State, p: Id, newOp: Id, preview: Id, caller: seq<Id>, key: string, op: Id, ruleSet: Option<nat>)
    ensures After(Put(s, p, Request(preview, caller, key, Reading, op, ruleSet, map[], map[], [])), p, newOp, 2)
         == Put(s, p, LoopStart(s, preview, caller, key, op, ruleSet))
  {
    hide Step, After;
    var r := Request(preview, caller, key, Reading, op, ruleSet, map[], map[], []);
    var persisted := LoopStart(s, preview, caller, key, op, ruleSet).persisted;
    var s1, s2 := Put(s, p, r), Put(s, p, r.(pc := Loading, persisted := persisted));
    StepReads(s1, p);
    PutTwice(s, p, r, s2.requests[p]);
    assert ReadResults(s1, p) == s2;
    AfterNext(s1, p, newOp, 1, s2);
    StepLoads(s2, p);
    PutTwice(s, p, s2.requests[p], LoopStart(s, preview, caller, key, op, ruleSet));
    AfterNext(s2, p, newOp, 0, Load(s2, p));
    AfterNothing(Load(s2, p), p, newOp);
  }

  lemma AfterNothing(s: State, p: Id, newOp: Id)
    ensures After(s, p, newOp, 0) == s
  {
  }

  // ----- what the loop leaves, by item -----

  /** The loop from its start, with the recorded results at hand. */
  ghost predicate AtStart(s: State, p: Id, r: Request, s1: State) {
    && s1.db == s.db && s1.results == s.results && p in s1.requests && s1.requests[p] == r
    && r.pc == Running && r.collected == []
  }

  /** The items of `taken` got the row and the answer of the state the loop started from. */
  ghost predicate AllTaken(db: Db, r: Request, taken: seq<Id>, answers: seq<ItemResult>, results: map<(Id, Id), ResultRow>) {
    && |answers| == |taken|
    && forall i :: 0 <= i < |taken| ==>
         if taken[i] in r.persisted then answers[i] == r.persisted[taken[i]]
         else
           && ReplyOf(WorkFor(db, r, taken[i])) == Some(answers[i])
           && (r.op, taken[i]) in results && RowOf(WorkFor(db, r, taken[i])) == Some(results[(r.op, taken[i])].result)
  }

  /** The loop took the first `n` items, and the next one stops it if there is one. */
  ghost predicate Took(s: State, p: Id, r: Request, s': State, n: nat) {
    var order := Canonical(r.caller);
    && n <= |order| && p in s'.requests
    && AllTaken(s.db, r, order[..n], s'.requests[p].collected, s'.results)
    && Recorded(s.results, s'.results, r.op, order[..n])
    && (if n == |order| then At(s', p, Done)
        else At(s', p, Dead) && Stops(s.db, r, order[n]) && Stops(s'.db, r, order[n]))
  }

  lemma LoopTook(s: State, p: Id, r: Request, s1: State, s': State)
    requires AtStart(s, p, r, s1) && Processed(s1, p, s')
    ensures p in s'.requests && Took(s, p, r, s', |s'.requests[p].collected|)
  {
    hide Process, Recorded;
    var order, n := Canonical(r.caller), |s'.requests[p].collected|;
    forall i | 0 <= i < n
      ensures Attempted(s1, r, order[i], s'.requests[p].collected[i], s'.results)
    {
    }
    assert order[0..n] == order[..n];
  }

  /** In a sorted order the items before the first bad one are those with no bad one up to them. */
  lemma BeforeFirst(order: seq<Id>, n: nat, bad: set<Id>, x: Id)
    requires StrictlySorted(order) && n <= |order| && x in order
    requires (forall i :: 0 <= i < n ==> order[i] !in bad) && (n < |order| ==> order[n] in bad)
    requires forall y :: y in bad ==> y in order
    ensures x in order[..n] <==> forall y :: y in bad ==> x < y
    ensures n == |order| <==> bad == {}
  {
    var i :| 0 <= i < |order| && order[i] == x;
    assert i < n ==> order[..n][i] == x;
    forall y | y in bad ensures n < |order| && order[n] <= y {
      var j :| 0 <= j < |order| && order[j] == y;
    }
  }

  // ----- the retry -----

  /** Item `x` of operation `op` has no result, its preview is still there, and the transaction service
      rejects the write although everything the executor checks is in order. */
  ghost predicate Rejected(s: State, op: Id, x: Id)
    requires op in s.ops
  {
    var preview := s.ops[op].preview;
    && (op, x) !in s.results && preview in s.live && preview in s.previews && x in s.previews[preview].items
    && RejectedItem(s.db, s.previews[preview].items[x], s.previews[preview].ruleSet)
  }

  ghost predicate RejectedItem(db: Db, item: Item, ruleSet: nat) {
    && item.status == PreviewMatched && item.proposal.Some? && item.txVersion.Some?
    && WriteRejected(db, db.categories, Expect(item, ruleSet))
  }

  ghost function RejectedItems(s: State, op: Id): set<Id>
    requires op in s.ops
  {
    set x | x in s.ops[op].items && Rejected(s, op, x)
  }

  ghost predicate Blocked(s: State, op: Id)
    requires op in s.ops
  {
    exists x :: x in s.ops[op].items && Rejected(s, op, x)
  }

  /** What processing item `x` comes to on the rows of `s`; a pruned preview leaves nothing to prove. */
  ghost function WorkOn(s: State, preview: Id, op: Id, x: Id): Work {
    if preview in s.live && preview in s.previews then
      Process(s.db, s.db.categories, op, s.previews[preview].ruleSet, x, Lookup(s.previews[preview].items, Some(x)))
    else
      Process(s.db, s.db.categories, op, 0, x, None)
  }

  lemma AbortExactly(db: Db, op: Id, ruleSet: nat, x: Id, item: Item)
    ensures Process(db, db.categories, op, ruleSet, x, Some(item)) == Abort <==> RejectedItem(db, item, ruleSet)
  {
    hide Decide, Execute, WriteRejected;
    if item.proposal.Some? && item.txVersion.Some? {
      RaisedExactly(db, db.categories, Expect(item, ruleSet));
    }
  }

  function RuleSetOf(s: State, preview: Id): Option<nat> {
    if preview in s.live && preview in s.previews then Some(s.previews[preview].ruleSet) else None
  }

  lemma WorkAtStart(s: State, preview: Id, caller: seq<Id>, key: string, op: Id, x: Id)
    requires x in caller && (preview in s.live && preview in s.previews ==> x in s.previews[preview].items)
    ensures var r := LoopStart(s, preview, caller, key, op, RuleSetOf(s, preview));
      && WorkFor(s.db, r, x) == WorkOn(s, preview, op, x)
      && (x in r.persisted <==> (op, x) in s.results)
  {
    hide Process;
  }

  lemma StopsAtStart(s: State, preview: Id, caller: seq<Id>, key: string, op: Id, x: Id)
    requires x in caller && (preview in s.live && preview in s.previews ==> x in s.previews[preview].items)
    ensures var r := LoopStart(s, preview, caller, key, op, RuleSetOf(s, preview));
      Stops(s.db, r, x) <==>
        && (op, x) !in s.results && preview in s.live && preview in s.previews
        && RejectedItem(s.db, s.previews[preview].items[x], s.previews[preview].ruleSet)
  {
    hide LoopStart, WorkFor, RejectedItem;
    WorkAtStart(s, preview, caller, key, op, x);
    if preview in s.live && preview in s.previews {
      AbortExactly(s.db, op, s.previews[preview].ruleSet, x, s.previews[preview].items[x]);
    }
  }

  ghost predicate OperationFits(s: State, op: Id) {
    && op in s.ops
    && var o := s.ops[op];
    && o.items != [] && StrictlySorted(o.items) && o.preview in s.previews
    && (forall x :: x in o.items ==> x in s.previews[o.preview].items)
    && (forall x :: (op, x) in s.results ==> x in o.items)
  }

  lemma OperationOf(s: State, op: Id)
    requires Inv(s) && op in s.ops
    ensures OperationFits(s, op) && OnlyKey(s.ops, s.ops[op].key, op)
  {
    InvTables(s);
    assert OpOk(s.ops[op], s.previews);
    forall x | (op, x) in s.results ensures x in s.ops[op].items {
      assert RowOk((op, x), s.results[(op, x)], s.ops, s.previews);
    }
  }

  /** The four statements before the loop of a request whose key is known. */
  lemma RetryEnters(s: State, p: Id, newOp: Id, caller: seq<Id>, op: Id)
    requires op in s.ops && OnlyKey(s.ops, s.ops[op].key, op) && p !in s.requests
    requires caller != [] && Distinct(caller) && Canonical(caller) == s.ops[op].items
    ensures var o := s.ops[op];
      After(Step(s, Spawn(p, o.preview, caller, o.key)), p, newOp, 4)
        == Put(s, p, LoopStart(s, o.preview, caller, o.key, op, RuleSetOf(s, o.preview)))
  {
    hide Step, After, LoopStart;
    var o := s.ops[op];
    var r0 := Spawned(o.preview, caller, o.key);
    var r1 := r0.(op := op, pc := Fetching);
    var r2 := r1.(pc := Reading, ruleSet := RuleSetOf(s, o.preview));
    StepSpawns(s, p, o.preview, caller, o.key);
    var s0, s1, s2 := Put(s, p, r0), Put(s, p, r1), Put(s, p, r2);
    StepFinds(s0, p);
    FindsKey(s0, p, op);
    PutTwice(s, p, r0, r1);
    AfterNext(s0, p, newOp, 3, s1);
    StepFetches(s1, p);
    PutTwice(s, p, r1, r2);
    assert Fetch(s1, p) == s2;
    AfterNext(s1, p, newOp, 2, s2);
    ReadsAndLoads(s, p, newOp, o.preview, caller, o.key, op, RuleSetOf(s, o.preview));
  }

  /** The loop of a request that has entered it after `n` statements, alone since `s0`. */
  lemma EntersLoop(s: State, s0: State, p: Id, newOp: Id, n: nat, s1: State) returns (s': State)
    requires Inv(s) && Leads(s, s0) && s1 == After(s0, p, newOp, n) && At(s1, p, Running)
    requires s1.requests[p].collected == []
    requires forall x :: (s1.requests[p].op, x) in s1.results ==> x in s1.requests[p].persisted
    ensures EndsIn(s0, p, newOp, s') && Leads(s, s') && Processed(s1, p, s') && Remains(s1, p, s')
  {
    hide Inv, Leads, Step, After, EndsIn, Processed, Remains;
    AfterLeads(s, s0, p, newOp, n);
    RunsKeep(s, s1);
    s' := LoopEnds(s1, p, newOp);
    AfterThen(s0, p, newOp, n, s');
    EndsLead(s, s0, p, newOp, s');
  }

  /** The state in which a retry of operation `op` starts. */
  ghost function Retried(s: State, p: Id, caller: seq<Id>, op: Id): State
    requires op in s.ops
  {
    Step(s, Spawn(p, s.ops[op].preview, caller, s.ops[op].key))
  }

  /** A retry of `op` that runs alone from `s` ends in `s'`: the operation is completed, or blocked. */
  ghost predicate CompletedUnlessBlocked(s: State, p: Id, op: Id, s': State)
    requires op in s.ops
  {
    && (At(s', p, Done) <==> !Blocked(s, op)) && (At(s', p, Dead) <==> Blocked(s, op))
    && op in s'.ops && s'.ops[op] == (if Blocked(s, op) then s.ops[op] else s.ops[op].(completed := true))
    && (Blocked(s, op) ==> Blocked(s', op))
  }

  /** The answers are the recorded results, or what the items came to. */
  ghost predicate AnsweredFrom(s: State, p: Id, caller: seq<Id>, op: Id, s': State)
    requires op in s.ops
  {
    && p in s'.requests && s'.requests == s.requests[p := s'.requests[p]] && s'.requests[p].op == op
    && s'.requests[p].caller == caller && s'.requests[p].key == s.ops[op].key
    && var items, answers := s.ops[op].items, s'.requests[p].collected;
    && |answers| <= |items| && (At(s', p, Done) ==> |answers| == |items|)
    && forall i :: 0 <= i < |answers| ==>
         if (op, items[i]) in s.results then answers[i] == s.results[(op, items[i])].result
         else ReplyOf(WorkOn(s, s.ops[op].preview, op, items[i])) == Some(answers[i])
  }

  /** The items before the first rejected one have a result: the recorded one, or the one they would have
      got alone. */
  ghost predicate RecordedUpToBlock(s: State, op: Id, s': State)
    requires op in s.ops
  {
    && ResultsGrow(s.results, s'.results)
    && (forall x :: x in s.ops[op].items ==>
          ((op, x) in s'.results <==> (op, x) in s.results || forall y :: y in RejectedItems(s, op) ==> x < y))
    && (forall x :: (op, x) in s'.results && (op, x) !in s.results ==>
          Some(s'.results[(op, x)].result) == RowOf(WorkOn(s, s.ops[op].preview, op, x)))
  }

  lemma StartFields(s: State, preview: Id, caller: seq<Id>, key: string, op: Id)
    ensures var r := LoopStart(s, preview, caller, key, op, RuleSetOf(s, preview));
      && r.pc == Running && r.collected == [] && r.op == op && r.caller == caller
      && r.preview == preview && r.key == key && r.ruleSet == RuleSetOf(s, preview)
      && (forall x :: x in r.persisted <==> x in caller && (op, x) in s.results)
      && (forall x :: x in r.persisted ==> r.persisted[x] == s.results[(op, x)].result)
  {
  }

  lemma TakenRows(s: State, r: Request, p: Id, s': State, n: nat, x: Id)
    requires Took(s, p, r, s', n) && x in Canonical(r.caller)[..n] && x !in r.persisted
    ensures (r.op, x) in s'.results && RowOf(WorkFor(s.db, r, x)) == Some(s'.results[(r.op, x)].result)
  {
    hide WorkFor;
    var i :| 0 <= i < n && Canonical(r.caller)[..n][i] == x;
  }

  lemma TakenNotStopped(s: State, r: Request, p: Id, s': State, n: nat, i: nat)
    requires Took(s, p, r, s', n) && i < n
    ensures !Stops(s.db, r, Canonical(r.caller)[i])
  {
    hide WorkFor;
    assert Canonical(r.caller)[..n][i] == Canonical(r.caller)[i];
  }

  /** The loop ran over the items of `op`, with what it needs to know of each. */
  ghost predicate LoopsOver(s: State, r: Request, op: Id) {
    && op in s.ops && r.op == op && Canonical(r.caller) == s.ops[op].items && StrictlySorted(s.ops[op].items)
    && s.ops[op].items != []
    && (forall x :: x in r.persisted ==> (op, x) in s.results && r.persisted[x] == s.results[(op, x)].result)
    && forall x :: x in s.ops[op].items ==>
         && (x in r.persisted <==> (op, x) in s.results)
         && (Stops(s.db, r, x) <==> Rejected(s, op, x))
         && WorkFor(s.db, r, x) == WorkOn(s, s.ops[op].preview, op, x)
  }

  lemma FirstRejected(s: State, p: Id, r: Request, op: Id, s': State, n: nat, x: Id)
    requires LoopsOver(s, r, op) && Took(s, p, r, s', n) && x in s.ops[op].items
    ensures x in s.ops[op].items[..n] <==> forall y :: y in RejectedItems(s, op) ==> x < y
    ensures n == |s.ops[op].items| <==> RejectedItems(s, op) == {}
  {
    hide WorkFor, WorkOn, Stops, Rejected, AllTaken, Recorded;
    var order, bad := s.ops[op].items, RejectedItems(s, op);
    forall i | 0 <= i < n ensures order[i] !in bad {
      TakenNotStopped(s, r, p, s', n, i);
      assert order[i] in order;
    }
    assert n < |order| ==> order[n] in order;
    BeforeFirst(order, n, bad, x);
  }

  lemma RetryEnds(s: State, p: Id, r: Request, op: Id, s': State, n: nat)
    requires LoopsOver(s, r, op) && Took(s, p, r, s', n)
    ensures (At(s', p, Done) <==> !Blocked(s, op)) && (At(s', p, Dead) <==> Blocked(s, op))
  {
    hide WorkFor, WorkOn, Stops, Rejected, AllTaken, Recorded, RejectedItems, Blocked;
    FirstRejected(s, p, r, op, s', n, s.ops[op].items[0]);
    BlockedBySet(s, op);
  }

  /** The outcome of the loop, by item. */
  lemma RetryRecords(s: State, p: Id, r: Request, op: Id, s': State, n: nat)
    requires LoopsOver(s, r, op) && Took(s, p, r, s', n)
    ensures RecordedUpToBlock(s, op, s')
  {
    hide WorkFor, WorkOn, Stops, Rejected, AllTaken, RejectedItems;
    var order := s.ops[op].items;
    forall x | x in order
      ensures (op, x) in s'.results <==> (op, x) in s.results || forall y :: y in RejectedItems(s, op) ==> x < y
    {
      FirstRejected(s, p, r, op, s', n, x);
      if x in order[..n] && x !in r.persisted {
        TakenRows(s, r, p, s', n, x);
      }
    }
    forall x | (op, x) in s'.results && (op, x) !in s.results
      ensures Some(s'.results[(op, x)].result) == RowOf(WorkOn(s, s.ops[op].preview, op, x))
    {
      assert x in order[..n] && x in order;
      TakenRows(s, r, p, s', n, x);
    }
  }

  lemma RetryAnswers(s: State, p: Id, r: Request, op: Id, s': State, n: nat)
    requires LoopsOver(s, r, op) && Took(s, p, r, s', n) && r.key == s.ops[op].key
    requires s'.requests == s.requests[p := r.(collected := s'.requests[p].collected, pc := s'.requests[p].pc)]
    ensures AnsweredFrom(s, p, r.caller, op, s')
  {
    hide WorkFor, WorkOn, Stops, Rejected, Recorded;
    var items, answers := s.ops[op].items, s'.requests[p].collected;
    forall i | 0 <= i < n
      ensures if (op, items[i]) in s.results then answers[i] == s.results[(op, items[i])].result
              else ReplyOf(WorkOn(s, s.ops[op].preview, op, items[i])) == Some(answers[i])
    {
      assert items[i] in items && items[..n][i] == items[i];
    }
  }

  /** The item that stopped the request stops the next one as well. */
  lemma StaysBlocked(s: State, p: Id, r: Request, op: Id, s': State, n: nat)
    requires LoopsOver(s, r, op) && Took(s, p, r, s', n) && op in s'.ops && s'.ops[op].preview == s.ops[op].preview
    requires s'.ops[op].items == s.ops[op].items && s'.previews == s.previews && s'.live == s.live
    requires r == LoopStart(s, s.ops[op].preview, r.caller, r.key, op, RuleSetOf(s, s.ops[op].preview))
    requires forall x :: x in s.ops[op].items ==> x in r.caller
    requires OperationFits(s, op)
    ensures n < |s.ops[op].items| ==> Blocked(s', op)
  {
    hide WorkOn, AllTaken, Process, RejectedItem;
    var items, preview := s.ops[op].items, s.ops[op].preview;
    if n < |items| {
      var x := items[n];
      assert x in items && Rejected(s, op, x) && x !in r.persisted;
      assert x !in items[..n];
      assert (op, x) !in s'.results;
      AbortExactly(s'.db, op, s.previews[preview].ruleSet, x, s.previews[preview].items[x]);
      assert Lookup(r.items, Some(x)) == Some(s.previews[preview].items[x]);
      assert Rejected(s', op, x);
    }
  }

  lemma BlockedBySet(s: State, op: Id)
    requires op in s.ops
    ensures Blocked(s, op) <==> RejectedItems(s, op) != {}
  {
    hide Rejected;
    if x :| x in RejectedItems(s, op) {
    }
    if Blocked(s, op) {
      var x :| x in s.ops[op].items && Rejected(s, op, x);
      assert x in RejectedItems(s, op);
    }
  }

  lemma RetryItems(s: State, caller: seq<Id>, op: Id)
    requires OperationFits(s, op) && Distinct(caller) && Canonical(caller) == s.ops[op].items
    ensures var o := s.ops[op];
      LoopsOver(s, LoopStart(s, o.preview, caller, o.key, op, RuleSetOf(s, o.preview)), op)
  {
    hide LoopStart, WorkFor, Stops, WorkOn, RejectedItem;
    var o := s.ops[op];
    CanonicalSorted(caller);
    var r := LoopStart(s, o.preview, caller, o.key, op, RuleSetOf(s, o.preview));
    StartFields(s, o.preview, caller, o.key, op);
    forall x | x in o.items
      ensures x in r.persisted <==> (op, x) in s.results
      ensures Stops(s.db, r, x) <==> Rejected(s, op, x)
      ensures WorkFor(s.db, r, x) == WorkOn(s, o.preview, op, x)
    {
      StopsAtStart(s, o.preview, caller, o.key, op, x);
      WorkAtStart(s, o.preview, caller, o.key, op, x);
    }
  }

  /** A request whose loop starts in `s1`, on the rows of `s`, alone since `s0`. */
  lemma LoopOutcome(s: State, p: Id, r: Request, op: Id, s1: State, s': State)
    requires OperationFits(s, op) && LoopsOver(s, r, op)
    requires r == LoopStart(s, s.ops[op].preview, r.caller, r.key, op, RuleSetOf(s, s.ops[op].preview))
    requires Distinct(r.caller)
    requires AtStart(s, p, r, s1) && Processed(s1, p, s') && Remains(s1, p, s')
    requires s1 == Put(s, p, r) && r.key == s.ops[op].key
    ensures CompletedUnlessBlocked(s, p, op, s') && RecordedUpToBlock(s, op, s') && AnsweredFrom(s, p, r.caller, op, s')
  {
    hide Processed, LoopsOver, LoopStart, Took, Blocked, OperationFits, RecordedUpToBlock, AnsweredFrom;
    LoopTook(s, p, r, s1, s');
    var n := |s'.requests[p].collected|;
    assert op in s.ops && r.op == op && Canonical(r.caller) == s.ops[op].items by { LoopNames(s, r, op); }
    RetryEnds(s, p, r, op, s', n);
    RetryRecords(s, p, r, op, s', n);
    SameRequestStill(s, p, r, s1, s');
    RetryAnswers(s, p, r, op, s', n);
    CanonicalSorted(r.caller);
    StaysBlocked(s, p, r, op, s', n);
    assert At(s', p, Dead) ==> n < |s.ops[op].items| by { TookEnds(s, p, r, s', n); }
  }

  lemma SameRequestStill(s: State, p: Id, r: Request, s1: State, s': State)
    requires s1 == Put(s, p, r) && r.pc == Running && Processed(s1, p, s') && Remains(s1, p, s')
    ensures p in s'.requests
    ensures s'.requests == s.requests[p := r.(collected := s'.requests[p].collected, pc := s'.requests[p].pc)]
  {
    hide Recorded, Attempted, Stops;
    assert s.requests[p := r][p := s'.requests[p]] == s.requests[p := s'.requests[p]];
  }

  lemma LoopNames(s: State, r: Request, op: Id)
    requires LoopsOver(s, r, op)
    ensures op in s.ops && r.op == op && Canonical(r.caller) == s.ops[op].items
  {
  }

  lemma TookEnds(s: State, p: Id, r: Request, s': State, n: nat)
    requires Took(s, p, r, s', n)
    ensures At(s', p, Dead) ==> n < |Canonical(r.caller)|
  {
  }

  /** From any reachable state, a retry of an operation that runs alone completes it exactly if no item
      without a result has its write rejected by the transaction service. Otherwise it ends at the first
      such item, and so does the next retry. Each item before that has a result, the recorded one or the
      one it would have got alone. A pruned preview can block nothing. */
  lemma CrashedOperationRecovers(s: State, p: Id, caller: seq<Id>, op: Id) returns (s': State)
    requires Reachable(s) && op in s.ops && p !in s.requests
    requires Distinct(caller) && Canonical(caller) == s.ops[op].items
    ensures EndsIn(Retried(s, p, caller, op), p, op, s') && Leads(s, s')
    ensures CompletedUnlessBlocked(s, p, op, s') && RecordedUpToBlock(s, op, s') && AnsweredFrom(s, p, caller, op, s')
    ensures At(s', p, Done) ==> forall item :: item in s.ops[op].items ==> (op, item) in s'.results
    ensures s.ops[op].preview !in s.live ==>
      && !Blocked(s, op) && s'.db == s.db && s'.audit == s.audit
      && forall item :: item in s.ops[op].items && (op, item) !in s.results ==>
           (op, item) in s'.results && s'.results[(op, item)].result == Plain(item, None, NotFound)
  {
    hide Inv, Leads, Step, Reachable, After, EndsIn, Processed, LoopStart, Rejected, Process, LoopsOver, AnsweredFrom,
      RecordedUpToBlock, CompletedUnlessBlocked;
    ReachableKeeps(s);
    OperationOf(s, op);
    CanonicalSorted(caller);
    assert caller != [];
    var o := s.ops[op];
    var r := LoopStart(s, o.preview, caller, o.key, op, RuleSetOf(s, o.preview));
    RetryEnters(s, p, op, caller, op);
    LeadsHere(s);
    LeadsOn(s, s, Spawn(p, o.preview, caller, o.key));
    StartFields(s, o.preview, caller, o.key, op);
    var s1 := Put(s, p, r);
    s' := EntersLoop(s, Retried(s, p, caller, op), p, op, 4, s1);
    RetryItems(s, caller, op);
    LoopOutcome(s, p, r, op, s1, s');
    PrunedBlocksNothing(s, op);
    Completes(s, p, op, s');
  }

  lemma Completes(s: State, p: Id, op: Id, s': State)
    requires op in s.ops && CompletedUnlessBlocked(s, p, op, s') && RecordedUpToBlock(s, op, s')
    ensures !Blocked(s, op) ==> forall item :: item in s.ops[op].items ==> (op, item) in s'.results
    ensures s.ops[op].preview !in s.live ==> forall item :: (op, item) in s'.results && (op, item) !in s.results ==>
      s'.results[(op, item)].result == Plain(item, None, NotFound)
    ensures At(s', p, Done) ==> !Blocked(s, op)
  {
    hide Rejected, Decide, Execute;
    BlockedBySet(s, op);
  }

  lemma PrunedBlocksNothing(s: State, op: Id)
    requires op in s.ops
    ensures s.ops[op].preview !in s.live ==> !Blocked(s, op)
  {
    hide RejectedItem;
  }
}
