/** Where two answers to one item can differ: the request that took an item first answers with the version of
    the preview even if it records none. */
module Replays {
  import opened Domain
  import opened Executor
  import opened Preview
  import opened Protocol
  import opened ProtocolInvariant
  import opened Alone
  import opened Recovery
  import opened BulkApply

  function TakenBy(results: map<(Id, Id), ResultRow>, results': map<(Id, Id), ResultRow>, p: Id): map<(Id, Id), Id> {
    map k | k in results' && k !in results :: p
  }

  /** Which request recorded which result by taking the item itself, rather than as a failure. */
  ghost function Takers(trace: seq<State>, actions: seq<Action>, n: nat): map<(Id, Id), Id>
    requires |trace| == |actions| + 1 && n <= |actions|
  {
    if n == 0 then map[]
    else if actions[n - 1].DoItem? then
      Takers(trace, actions, n - 1) + TakenBy(trace[n - 1].results, trace[n].results, actions[n - 1].p)
    else
      Takers(trace, actions, n - 1)
  }

  ghost function ItemOf(s: State, k: (Id, Id)): Option<Item> {
    if k.0 in s.ops && s.ops[k.0].preview in s.previews then Lookup(s.previews[s.ops[k.0].preview].items, Some(k.1))
    else None
  }

  /** The item was previewed as not applicable, and its result names the transaction. */
  predicate Inapplicable(row: ItemResult, item: Option<Item>) {
    item.Some? && Ineligible(item.value.status).Some? && row.tx.Some?
  }

  /** What the request that takes an item answers, next to the row it records. */
  function FirstAnswer(row: ItemResult, item: Option<Item>): ItemResult {
    if Inapplicable(row, item) then row.(expected := item.value.txVersion) else row
  }

  ghost function AnswerTo(s: State, takers: map<(Id, Id), Id>, q: Id, k: (Id, Id)): ItemResult
    requires k in s.results
  {
    var row := s.results[k].result;
    if k in takers && takers[k] == q then FirstAnswer(row, ItemOf(s, k)) else row
  }

  ghost predicate AnswersAs(s: State, takers: map<(Id, Id), Id>, q: Id, r: Request) {
    Claimed(r.pc) ==>
      && |r.collected| <= |Canonical(r.caller)|
      && forall j :: 0 <= j < |r.collected| ==>
           (r.op, Canonical(r.caller)[j]) in s.results
           && r.collected[j] == AnswerTo(s, takers, q, (r.op, Canonical(r.caller)[j]))
  }

  /** What a request has taken is among the items it has answered. */
  ghost predicate TookOwn(takers: map<(Id, Id), Id>, q: Id, r: Request) {
    forall k :: k in takers && takers[k] == q ==>
      && (Claimed(r.pc) || r.pc == Dead)
      && (Claimed(r.pc) ==> k.0 == r.op && |r.collected| <= |Canonical(r.caller)|
                            && k.1 in Canonical(r.caller)[..|r.collected|])
  }

  /** Takers are requests, and they record no version for an inapplicable item. */
  ghost predicate TakersOk(s: State, takers: map<(Id, Id), Id>) {
    forall k :: k in takers ==>
      k in s.results && takers[k] in s.requests
      && (Inapplicable(s.results[k].result, ItemOf(s, k)) ==> s.results[k].result.expected == None)
  }

  ghost predicate Answering(s: State, takers: map<(Id, Id), Id>) {
    && TakersOk(s, takers)
    && (forall q :: q in s.requests ==> AnswersAs(s, takers, q, s.requests[q]) && TookOwn(takers, q, s.requests[q]))
  }

  // ----- steps -----

  lemma SameItem(s: State, s': State, k: (Id, Id))
    requires Inv(s) && Grows(s, s') && k in s.results
    ensures ItemOf(s', k) == ItemOf(s, k) && k in s'.results && s'.results[k] == s.results[k]
  {
    assert RowOk(k, s.results[k], s.ops, s.previews);
  }

  lemma TakersStay(s: State, s': State, takers: map<(Id, Id), Id>)
    requires Inv(s) && Grows(s, s') && s.requests.Keys <= s'.requests.Keys && TakersOk(s, takers)
    ensures TakersOk(s', takers)
  {
    hide Inv, Grows, ItemOf;
    forall k | k in takers
      ensures k in s'.results && takers[k] in s'.requests
      ensures ItemOf(s', k) == ItemOf(s, k) && s'.results[k] == s.results[k]
    {
      SameItem(s, s', k);
      assert takers[k] in s.requests.Keys;
    }
  }

  lemma AnswersStay(s: State, s': State, takers: map<(Id, Id), Id>, q: Id, r: Request)
    requires Inv(s) && Grows(s, s') && AnswersAs(s, takers, q, r)
    ensures AnswersAs(s', takers, q, r)
  {
    hide Inv, Grows, ItemOf;
    if Claimed(r.pc) {
      forall j | 0 <= j < |r.collected|
        ensures var k := (r.op, Canonical(r.caller)[j]);
          k in s'.results && AnswerTo(s', takers, q, k) == AnswerTo(s, takers, q, k)
      {
        SameItem(s, s', (r.op, Canonical(r.caller)[j]));
      }
    }
  }

  /** A step that leaves the takers alone and moves no request but, possibly, `p`. */
  lemma QuietStep(s: State, s': State, takers: map<(Id, Id), Id>, p: Id)
    requires Inv(s) && Grows(s, s') && Answering(s, takers)
    requires s'.requests == s.requests || (p in s'.requests && s'.requests == s.requests[p := s'.requests[p]])
    requires p in s'.requests && (p !in s.requests || s'.requests[p] != s.requests[p]) ==>
      AnswersAs(s', takers, p, s'.requests[p]) && TookOwn(takers, p, s'.requests[p])
    ensures Answering(s', takers)
  {
    hide Inv, Grows, AnswersAs, TookOwn, TakersOk;
    TakersStay(s, s', takers);
    forall q | q in s'.requests ensures AnswersAs(s', takers, q, s'.requests[q]) && TookOwn(takers, q, s'.requests[q]) {
      if q in s.requests && s'.requests[q] == s.requests[q] {
        AnswersStay(s, s', takers, q, s.requests[q]);
      }
    }
  }

  /** A request that moves on without an answer. */
  ghost predicate MovesOn(r: Request, r': Request) {
    || r'.pc == Dead
    || (!Claimed(r.pc) && r.pc != Dead && r'.collected == [])
    || (Claimed(r.pc) && Claimed(r'.pc) && r'.op == r.op && r'.caller == r.caller && r'.collected == r.collected)
  }

  lemma MovedStep(s: State, s': State, takers: map<(Id, Id), Id>, p: Id)
    requires Inv(s) && Grows(s, s') && Answering(s, takers) && p in s.requests && p in s'.requests
    requires s'.requests == s.requests[p := s'.requests[p]] && MovesOn(s.requests[p], s'.requests[p])
    ensures Answering(s', takers)
  {
    hide Inv, Grows, TakersOk;
    var r, r' := s.requests[p], s'.requests[p];
    AnswersStay(s, s', takers, p, r);
    assert AnswersAs(s', takers, p, r') && TookOwn(takers, p, r') by {
      hide AnswerTo;
    }
    QuietStep(s, s', takers, p);
  }

  /** A request that answers its next item with the recorded row, which it did not take. */
  lemma RepliedStep(s: State, s': State, takers: map<(Id, Id), Id>, p: Id, id: Id)
    requires Inv(s) && Grows(s, s') && Inv(s') && Answering(s, takers) && p in s.requests && p in s'.requests
    requires s'.requests == s.requests[p := s'.requests[p]]
    requires var r, r' := s.requests[p], s'.requests[p];
      && Claimed(r.pc) && Claimed(r'.pc) && r'.op == r.op && r'.caller == r.caller
      && |r.collected| < |Canonical(r.caller)| && Canonical(r.caller)[|r.collected|] == id
      && (r.op, id) in s'.results && r'.collected == r.collected + [s'.results[(r.op, id)].result]
    ensures Answering(s', takers)
  {
    hide Inv, Grows, TakersOk;
    var r, r' := s.requests[p], s'.requests[p];
    assert Distinct(r.caller) by { RequestNames(s, p); }
    CanonicalSorted(r.caller);
    var order := Canonical(r.caller);
    assert id !in order[..|r.collected|];
    assert order[..|r'.collected|] == order[..|r.collected|] + [id];
    AnswersStay(s, s', takers, p, r);
    assert TookOwn(takers, p, r) && !((r.op, id) in takers && takers[(r.op, id)] == p);
    AnswersOne(s', takers, p, r, r', id);
    QuietStep(s, s', takers, p);
  }

  lemma AnswersOne(s: State, takers: map<(Id, Id), Id>, p: Id, r: Request, r': Request, id: Id)
    requires AnswersAs(s, takers, p, r) && Claimed(r.pc) && Claimed(r'.pc) && r'.op == r.op && r'.caller == r.caller
    requires |r.collected| < |Canonical(r.caller)| && Canonical(r.caller)[|r.collected|] == id && (r.op, id) in s.results
    requires r'.collected == r.collected + [AnswerTo(s, takers, p, (r.op, id))]
    ensures AnswersAs(s, takers, p, r')
  {
    hide AnswerTo;
  }

  lemma RequestNames(s: State, p: Id)
    requires Inv(s) && p in s.requests
    ensures Distinct(s.requests[p].caller)
    ensures !Claimed(s.requests[p].pc) && s.requests[p].pc != Dead ==> s.requests[p].collected == []
  {
    assert RequestOk(s.requests[p], s.ops, s.results, s.previews, s.live);
  }

  /** The commit of an item: the request takes it, and answers as the one that does. */
  ghost predicate TakesItem(s: State, p: Id, s': State)
    requires p in s.requests && HasNext(s.requests[p])
  {
    var r, id := s.requests[p], Next(s.requests[p]);
    && (r.op, id) !in s.results && (r.op, id) in s'.results
    && (forall k :: k in s'.results <==> k in s.results || k == (r.op, id))
    && p in s'.requests && s'.requests == s.requests[p := s'.requests[p]]
    && var row, r' := s'.results[(r.op, id)].result, s'.requests[p];
    && r'.pc == Running && r'.op == r.op && r'.caller == r.caller
    && r'.collected == r.collected + [FirstAnswer(row, ItemOf(s', (r.op, id)))]
    && (Inapplicable(row, ItemOf(s', (r.op, id))) ==> row.expected == None)
  }

  /** The takers of the others stay, for an item that had no result before. */
  lemma NewTaker(s: State, takers: map<(Id, Id), Id>, k: (Id, Id), p: Id, q: Id, r: Request)
    requires k !in s.results && AnswersAs(s, takers, q, r) && TookOwn(takers, q, r)
    ensures AnswersAs(s, takers[k := p], q, r)
    ensures q != p ==> TookOwn(takers[k := p], q, r)
  {
  }

  lemma TakerStep(s: State, s': State, takers: map<(Id, Id), Id>, p: Id)
    requires Inv(s) && Grows(s, s') && Answering(s, takers) && p in s.requests && HasNext(s.requests[p])
    requires TakesItem(s, p, s')
    ensures Answering(s', takers[(s.requests[p].op, Next(s.requests[p])) := p])
  {
    hide Inv, Grows, AnswersAs, TookOwn, TakersOk, AnswerTo, ItemOf, FirstAnswer;
    var r, id := s.requests[p], Next(s.requests[p]);
    var r', k := s'.requests[p], (r.op, id);
    var takers' := takers[k := p];
    TakersStay(s, s', takers);
    assert TakersOk(s', takers') by { TakersAdded(s', takers, k, p); }
    forall q | q in s'.requests ensures AnswersAs(s', takers', q, s'.requests[q]) && TookOwn(takers', q, s'.requests[q]) {
      NewTaker(s, takers, k, p, q, s.requests[q]);
      AnswersStay(s, s', takers', q, s.requests[q]);
      if q == p {
        assert AnswerTo(s', takers', p, k) == FirstAnswer(s'.results[k].result, ItemOf(s', k)) by { TakerAnswers(s', takers', p, k); }
        AnswersOne(s', takers', p, r, r', id);
        TookOneMore(takers, p, r, r', id);
      }
    }
  }

  lemma TakersAdded(s: State, takers: map<(Id, Id), Id>, k: (Id, Id), p: Id)
    requires TakersOk(s, takers) && k in s.results && p in s.requests
    requires Inapplicable(s.results[k].result, ItemOf(s, k)) ==> s.results[k].result.expected == None
    ensures TakersOk(s, takers[k := p])
  {
  }

  lemma TakerAnswers(s: State, takers: map<(Id, Id), Id>, p: Id, k: (Id, Id))
    requires k in s.results && k in takers && takers[k] == p
    ensures AnswerTo(s, takers, p, k) == FirstAnswer(s.results[k].result, ItemOf(s, k))
  {
  }

  lemma TookOneMore(takers: map<(Id, Id), Id>, p: Id, r: Request, r': Request, id: Id)
    requires TookOwn(takers, p, r) && Claimed(r.pc) && r'.pc == Running && r'.op == r.op && r'.caller == r.caller
    requires |r.collected| < |Canonical(r.caller)| && Canonical(r.caller)[|r.collected|] == id
    requires |r'.collected| == |r.collected| + 1
    ensures TookOwn(takers[(r.op, id) := p], p, r')
  {
    var order := Canonical(r.caller);
    assert order[..|r'.collected|] == order[..|r.collected|] + [id];
  }

  // ----- the actions -----

  lemma WorkAnswers(db: Db, seen: map<Id, Category>, op: Id, ruleSet: nat, id: Id, item: Option<Item>, own: Option<Item>)
    requires item.Some? ==> own == item
    ensures var work := Process(db, seen, op, ruleSet, id, item);
      work.Commit? ==>
        && work.reply == FirstAnswer(work.row, own)
        && (Inapplicable(work.row, own) ==> work.row.expected == None)
  {
    hide Decide, Execute;
  }

  /** What one pass of the item loop can be: a replayed result, an end or a conflict, or a commit. */
  lemma ItemCases(s: State, p: Id, seen: map<Id, Category>)
    requires Inv(s) && p in s.requests && HasNext(s.requests[p])
    ensures var s', r, id := RunItem(s, p, seen), s.requests[p], Next(s.requests[p]);
      || (id in r.persisted && (r.op, id) in s.results && r.persisted[id] == s.results[(r.op, id)].result
          && s' == Put(s, p, r.(collected := r.collected + [r.persisted[id]])))
      || (s'.results == s.results && p in s'.requests && s'.requests == s.requests[p := s'.requests[p]]
          && MovesOn(r, s'.requests[p]))
      || TakesItem(s, p, s')
  {
    hide Inv, Process, Vacant, FirstAnswer, Inapplicable;
    var s', r, id := RunItem(s, p, seen), s.requests[p], Next(s.requests[p]);
    NextFits(s, p);
    var item := if r.ruleSet == None then None else Lookup(r.items, Some(id));
    var ruleSet := if r.ruleSet == None then 0 else r.ruleSet.value;
    assert ItemOf(s, (r.op, id)) == Some(s.previews[r.preview].items[id]);
    WorkAnswers(s.db, seen, r.op, ruleSet, id, item, ItemOf(s, (r.op, id)));
    if id !in r.persisted && (r.op, id) !in s.results {
      assert ItemOf(s', (r.op, id)) == ItemOf(s, (r.op, id));
    }
  }

  /** The item loop, with `p` the taker of what it records. */
  lemma ItemStep(s: State, p: Id, seen: map<Id, Category>, takers: map<(Id, Id), Id>)
    requires Inv(s) && p in s.requests && HasNext(s.requests[p]) && Answering(s, takers)
    ensures var s' := RunItem(s, p, seen);
      Answering(s', takers + TakenBy(s.results, s'.results, p))
  {
    hide Inv, Grows, RunItem, Answering, MovesOn, FirstAnswer, Inapplicable;
    var s', r, id := RunItem(s, p, seen), s.requests[p], Next(s.requests[p]);
    var taken := TakenBy(s.results, s'.results, p);
    RunKeeps(s, p, seen);
    ItemCases(s, p, seen);
    if TakesItem(s, p, s') {
      TakerStep(s, s', takers, p);
      assert takers + taken == takers[(r.op, id) := p];
    } else {
      assert s'.results == s.results;
      assert takers + taken == takers;
      if s'.requests == s.requests[p := s'.requests[p]] && MovesOn(r, s'.requests[p]) {
        MovedStep(s, s', takers, p);
      } else {
        RepliedStep(s, s', takers, p, id);
      }
    }
  }

  lemma FailStep(s: State, p: Id, takers: map<(Id, Id), Id>)
    requires Inv(s) && p in s.requests && HasNext(s.requests[p]) && Answering(s, takers)
    ensures Answering(FailItem(s, p), takers)
  {
    hide Inv, Grows, Answering, Vacant;
    var r, s' := s.requests[p], FailItem(s, p);
    FailKeeps(s, p);
    if s' != s {
      if s'.requests[p].pc == Dead {
        MovedStep(s, s', takers, p);
      } else {
        RepliedStep(s, s', takers, p, Next(r));
      }
    }
  }

  lemma ReplayStep(s: State, p: Id, takers: map<(Id, Id), Id>)
    requires Inv(s) && At(s, p, Conflicted) && |s.requests[p].collected| < |Canonical(s.requests[p].caller)|
    requires Answering(s, takers)
    ensures Answering(Replay(s, p), takers)
  {
    hide Inv, Grows, Answering;
    var r, s' := s.requests[p], Replay(s, p);
    ReplayKeeps(s, p);
    RepliedStep(s, s', takers, p, Canonical(r.caller)[|r.collected|]);
  }

  /** The steps of a request that answer nothing. */
  lemma EnteringMoves(s: State, a: Action, p: Id)
    requires Inv(s) && Step(s, a) != s && (a == DoFind(p) || a == DoLock(p) || (a.DoClaim? && a.p == p))
    ensures var s' := Step(s, a);
      p in s.requests && p in s'.requests && s'.requests == s.requests[p := s'.requests[p]]
      && MovesOn(s.requests[p], s'.requests[p])
  {
    hide Inv, Find, Claim;
    RequestNames(s, p);
    if a.DoFind? {
      FindShape(s, p);
    } else if a.DoClaim? {
      ClaimShape(s, p, a.newOp);
    }
  }

  lemma LoopMoves(s: State, a: Action, p: Id)
    requires Step(s, a) != s && (a == DoFetch(p) || a == DoRead(p) || a == DoLoad(p) || a == DoComplete(p) || a == Crash(p))
    ensures var s' := Step(s, a);
      p in s.requests && p in s'.requests && s'.requests == s.requests[p := s'.requests[p]]
      && MovesOn(s.requests[p], s'.requests[p])
  {
    hide LoadItems;
  }

  lemma MovingStep(s: State, a: Action, takers: map<(Id, Id), Id>, p: Id)
    requires Inv(s) && Answering(s, takers)
    requires a == DoFind(p) || a == DoLock(p) || (a.DoClaim? && a.p == p) || a == DoFetch(p) || a == DoRead(p)
      || a == DoLoad(p) || a == DoComplete(p) || a == Crash(p)
    ensures Answering(Step(s, a), takers)
  {
    hide Inv, Grows, Answering, Step, MovesOn;
    StepKeeps(s, a);
    if Step(s, a) != s {
      if a == DoFind(p) || a == DoLock(p) || a.DoClaim? {
        EnteringMoves(s, a, p);
      } else {
        LoopMoves(s, a, p);
      }
      MovedStep(s, Step(s, a), takers, p);
    }
  }

  lemma SpawnStep(s: State, a: Action, takers: map<(Id, Id), Id>)
    requires Inv(s) && Answering(s, takers) && a.Spawn?
    ensures Answering(Step(s, a), takers)
  {
    hide Inv, Grows, TakersOk, AnswerTo;
    var s' := Step(s, a);
    StepKeeps(s, a);
    if s' != s {
      StepSpawns(s, a.p, a.preview, a.caller, a.key);
      NoTaker(s, takers, a.p, s'.requests[a.p]);
      QuietStep(s, s', takers, a.p);
    }
  }

  /** Every other step moves no request. */
  lemma OtherStep(s: State, a: Action, takers: map<(Id, Id), Id>)
    requires Inv(s) && Answering(s, takers)
    requires a.WriteTx? || a.RuleCommand? || a.SetCategory? || a.SetAccount? || a.SetClosed?
      || a.CreatePreview? || a.Tick? || a.Prune?
    ensures Answering(Step(s, a), takers)
  {
    hide Inv, Grows, Answering, Step;
    StepKeeps(s, a);
    MovesNoRequest(s, a);
    QuietStep(s, Step(s, a), takers, 0);
  }

  lemma NoTaker(s: State, takers: map<(Id, Id), Id>, p: Id, r: Request)
    requires TakersOk(s, takers) && p !in s.requests
    ensures TookOwn(takers, p, r)
  {
  }

  lemma AnsweringStep(s: State, a: Action, takers: map<(Id, Id), Id>)
    requires Inv(s) && Answering(s, takers)
    ensures var s' := Step(s, a);
      Answering(s', if a.DoItem? then takers + TakenBy(s.results, s'.results, a.p) else takers)
  {
    hide Inv, Answering, RunItem, FailItem, Replay;
    match a
    case DoItem(p, seen) =>
      if p in s.requests && HasNext(s.requests[p]) {
        ItemStep(s, p, seen, takers);
        StepRuns(s, p, seen);
      } else {
        Unmoved(s, a, takers);
      }
    case DoFail(p) =>
      if p in s.requests && HasNext(s.requests[p]) {
        FailStep(s, p, takers);
      }
    case DoReplay(p) =>
      if At(s, p, Conflicted) && |s.requests[p].collected| < |Canonical(s.requests[p].caller)| {
        ReplayStep(s, p, takers);
      }
    case DoFind(p) => MovingStep(s, a, takers, p);
    case DoLock(p) => MovingStep(s, a, takers, p);
    case DoClaim(p, _) => MovingStep(s, a, takers, p);
    case DoFetch(p) => MovingStep(s, a, takers, p);
    case DoRead(p) => MovingStep(s, a, takers, p);
    case DoLoad(p) => MovingStep(s, a, takers, p);
    case DoComplete(p) => MovingStep(s, a, takers, p);
    case Crash(p) => MovingStep(s, a, takers, p);
    case Spawn(_, _, _, _) => SpawnStep(s, a, takers);
    case _ => OtherStep(s, a, takers);
  }

  lemma Unmoved(s: State, a: Action, takers: map<(Id, Id), Id>)
    requires a.DoItem? && !(a.p in s.requests && HasNext(s.requests[a.p]))
    ensures Step(s, a) == s && takers + TakenBy(s.results, s.results, a.p) == takers
  {
    hide RunItem;
  }

  lemma {:induction false} RunAnswers(trace: seq<State>, actions: seq<Action>, n: nat)
    requires IsRun(trace, actions) && Initial(trace[0]) && n <= |actions|
    ensures Inv(trace[n]) && Answering(trace[n], Takers(trace, actions, n))
  {
    hide Step, Answering, Inv, Grows;
    if n == 0 {
      NothingTaken(trace[0]);
    } else {
      RunAnswers(trace, actions, n - 1);
      AnsweringStep(trace[n - 1], actions[n - 1], Takers(trace, actions, n - 1));
      StepKeeps(trace[n - 1], actions[n - 1]);
    }
  }

  lemma NothingTaken(s: State)
    requires Initial(s)
    ensures Inv(s) && Answering(s, map[])
  {
  }

  // ----- what differs, and when -----

  /** At step `i` of the run, request `q` takes the item of `k` and records its result. */
  ghost predicate TakesAt(trace: seq<State>, actions: seq<Action>, i: nat, q: Id, k: (Id, Id))
    requires |trace| == |actions| + 1
  {
    && i < |actions| && actions[i].DoItem? && actions[i].p == q
    && k !in trace[i].results && k in trace[i + 1].results
  }

  ghost predicate Took(trace: seq<State>, actions: seq<Action>, q: Id, k: (Id, Id))
    requires |trace| == |actions| + 1
  {
    exists i: nat :: i < |actions| && TakesAt(trace, actions, i, q, k)
  }

  lemma {:induction false} TakersMean(trace: seq<State>, actions: seq<Action>, n: nat, q: Id, k: (Id, Id))
    requires IsRun(trace, actions) && Initial(trace[0]) && n <= |actions|
    ensures k in Takers(trace, actions, n) && Takers(trace, actions, n)[k] == q
      <==> exists i: nat :: i < n && TakesAt(trace, actions, i, q, k)
  {
    hide Step, Inv, Grows, Answering;
    if n > 0 {
      TakersMean(trace, actions, n - 1, q, k);
      var before := Takers(trace, actions, n - 1);
      RunAnswers(trace, actions, n - 1);
      TakenRecorded(trace[n - 1], before);
      assert TakesAt(trace, actions, n - 1, q, k) <==>
        actions[n - 1].DoItem? && actions[n - 1].p == q && k !in trace[n - 1].results && k in trace[n].results;
    }
  }

  lemma TakenRecorded(s: State, takers: map<(Id, Id), Id>)
    requires Answering(s, takers)
    ensures forall k :: k in takers ==> k in s.results
  {
  }

  /** Over every run: the answer of a finished request is the recorded result, except that the one request
      which took an inapplicable item itself answers with the version of the preview. */
  lemma AnswersExactly(trace: seq<State>, actions: seq<Action>, q: Id, j: nat)
    requires IsRun(trace, actions) && Initial(trace[0])
    requires At(trace[|actions|], q, Done) && j < |trace[|actions|].requests[q].collected|
    ensures var s := trace[|actions|];
      var r := s.requests[q];
      && |r.collected| == |Canonical(r.caller)|
      && var k := (r.op, Canonical(r.caller)[j]);
      && k in s.results
      && r.collected[j] == if Took(trace, actions, q, k) then FirstAnswer(s.results[k].result, ItemOf(s, k))
                           else s.results[k].result
  {
    hide Step, Inv, Answering, Takers, TakesAt, FirstAnswer, ItemOf;
    var n := |actions|;
    var s, r := trace[n], trace[n].requests[q];
    RunAnswers(trace, actions, n);
    AnsweredAll(s, q, Takers(trace, actions, n), j);
    TakersMean(trace, actions, n, q, (r.op, Canonical(r.caller)[j]));
  }

  lemma AnsweredAll(s: State, q: Id, takers: map<(Id, Id), Id>, j: nat)
    requires Inv(s) && At(s, q, Done) && Answering(s, takers) && j < |s.requests[q].collected|
    ensures var r := s.requests[q];
      && |r.collected| == |Canonical(r.caller)|
      && var k := (r.op, Canonical(r.caller)[j]);
      && k in s.results
      && r.collected[j] == (if k in takers && takers[k] == q then FirstAnswer(s.results[k].result, ItemOf(s, k))
                            else s.results[k].result)
      && (k in takers && Inapplicable(s.results[k].result, ItemOf(s, k)) ==> s.results[k].result.expected == None)
  {
    hide TablesOk;
    assert RequestOk(s.requests[q], s.ops, s.results, s.previews, s.live);
    assert AnswersAs(s, takers, q, s.requests[q]);
  }

  /** Two finished requests of one key answer an item differently exactly if it was previewed as not
      applicable with a version, and one of the two took it. They differ in that version only. */
  lemma AnswersDiffer(trace: seq<State>, actions: seq<Action>, p: Id, q: Id, i: nat, j: nat)
    requires IsRun(trace, actions) && Initial(trace[0])
    requires p != q && At(trace[|actions|], p, Done) && At(trace[|actions|], q, Done)
    requires trace[|actions|].requests[p].key == trace[|actions|].requests[q].key
    requires i < |trace[|actions|].requests[p].collected| && j < |trace[|actions|].requests[q].collected|
    requires trace[|actions|].requests[p].collected[i].item == trace[|actions|].requests[q].collected[j].item
    ensures var s := trace[|actions|];
      var a, b, k := s.requests[p].collected[i], s.requests[q].collected[j],
                     (s.requests[p].op, s.requests[p].collected[i].item);
      && a == b.(expected := a.expected)
      && k in s.results
      && (a != b <==>
            && (Took(trace, actions, p, k) || Took(trace, actions, q, k))
            && Inapplicable(s.results[k].result, ItemOf(s, k)) && ItemOf(s, k).value.txVersion.Some?)
  {
    hide Step, Inv, Answering, Takers, TakesAt, ItemOf, Inapplicable;
    var n := |actions|;
    var s := trace[n];
    var takers := Takers(trace, actions, n);
    RunAnswers(trace, actions, n);
    AnsweredAll(s, p, takers, i);
    AnsweredAll(s, q, takers, j);
    SameKey(s, p, q, i, j);
    var k := (s.requests[p].op, s.requests[p].collected[i].item);
    TakersMean(trace, actions, n, p, k);
    TakersMean(trace, actions, n, q, k);
  }

  /** Finished requests of one key belong to one operation, and answer each item under its own id. */
  lemma SameKey(s: State, p: Id, q: Id, i: nat, j: nat)
    requires Inv(s) && At(s, p, Done) && At(s, q, Done) && s.requests[p].key == s.requests[q].key
    requires i < |s.requests[p].collected| && j < |s.requests[q].collected|
    ensures s.requests[p].op == s.requests[q].op
    ensures s.requests[p].collected[i].item == Canonical(s.requests[p].caller)[i]
    ensures s.requests[q].collected[j].item == Canonical(s.requests[q].caller)[j]
  {
    hide Inv;
    InvTables(s);
    RecordOf(s, p);
    RecordOf(s, q);
    OwnItem(s, p, i);
    OwnItem(s, q, j);
  }

  lemma RecordOf(s: State, q: Id)
    requires Inv(s) && At(s, q, Done)
    ensures var r := s.requests[q];
      r.op in s.ops && s.ops[r.op].key == r.key && |r.collected| == |Canonical(r.caller)|
  {
    assert RequestOk(s.requests[q], s.ops, s.results, s.previews, s.live);
  }

  lemma OwnItem(s: State, q: Id, j: nat)
    requires Inv(s) && At(s, q, Done) && j < |s.requests[q].collected|
    ensures |s.requests[q].collected| == |Canonical(s.requests[q].caller)|
    ensures s.requests[q].collected[j].item == Canonical(s.requests[q].caller)[j]
  {
    var r := s.requests[q];
    assert RequestOk(r, s.ops, s.results, s.previews, s.live);
    var k := (r.op, Canonical(r.caller)[j]);
    assert RowOk(k, s.results[k], s.ops, s.previews);
  }

  // ----- a run with two answers -----

  lemma SampleCategorized()
    ensures MakeItem(SampleDb(false, Some(1)), 0) == Item(0, Some(1), PreviewCategorized, None)
  {
  }

  lemma SampleWork()
    ensures var s := WithOperation(SampleStart(SampleDb(false, Some(1))), 1, [5], "k", 9);
      && !Blocked(s, 9) && s.ops[9].items == [5] && (9, 5) !in s.results
      && var work := WorkOn(s, 1, 9, 5);
      work.Commit? && work.row.expected == None && work.reply.expected == Some(1) && work.reply.item == 5
  {
    hide MakeItem, BuildPreview;
    SampleReachable(SampleDb(false, Some(1)));
    SampleCategorized();
    SampleOrder();
  }

  lemma AllRecorded(s: State, op: Id)
    requires op in s.ops && forall x :: x in s.ops[op].items ==> (op, x) in s.results
    ensures !Blocked(s, op)
  {
  }

  /** An item previewed as already categorized: the first request answers with the version of the
      transaction, its retry without. */
  lemma ReplayCanDiffer() returns (s: State)
    ensures Reachable(s) && At(s, 1, Done) && At(s, 2, Done) && s.requests[1].key == s.requests[2].key
    ensures |s.requests[1].collected| == 1 && |s.requests[2].collected| == 1
    ensures s.requests[1].collected[0].expected == Some(1) && s.requests[2].collected[0].expected == None
  {
    hide Step, Leads, Reachable, EndsIn, MakeItem, Submittable, SampleStart, Rejected, WorkOn, Blocked;
    var s0 := SampleStart(SampleDb(false, Some(1)));
    SampleReachable(SampleDb(false, Some(1)));
    SampleWork();
    var s1 := NewRequestEnds(s0, 1, 1, [5], "k", 9);
    assert RejectedItems(WithOperation(s0, 1, [5], "k", 9), 9) == {} by {
      BlockedBySet(WithOperation(s0, 1, [5], "k", 9), 9);
    }
    assert (9, 5) in s1.results;
    AllRecorded(s1, 9);
    ReachesOn(s0, s1);
    assert s1.requests.Keys == {1} by { SampleAlone(); }
    s := CrashedOperationRecovers(s1, 2, [5], 9);
    ReachesOn(s1, s);
  }

  lemma SampleAlone()
    ensures SampleStart(SampleDb(false, Some(1))).requests == map[]
  {
    hide BuildPreview;
  }
}
