/** The bulk apply as one request runs it, beside the protocol machine: every commit of the code is a step of
    the machine, so what is proved about runs of the machine holds of the code. */
module ApplyService {
  import opened Domain
  import opened RuleSet
  import opened Executor
  import opened Store
  import opened Preview
  import opened Protocol
  import opened ProtocolInvariant
  import opened Alone

  datatype Insert = Inserted | UniqueViolation

  /** What processing one item ends in. */
  datatype ItemOutcome = Answered(reply: ItemResult) | Violated | ErrorRaised

  datatype ApplyReply =
    | Completed(operation: Id, results: seq<ItemResult>)
    | KeyConflict
    | PreviewUnavailable
    | ItemNotFound
    | RequestFailed

  /** The request `p` of the machine is about to take item `id`, which had no result when it read them. */
  ghost predicate OnItem(m: State, p: Id, op: Id, sequence: nat, id: Id, items: map<Id, Item>) {
    && p in m.requests && HasNext(m.requests[p])
    && var r := m.requests[p];
    && r.op == op && r.items == items && |r.collected| == sequence && Next(r) == id && id !in r.persisted
  }

  function AfterItem(r: Request, out: ItemOutcome): Request {
    match out
    case Answered(reply) => r.(collected := r.collected + [reply])
    case Violated => r.(pc := if r.ruleSet == None then Dead else Conflicted)
    case ErrorRaised => r.(pc := Dead)
  }

  /** After a rollback: the answer found or recorded, with the items loaded again, or the end. */
  function AfterOther(r: Request, answer: Option<ItemResult>, items: map<Id, Item>): Request {
    if answer == None then r.(pc := Dead)
    else r.(collected := r.collected + [answer.value], items := items, pc := Running)
  }

  predicate Open(previews: map<Id, PreviewRow>, live: set<Id>, clock: Instant, preview: Id) {
    preview in live && preview in previews && clock < previews[preview].expiresAt
  }

  ghost predicate Conflicting(ops: map<Id, Operation>, preview: Id, caller: seq<Id>, key: string) {
    exists o :: HasKey(ops, key, o) && (ops[o].preview != preview || ops[o].items != Canonical(caller))
  }

  /** A known key only goes on for the same logical request; a new one needs an open preview that holds every
      submitted item. */
  ghost function ClaimRefusal(ops: map<Id, Operation>, previews: map<Id, PreviewRow>, live: set<Id>, clock: Instant,
                              preview: Id, caller: seq<Id>, key: string): Option<ApplyReply> {
    if Conflicting(ops, preview, caller, key) then Some(KeyConflict)
    else if exists o :: HasKey(ops, key, o) then None
    else if !Open(previews, live, clock, preview) then Some(PreviewUnavailable)
    else if exists x :: x in caller && x !in previews[preview].items then Some(ItemNotFound)
    else None
  }

  /** The operation asks for the same preview and the same set of items, in whatever order. */
  predicate SameAsked(o: Operation, preview: Id, caller: seq<Id>) {
    o.preview == preview && (forall x :: x in o.items ==> x in caller) && (forall x :: x in caller ==> x in o.items)
  }

  /** What each refusal of a request says: its key stands for another set of items; or, the key being new, its
      preview is gone or its time is up, or it names an item the preview does not have. */
  ghost predicate RefusalSays(refused: Option<ApplyReply>, ops: map<Id, Operation>, previews: map<Id, PreviewRow>,
                              live: set<Id>, clock: Instant, preview: Id, caller: seq<Id>, key: string) {
    var known := exists o :: HasKey(ops, key, o);
    var available := preview in live && preview in previews && clock < previews[preview].expiresAt;
    && (refused == Some(KeyConflict) <==> exists o :: HasKey(ops, key, o) && !SameAsked(ops[o], preview, caller))
    && (refused == Some(PreviewUnavailable) <==> !known && !available)
    && (refused == Some(ItemNotFound) <==> !known && available && exists x :: x in caller && x !in previews[preview].items)
    && (refused.None? || refused.value in {KeyConflict, PreviewUnavailable, ItemNotFound})
  }

  lemma RefusalMeans(ops: map<Id, Operation>, previews: map<Id, PreviewRow>, live: set<Id>, clock: Instant,
                     preview: Id, caller: seq<Id>, key: string)
    requires OpsOk(ops, previews) && Distinct(caller)
    ensures RefusalSays(ClaimRefusal(ops, previews, live, clock, preview, caller, key),
                        ops, previews, live, clock, preview, caller, key)
  {
    hide StrictlySorted, Canonical;
    forall o | o in ops ensures ops[o].preview == preview && ops[o].items == Canonical(caller) <==> SameAsked(ops[o], preview, caller) {
      CanonicalSorted(caller);
      assert OpOk(ops[o], previews);
      if SameAsked(ops[o], preview, caller) {
        SortedUnique(ops[o].items, Canonical(caller));
      }
    }
  }

  class Service {
    const w: Workspace
    const window: nat
    var clock: Instant
    var previews: map<Id, PreviewRow>
    var live: set<Id>
    var ops: map<Id, Operation>
    var results: map<(Id, Id), ResultRow>

    /** The protocol machine, kept in step with the tables. */
    ghost var machine: State

    ghost predicate InStep()
      reads this, w
    {
      && machine.db == w.Snapshot() && machine.previews == previews && machine.live == live
      && machine.ops == ops && machine.results == results && machine.clock == clock && machine.window == window
    }

    constructor (s: State)
      ensures InStep() && machine == s && fresh(w)
    {
      w := new Workspace(s.db);
      window, clock, previews, live, ops, results := s.window, s.clock, s.previews, s.live, s.ops, s.results;
      machine := s;
    }

    /** `_persist` and the commit: both unique constraints of the result table. */
    method Persist(op: Id, id: Id, sequence: nat, row: ItemResult) returns (r: Insert)
      modifies `results
      ensures r == if Vacant(old(results), op, id, sequence) then Inserted else UniqueViolation
      ensures results == if r == Inserted then old(results)[(op, id) := ResultRow(sequence, row)] else old(results)
    {
      if (op, id) in results || exists k | k in results :: k.0 == op && results[k].sequence == sequence {
        return UniqueViolation;
      }
      results := results[(op, id) := ResultRow(sequence, row)];
      return Inserted;
    }

    /** `_process_item`: mutation and terminal result land in one commit; an error or a violation rolls both
        back. */
    method ProcessItem(op: Id, sequence: nat, item: Option<Item>, id: Id, ruleSet: nat) returns (out: ItemOutcome)
      modifies `results, w`txs
      ensures var work := Process(old(w.Snapshot()), w.categories, op, ruleSet, id, item);
        && (work == Abort ==> out == ErrorRaised)
        && (work != Abort && !Vacant(old(results), op, id, sequence) ==> out == Violated)
        && (work != Abort && Vacant(old(results), op, id, sequence) ==>
              && out == Answered(work.reply) && w.Snapshot() == work.db
              && results == old(results)[(op, id) := ResultRow(sequence, work.row)])
        && (!out.Answered? ==> w.Snapshot() == old(w.Snapshot()) && results == old(results))
    {
      hide Decide, Execute, Vacant;
      if item == None {
        var plain := Plain(id, None, NotFound);
        var stored := Persist(op, id, sequence, plain);
        return if stored == Inserted then Answered(plain) else Violated;
      }
      var it := item.value;
      var ineligible := Ineligible(it.status);
      if ineligible.Some? {
        var plain := Plain(id, Some(it.tx), ineligible.value);
        var stored := Persist(op, id, sequence, plain);
        return if stored == Inserted then Answered(plain.(expected := it.txVersion)) else Violated;
      }
      if it.proposal == None || it.txVersion == None {
        var plain := Plain(id, Some(it.tx), NoMatch);
        var stored := Persist(op, id, sequence, plain);
        return if stored == Inserted then Answered(plain) else Violated;
      }
      var before := w.txs;
      var outcome := w.ExecuteApply(Expect(it, ruleSet));
      if outcome.Raised? {
        w.txs := before;
        return ErrorRaised;
      }
      var row := ItemResult(id, Some(it.tx), outcome.status, ErrorCode(outcome.status), it.txVersion, outcome.current);
      var stored := Persist(op, id, sequence, row);
      if stored == UniqueViolation {
        w.txs := before;
        return Violated;
      }
      return Answered(row);
    }

    /** One pass of the loop over an item without a recorded result. */
    method TakeItem(ghost p: Id, op: Id, sequence: nat, id: Id, ruleSet: Option<nat>, items: map<Id, Item>)
        returns (out: ItemOutcome)
      requires InStep() && OnItem(machine, p, op, sequence, id, items) && machine.requests[p].ruleSet == ruleSet
      modifies this`results, this`machine, w`txs
      ensures InStep() && machine == RunItem(old(machine), p, old(w.categories))
      ensures machine.requests == old(machine).requests[p := AfterItem(old(machine).requests[p], out)]
    {
      hide Process, Vacant;
      ghost var before, seen := machine, w.categories;
      var item := if ruleSet == None then None else Lookup(items, Some(id));
      var revision := if ruleSet == None then 0 else ruleSet.value;
      out := ProcessItem(op, sequence, item, id, revision);
      machine := RunItem(before, p, seen);
    }

    /** After a unique violation: the committed result of the other request is read and the items are
        loaded again. */
    method Reread(ghost p: Id, preview: Id, op: Id, sequence: nat, id: Id, caller: seq<Id>)
        returns (found: Option<ItemResult>, items: map<Id, Item>)
      requires InStep() && At(machine, p, Conflicted)
      requires var r := machine.requests[p];
        && r.op == op && r.preview == preview && r.caller == caller && |r.collected| == sequence < |Canonical(caller)|
        && Canonical(caller)[sequence] == id
      modifies this`machine
      ensures InStep() && machine == Replay(old(machine), p)
      ensures machine.requests == old(machine).requests[p := AfterOther(old(machine).requests[p], found, items)]
    {
      items := ItemsOf(preview, caller);
      found := if (op, id) in results then Some(results[(op, id)].result) else None;
      ghost var before := machine;
      assert items == LoadItems(before, before.requests[p]);
      machine := Replay(before, p);
    }

    /** `load_items`, restricted to the submitted items of a preview that still exists. */
    method ItemsOf(preview: Id, caller: seq<Id>) returns (items: map<Id, Item>)
      ensures items == if preview in live && preview in previews
                       then map x | x in previews[preview].items && x in caller :: previews[preview].items[x] else map[]
    {
      if preview in live && preview in previews {
        var stored := previews[preview].items;
        return map x | x in stored && x in caller :: stored[x];
      }
      return map[];
    }

    /** `_record_failure` in a fresh transaction; without it the item stays unattempted. */
    method RecordFailure(ghost p: Id, preview: Id, op: Id, sequence: nat, id: Id, caller: seq<Id>, items: map<Id, Item>)
        returns (failure: Option<ItemResult>, reloaded: map<Id, Item>)
      requires InStep() && OnItem(machine, p, op, sequence, id, items) && machine.requests[p].ruleSet.Some?
      requires machine.requests[p].preview == preview && machine.requests[p].caller == caller
      modifies this`results, this`machine
      ensures InStep() && machine == FailItem(old(machine), p)
      ensures machine.requests == old(machine).requests[p := AfterOther(old(machine).requests[p], failure, reloaded)]
    {
      hide Vacant;
      ghost var before := machine;
      var item := if id in items then Some(items[id].tx) else None;
      var failed := Plain(id, item, Failed);
      var stored := Persist(op, id, sequence, failed);
      reloaded := ItemsOf(preview, caller);
      assert reloaded == LoadItems(before, before.requests[p]);
      failure := if stored == Inserted then Some(failed) else None;
      machine := FailItem(before, p);
    }

    method FindOperation(key: string) returns (found: Option<Id>)
      ensures found == None <==> forall op :: !HasKey(ops, key, op)
      ensures found.Some? ==> HasKey(ops, key, found.value)
    {
      if op :| op in ops && ops[op].key == key {
        assert HasKey(ops, key, op);
        return Some(op);
      }
      return None;
    }

    /** A known key: the same logical request goes on, without a lock and without the expiry check. */
    method ResumeKnown(ghost s: State, ghost p: Id, preview: Id, caller: seq<Id>, key: string, op: Id)
        returns (refused: Option<ApplyReply>, ruleSet: Option<nat>)
      requires InStep() && Leads(s, machine) && OnlyKey(ops, key, op)
      requires p in machine.requests && machine.requests[p] == Spawned(preview, caller, key)
      modifies this`machine
      ensures InStep() && Leads(s, machine) && Started(machine, p, refused, preview, caller, key, op, ruleSet)
      ensures refused == ClaimRefusal(ops, previews, live, clock, preview, caller, key)
    {
      hide Step, Leads;
      ghost var finding := machine;
      LeadsOn(s, finding, DoFind(p));
      StepFinds(finding, p);
      FindsKey(finding, p, op);
      machine := Find(finding, p);
      if ops[op].preview != preview || ops[op].items != Canonical(caller) {
        return Some(KeyConflict), None;
      }
      ghost var fetching := machine;
      LeadsOn(s, fetching, DoFetch(p));
      StepFetches(fetching, p);
      machine := Fetch(fetching, p);
      return None, if preview in live && preview in previews then Some(previews[preview].ruleSet) else None;
    }

    /** `get_preview(for_share=True)`: the preview is locked, or missing or expired. */
    method LockPreview(ghost s: State, ghost p: Id, preview: Id, caller: seq<Id>, key: string) returns (available: bool)
      requires InStep() && Leads(s, machine) && forall o :: !HasKey(ops, key, o)
      requires p in machine.requests && machine.requests[p] == Spawned(preview, caller, key)
      modifies this`machine
      ensures InStep() && Leads(s, machine) && p in machine.requests
      ensures machine.requests[p] == Spawned(preview, caller, key).(pc := if available then Claiming else Dead)
      ensures available <==> Open(previews, live, clock, preview)
    {
      hide Step, Leads;
      ghost var finding := machine;
      LeadsOn(s, finding, DoFind(p));
      StepFinds(finding, p);
      FindsNothing(finding, p);
      machine := Find(finding, p);
      ghost var locking := machine;
      LeadsOn(s, locking, DoLock(p));
      StepLocks(locking, p);
      machine := Lock(locking, p);
      return Open(previews, live, clock, preview);
    }

    /** A new key: under the preview lock the items are checked and the operation inserted. */
    method ClaimNew(ghost s: State, ghost p: Id, preview: Id, caller: seq<Id>, key: string, newOp: Id)
        returns (refused: Option<ApplyReply>, ruleSet: Option<nat>)
      requires InStep() && Leads(s, machine) && newOp !in ops && forall o :: !HasKey(ops, key, o)
      requires p in machine.requests && machine.requests[p] == Spawned(preview, caller, key)
      modifies this`ops, this`machine
      ensures InStep() && Leads(s, machine) && Started(machine, p, refused, preview, caller, key, newOp, ruleSet)
      ensures refused == ClaimRefusal(old(ops), previews, live, clock, preview, caller, key)
    {
      hide Step, Leads, Claim;
      var available := LockPreview(s, p, preview, caller, key);
      if !available {
        return Some(PreviewUnavailable), None;
      }
      ghost var claiming := machine;
      LeadsOn(s, claiming, DoClaim(p, newOp));
      StepClaims(claiming, p, newOp);
      ClaimsNew(claiming, p, newOp);
      machine := Claim(claiming, p, newOp);
      if exists x | x in caller :: x !in previews[preview].items {
        return Some(ItemNotFound), None;
      }
      ops := ops[newOp := Operation(key, preview, Canonical(caller), false)];
      return None, Some(previews[preview].ruleSet);
    }

    /** From the submitted request to its operation. */
    method Begin(ghost p: Id, preview: Id, caller: seq<Id>, key: string, newOp: Id)
        returns (refused: Option<ApplyReply>, op: Id, ruleSet: Option<nat>)
      requires InStep() && Inv(machine) && p !in machine.requests && newOp !in ops && caller != [] && Distinct(caller)
      modifies this`ops, this`machine
      ensures InStep() && Leads(old(machine), machine)
      ensures Started(machine, p, refused, preview, caller, key, op, ruleSet)
      ensures refused == ClaimRefusal(old(ops), previews, live, clock, preview, caller, key)
      ensures RefusalSays(refused, old(ops), previews, live, clock, preview, caller, key)
    {
      hide Step, Inv, Leads, RefusalSays, ClaimRefusal;
      ghost var s := machine;
      InvTables(s);
      RefusalMeans(ops, previews, live, clock, preview, caller, key);
      var found := FindOperation(key);
      LeadsHere(s);
      LeadsOn(s, s, Spawn(p, preview, caller, key));
      StepSpawns(s, p, preview, caller, key);
      machine := Put(s, p, Spawned(preview, caller, key));
      if found.Some? {
        op := found.value;
        KeyNames(s, key, op);
        refused, ruleSet := ResumeKnown(s, p, preview, caller, key, op);
      } else {
        op := newOp;
        refused, ruleSet := ClaimNew(s, p, preview, caller, key, newOp);
      }
    }

    /** One pass of the item loop. `faulty` says that processing ends in an unexpected error. */
    method TakeNext(ghost s: State, ghost p: Id, r: LoopState, sequence: nat, id: Id, faulty: bool)
        returns (answer: Option<ItemResult>, items: map<Id, Item>)
      requires InStep() && Leads(s, machine) && InLoop(machine, p, r, sequence)
      requires sequence < |Canonical(r.caller)| && Canonical(r.caller)[sequence] == id
      modifies this`results, this`machine, w`txs
      ensures InStep() && Leads(s, machine) && p in machine.requests
      ensures answer == None ==> At(machine, p, Dead)
      ensures answer.Some? ==>
        var before := old(machine).requests[p];
        machine.requests[p] == before.(collected := before.collected + [answer.value], items := items)
    {
      hide Step, Leads, RunItem, FailItem, Replay, Vacant;
      ghost var before, seen := machine, w.categories;
      items := r.items;
      if id in r.persisted {
        LeadsOn(s, before, DoItem(p, seen));
        StepRuns(before, p, seen);
        RunsPersisted(before, p, seen);
        machine := RunItem(before, p, seen);
        return Some(r.persisted[id]), items;
      }
      if faulty && r.ruleSet.Some? {
        LeadsOn(s, before, DoFail(p));
        StepFails(before, p);
        answer, items := RecordFailure(p, r.preview, r.op, sequence, id, r.caller, r.items);
        return answer, items;
      }
      LeadsOn(s, before, DoItem(p, seen));
      StepRuns(before, p, seen);
      var out := TakeItem(p, r.op, sequence, id, r.ruleSet, r.items);
      if out.Answered? {
        return Some(out.reply), items;
      }
      if out.Violated? && r.ruleSet.Some? {
        ghost var conflicted := machine;
        LeadsOn(s, conflicted, DoReplay(p));
        StepReplays(conflicted, p);
        answer, items := Reread(p, r.preview, r.op, sequence, id, r.caller);
        return answer, items;
      }
      return None, items;
    }

    /** `results_for`: the results already recorded for the submitted items. */
    method ResultsFor(ghost s: State, ghost p: Id, r: LoopState) returns (persisted: map<Id, ItemResult>)
      requires InStep() && Leads(s, machine) && p in machine.requests && machine.requests[p] == Standing(r, Reading)
      requires r.persisted == map[] && r.items == map[]
      modifies this`machine
      ensures InStep() && Leads(s, machine) && p in machine.requests
      ensures machine.requests[p] == Standing(r.(persisted := persisted), Loading)
    {
      hide Step, Leads;
      ghost var reading := machine;
      LeadsOn(s, reading, DoRead(p));
      StepReads(reading, p);
      var stored := results;
      persisted := map x | x in r.caller && (r.op, x) in stored :: stored[(r.op, x)].result;
      machine := ReadResults(reading, p);
    }

    /** `load_items`, the last read before the loop. */
    method EnterLoop(ghost s: State, ghost p: Id, r: LoopState) returns (entered: LoopState)
      requires InStep() && Leads(s, machine) && p in machine.requests && machine.requests[p] == Standing(r, Loading)
      requires r.items == map[]
      modifies this`machine
      ensures InStep() && Leads(s, machine) && InLoop(machine, p, entered, 0)
      ensures entered == r.(items := entered.items)
    {
      hide Step, Leads, Load;
      ghost var loading := machine;
      LeadsOn(s, loading, DoLoad(p));
      StepLoads(loading, p);
      var items := ItemsOf(r.preview, r.caller);
      Loads(loading, p, items);
      entered := r.(items := items);
      machine := Load(loading, p);
    }

    /** The loop over the canonical order: an answer for every item, or the end of the request. */
    method TakeItems(ghost s: State, ghost p: Id, entered: LoopState, faulty: set<Id>)
        returns (collected: Option<seq<ItemResult>>)
      requires InStep() && Leads(s, machine) && InLoop(machine, p, entered, 0)
      modifies this`results, this`machine, w`txs
      ensures InStep() && Leads(s, machine)
      ensures collected == None ==> At(machine, p, Dead)
      ensures collected.Some? ==> At(machine, p, Running) && !HasNext(machine.requests[p])
      ensures collected.Some? ==>
        && machine.requests[p].collected == collected.value && |collected.value| == |Canonical(entered.caller)|
        && machine.requests[p].op == entered.op && machine.requests[p].caller == entered.caller
        && machine.requests[p].preview == entered.preview && machine.requests[p].key == entered.key
    {
      hide Step, Leads;
      var r := entered;
      var order := Canonical(r.caller);
      var answers: seq<ItemResult> := [];
      for sequence := 0 to |order|
        invariant InStep() && Leads(s, machine) && InLoop(machine, p, r, sequence)
        invariant machine.requests[p].collected == answers
        invariant r.(items := entered.items) == entered
      {
        var answer, items := TakeNext(s, p, r, sequence, order[sequence], order[sequence] in faulty);
        if answer == None {
          return None;
        }
        answers := answers + [answer.value];
        r := r.(items := items);
      }
      return Some(answers);
    }

    /** The loop, the completion and the response in the caller's order. */
    method Respond(ghost s: State, ghost p: Id, r: LoopState, faulty: set<Id>) returns (reply: ApplyReply)
      requires InStep() && Inv(s) && Leads(s, machine) && InLoop(machine, p, r, 0) && Distinct(r.caller)
      modifies this`ops, this`results, this`machine, w`txs
      ensures InStep() && Leads(s, machine) && Replied(machine, p, r.preview, r.caller, r.key, reply)
      ensures reply.Completed? || reply == RequestFailed
    {
      hide Step, Inv, Leads;
      var collected := TakeItems(s, p, r, faulty);
      if collected == None {
        return RequestFailed;
      }
      RunsKeep(s, machine);
      CollectedInOrder(machine, p);
      CanonicalSorted(r.caller);
      var response := InCallerOrder(collected.value, Canonical(r.caller), r.caller);
      CompleteOperation(s, p, r.op);
      return Completed(r.op, response);
    }

    /** `apply_preview_items`: whatever happens, the tables went through a run of the machine, and a
        completed reply is that of a finished request, in the caller's order. */
    method ApplyPreviewItems(ghost p: Id, preview: Id, caller: seq<Id>, key: string, newOp: Id, faulty: set<Id>)
        returns (reply: ApplyReply)
      requires InStep() && Inv(machine) && p !in machine.requests && newOp !in ops && caller != [] && Distinct(caller)
      modifies this, w`txs
      ensures InStep() && Leads(old(machine), machine) && Replied(machine, p, preview, caller, key, reply)
      ensures var refusal := ClaimRefusal(old(ops), previews, live, clock, preview, caller, key);
        if refusal.Some? then reply == refusal.value else reply.Completed? || reply == RequestFailed
      ensures old(previews) == previews && old(live) == live && old(clock) == clock
    {
      hide Step, Inv, Leads;
      ghost var s := machine;
      var refused, op, ruleSet := Begin(p, preview, caller, key, newOp);
      if refused.Some? {
        return refused.value;
      }
      var r := LoopState(preview, caller, key, op, ruleSet, map[], map[]);
      var persisted := ResultsFor(s, p, r);
      r := EnterLoop(s, p, r.(persisted := persisted));
      reply := Respond(s, p, r, faulty);
    }

    /** `complete_operation` and its commit. */
    method CompleteOperation(ghost s: State, ghost p: Id, op: Id)
      requires InStep() && Inv(machine) && Leads(s, machine) && At(machine, p, Running)
      requires machine.requests[p].op == op && !HasNext(machine.requests[p])
      modifies this`ops, this`machine
      ensures InStep() && Leads(s, machine) && At(machine, p, Done)
      ensures machine.requests[p] == old(machine).requests[p].(pc := Done)
      ensures op in old(ops) && ops == old(ops)[op := old(ops)[op].(completed := true)]
    {
      hide Step, Inv, Leads;
      ghost var running := machine;
      RunningOwns(running, p);
      LeadsOn(s, running, DoComplete(p));
      StepCompletes(running, p);
      ops := ops[op := ops[op].(completed := true)];
      machine := Complete(running, p);
    }
  }

  /** What a request keeps in its local variables during the item loop. */
  datatype LoopState = LoopState(preview: Id, caller: seq<Id>, key: string, op: Id, ruleSet: Option<nat>,
                                 persisted: map<Id, ItemResult>, items: map<Id, Item>)

  ghost predicate InLoop(m: State, p: Id, r: LoopState, sequence: nat) {
    && p in m.requests && |m.requests[p].collected| == sequence
    && m.requests[p] == Request(r.preview, r.caller, r.key, Running, r.op, r.ruleSet, r.persisted, r.items,
                                m.requests[p].collected)
  }

  function Standing(r: LoopState, pc: Pc): Request {
    Request(r.preview, r.caller, r.key, pc, r.op, r.ruleSet, r.persisted, r.items, [])
  }

  lemma Loads(s: State, p: Id, items: map<Id, Item>)
    requires p in s.requests
    requires var r := s.requests[p];
      items == if r.preview in s.live && r.preview in s.previews
               then map x | x in s.previews[r.preview].items && x in r.caller :: s.previews[r.preview].items[x] else map[]
    ensures Load(s, p) == Put(s, p, s.requests[p].(pc := Running, items := items))
  {
    assert items == LoadItems(s, s.requests[p]);
  }

  /** A completed reply is that of a finished request, in the caller's order; any other ends the request. */
  ghost predicate Replied(m: State, p: Id, preview: Id, caller: seq<Id>, key: string, reply: ApplyReply) {
    if reply.Completed? then
      && At(m, p, Done)
      && var r := m.requests[p];
      && r.preview == preview && r.caller == caller && r.key == key && r.op == reply.operation
      && Responds(r, reply.results)
    else
      At(m, p, Dead)
  }

  lemma StepFails(s: State, p: Id)
    requires p in s.requests && HasNext(s.requests[p])
    ensures Step(s, DoFail(p)) == FailItem(s, p)
  {
  }

  lemma StepReplays(s: State, p: Id)
    requires At(s, p, Conflicted) && |s.requests[p].collected| < |Canonical(s.requests[p].caller)|
    ensures Step(s, DoReplay(p)) == Replay(s, p)
  {
  }

  lemma RunsPersisted(s: State, p: Id, seen: map<Id, Category>)
    requires p in s.requests && HasNext(s.requests[p]) && Next(s.requests[p]) in s.requests[p].persisted
    ensures var r := s.requests[p];
      RunItem(s, p, seen) == Put(s, p, r.(collected := r.collected + [r.persisted[Next(r)]]))
  {
  }

  lemma CollectedInOrder(s: State, p: Id)
    requires Inv(s) && At(s, p, Running)
    ensures var r := s.requests[p];
      && |r.collected| <= |Canonical(r.caller)|
      && forall i :: 0 <= i < |r.collected| ==> r.collected[i].item == Canonical(r.caller)[i]
  {
    var r := s.requests[p];
    InvTables(s);
    assert RequestOk(r, s.ops, s.results, s.previews, s.live);
    forall i | 0 <= i < |r.collected| ensures r.collected[i].item == Canonical(r.caller)[i] {
      var k := (r.op, Canonical(r.caller)[i]);
      assert RowOk(k, s.results[k], s.ops, s.previews);
    }
  }

  /** The answers by item, read in the order of the caller. */
  method InCallerOrder(collected: seq<ItemResult>, order: seq<Id>, caller: seq<Id>) returns (response: seq<ItemResult>)
    requires |collected| == |order| && forall i :: 0 <= i < |order| ==> collected[i].item == order[i]
    requires forall x: Id :: x in caller ==> x in order
    ensures |response| == |caller|
    ensures forall i :: 0 <= i < |caller| ==> response[i] in collected && response[i].item == caller[i]
  {
    var byItem: map<Id, ItemResult> := map[];
    for i := 0 to |collected|
      invariant byItem.Keys == set x | x in order[..i]
      invariant forall x :: x in byItem ==> byItem[x] in collected && byItem[x].item == x
    {
      assert order[..i + 1] == order[..i] + [order[i]];
      byItem := byItem[collected[i].item := collected[i]];
    }
    assert order[..|order|] == order;
    response := [];
    for i := 0 to |caller|
      invariant |response| == i
      invariant forall j :: 0 <= j < i ==> response[j] in collected && response[j].item == caller[j]
    {
      assert caller[i] in caller;
      response := response + [byItem[caller[i]]];
    }
  }

  /** The request was refused and has ended, or it stands before reading its recorded results. */
  ghost predicate Started(m: State, p: Id, refused: Option<ApplyReply>, preview: Id, caller: seq<Id>, key: string, op: Id,
                          ruleSet: Option<nat>) {
    if refused.Some? then !refused.value.Completed? && At(m, p, Dead)
    else
      && p in m.requests
      && m.requests[p] == Request(preview, caller, key, Reading, op, ruleSet, map[], map[], [])
  }
}
