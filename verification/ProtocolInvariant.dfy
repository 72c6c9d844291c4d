/** What every step of the apply protocol keeps. */
module ProtocolInvariant {
  import opened Domain
  import opened RuleSet
  import opened Executor
  import opened Preview
  import opened Protocol

  ghost predicate PreviewsOk(previews: map<Id, PreviewRow>) {
    forall p :: p in previews ==> ItemsOk(previews[p].items)
  }

  /** A transaction occurs once in a preview. */
  ghost predicate ItemsOk(items: map<Id, Item>) {
    && (forall x, y :: x in items && y in items && x != y ==> items[x].tx != items[y].tx)
    && (forall x :: x in items && items[x].status == PreviewMatched ==>
          items[x].proposal.Some? && items[x].txVersion.Some?)
  }

  ghost predicate OpOk(o: Operation, previews: map<Id, PreviewRow>) {
    && o.preview in previews
    && o.items != [] && StrictlySorted(o.items)
    && forall x :: x in o.items ==> x in previews[o.preview].items
  }

  ghost predicate OpsOk(ops: map<Id, Operation>, previews: map<Id, PreviewRow>) {
    && (forall o :: o in ops ==> OpOk(ops[o], previews))
    && (forall o, o' :: o in ops && o' in ops && ops[o].key == ops[o'].key ==> o == o')
  }

  /** The recorded result describes its own item. */
  ghost predicate ResultFits(r: ItemResult, id: Id, item: Item) {
    && r.item == id
    && r.error == ErrorCode(r.status)
    && (r.tx.Some? ==> r.tx.value == item.tx)
    && (r.status == Applied ==>
          r.tx.Some? && r.expected.Some? && r.expected == item.txVersion && r.current == Some(r.expected.value + 1))
  }

  ghost predicate RowOk(k: (Id, Id), row: ResultRow, ops: map<Id, Operation>, previews: map<Id, PreviewRow>) {
    && k.0 in ops && ops[k.0].preview in previews
    && k.1 in previews[ops[k.0].preview].items
    && row.sequence < |ops[k.0].items| && ops[k.0].items[row.sequence] == k.1
    && ResultFits(row.result, k.1, previews[ops[k.0].preview].items[k.1])
  }

  ghost predicate RowsOk(results: map<(Id, Id), ResultRow>, ops: map<Id, Operation>, previews: map<Id, PreviewRow>) {
    forall k :: k in results ==> RowOk(k, results[k], ops, previews)
  }

  ghost predicate CompletedOk(ops: map<Id, Operation>, results: map<(Id, Id), ResultRow>) {
    forall o, x :: o in ops && ops[o].completed && x in ops[o].items ==> (o, x) in results
  }

  /** An operation in progress still has its preview, unless the recovery window has passed. */
  ghost predicate PinOk(ops: map<Id, Operation>, previews: map<Id, PreviewRow>, live: set<Id>, window: nat, clock: Instant) {
    forall o :: o in ops && !ops[o].completed && ops[o].preview in previews ==>
      ops[o].preview in live || previews[ops[o].preview].expiresAt + window <= clock
  }

  /** Versions in the audit log of one transaction strictly rise and stay below the row's version. */
  ghost predicate AuditOk(audit: seq<Write>, txs: map<Id, Transaction>) {
    && (forall i :: 0 <= i < |audit| ==> audit[i].tx in txs && audit[i].version < txs[audit[i].tx].version)
    && (forall i, j :: 0 <= i < j < |audit| && audit[i].tx == audit[j].tx ==> audit[i].version < audit[j].version)
  }

  ghost predicate Caused(w: Write, op: Id, row: ResultRow) {
    && row.result.status == Applied
    && row.result.tx == Some(w.tx) && row.result.expected == Some(w.version) && w.cause == Some(op)
  }

  ghost predicate CausedBy(w: Write, results: map<(Id, Id), ResultRow>, k: (Id, Id)) {
    k in results && Caused(w, k.0, results[k])
  }

  ghost predicate EffectAt(audit: seq<Write>, i: int, op: Id, row: ResultRow) {
    0 <= i < |audit| && Caused(audit[i], op, row)
  }

  /** Applied results and writes caused by an operation are in one-to-one correspondence. */
  ghost predicate LinkOk(audit: seq<Write>, results: map<(Id, Id), ResultRow>) {
    CausesOk(audit, results) && EffectsOk(audit, results)
  }

  ghost predicate CausesOk(audit: seq<Write>, results: map<(Id, Id), ResultRow>) {
    forall i :: 0 <= i < |audit| && audit[i].cause.Some? ==> exists k :: CausedBy(audit[i], results, k)
  }

  ghost predicate EffectsOk(audit: seq<Write>, results: map<(Id, Id), ResultRow>) {
    forall k :: k in results && results[k].result.status == Applied ==> exists i :: EffectAt(audit, i, k.0, results[k])
  }

  ghost predicate TablesOk(s: State) {
    && PreviewsOk(s.previews)
    && s.live <= s.previews.Keys
    && OpsOk(s.ops, s.previews)
    && RowsOk(s.results, s.ops, s.previews)
    && CompletedOk(s.ops, s.results)
    && PinOk(s.ops, s.previews, s.live, s.window, s.clock)
    && AuditOk(s.audit, s.db.txs)
    && LinkOk(s.audit, s.results)
  }

  /** An answer agrees with the recorded result in everything but, possibly, the expected version. */
  predicate Agrees(r: ItemResult, recorded: ItemResult) {
    r == recorded.(expected := r.expected)
  }

  predicate Claimed(pc: Pc) {
    pc == Fetching || pc == Reading || pc == Loading || pc == Running || pc == Conflicted || pc == Done
  }

  ghost predicate SnapshotOk(r: Request, results: map<(Id, Id), ResultRow>, previews: map<Id, PreviewRow>) {
    && (forall x :: x in r.persisted ==> (r.op, x) in results && r.persisted[x] == results[(r.op, x)].result)
    && (forall x :: x in r.items ==>
          r.preview in previews && x in previews[r.preview].items && r.items[x] == previews[r.preview].items[x])
  }

  /** Every answer collected so far is backed by the recorded result of its item, in canonical order. */
  ghost predicate CollectedOk(op: Id, order: seq<Id>, collected: seq<ItemResult>, results: map<(Id, Id), ResultRow>) {
    && |collected| <= |order|
    && forall i :: 0 <= i < |collected| ==>
         (op, order[i]) in results && Agrees(collected[i], results[(op, order[i])].result)
  }

  ghost predicate ClaimedOk(r: Request, ops: map<Id, Operation>, results: map<(Id, Id), ResultRow>,
                            previews: map<Id, PreviewRow>) {
    && r.op in ops && SameRequest(ops[r.op], r) && ops[r.op].key == r.key
    && (r.pc != Fetching && r.ruleSet.Some? ==>
          r.preview in previews && r.ruleSet.value == previews[r.preview].ruleSet)
    && SnapshotOk(r, results, previews)
    && CollectedOk(r.op, Canonical(r.caller), r.collected, results)
    && (r.pc == Conflicted ==>
          |r.collected| < |Canonical(r.caller)| && (r.op, Canonical(r.caller)[|r.collected|]) in results)
    && (r.pc == Done ==> |r.collected| == |Canonical(r.caller)| && ops[r.op].completed)
  }

  ghost predicate RequestOk(r: Request, ops: map<Id, Operation>, results: map<(Id, Id), ResultRow>,
                            previews: map<Id, PreviewRow>, live: set<Id>) {
    && r.caller != [] && Distinct(r.caller)
    && (r.pc == Claiming ==> r.preview in live)
    && (Claimed(r.pc) ==> ClaimedOk(r, ops, results, previews))
    && (!Claimed(r.pc) && r.pc != Dead ==> r.collected == [] && r.persisted == map[] && r.items == map[])
  }

  ghost predicate AllOk(s: State) {
    forall p :: p in s.requests ==> RequestOk(s.requests[p], s.ops, s.results, s.previews, s.live)
  }

  ghost predicate Inv(s: State) {
    && TablesOk(s)
    && AllOk(s)
  }

  /** What no step ever takes back, table by table. */
  ghost predicate PreviewsGrow(previews: map<Id, PreviewRow>, previews': map<Id, PreviewRow>) {
    forall p :: p in previews ==> p in previews' && previews'[p] == previews[p]
  }

  ghost predicate OpsGrow(ops: map<Id, Operation>, ops': map<Id, Operation>) {
    forall o :: o in ops ==>
      && o in ops' && ops'[o].key == ops[o].key && ops'[o].preview == ops[o].preview
      && ops'[o].items == ops[o].items && (ops[o].completed ==> ops'[o].completed)
  }

  ghost predicate ResultsGrow(results: map<(Id, Id), ResultRow>, results': map<(Id, Id), ResultRow>) {
    forall k :: k in results ==> k in results' && results'[k] == results[k]
  }

  /** Versions only rise, and a row or rule set that kept its version kept its content. */
  ghost predicate DbGrows(db: Db, db': Db) {
    && (forall t :: t in db.txs ==>
          && t in db'.txs && db.txs[t].version <= db'.txs[t].version
          && (db.txs[t].version == db'.txs[t].version ==> db.txs[t] == db'.txs[t]))
    && db.ruleSet <= db'.ruleSet
    && (db.ruleSet == db'.ruleSet ==> View(db.rules) == View(db'.rules))
  }

  ghost predicate Grows(s: State, s': State) {
    && PreviewsGrow(s.previews, s'.previews)
    && OpsGrow(s.ops, s'.ops)
    && ResultsGrow(s.results, s'.results)
    && DbGrows(s.db, s'.db)
    && s.audit <= s'.audit
    && s.clock <= s'.clock && s.window == s'.window
  }

  lemma RequestStable(r: Request, s: State, s': State)
    requires RequestOk(r, s.ops, s.results, s.previews, s.live)
    requires PreviewsGrow(s.previews, s'.previews) && OpsGrow(s.ops, s'.ops) && ResultsGrow(s.results, s'.results)
    requires r.pc == Claiming ==> r.preview in s'.live
    ensures RequestOk(r, s'.ops, s'.results, s'.previews, s'.live)
  {
  }

  /** A change of the tables keeps every request in order. */
  lemma TablesKeep(s: State, s': State)
    requires Inv(s) && TablesOk(s') && s'.requests == s.requests
    requires PreviewsGrow(s.previews, s'.previews) && OpsGrow(s.ops, s'.ops) && ResultsGrow(s.results, s'.results)
    requires forall p :: p in s.requests && s.requests[p].pc == Claiming ==> s.requests[p].preview in s'.live
    ensures Inv(s')
  {
    forall q | q in s'.requests
      ensures RequestOk(s'.requests[q], s'.ops, s'.results, s'.previews, s'.live)
    {
      RequestStable(s.requests[q], s, s');
    }
  }

  /** A step that only moves requester `p`. */
  lemma PutKeeps(s: State, p: Id, r: Request)
    requires Inv(s) && RequestOk(r, s.ops, s.results, s.previews, s.live)
    ensures Inv(Put(s, p, r)) && Grows(s, Put(s, p, r))
  {
  }

  // ----- the requester's own record -----

  /** A request may end at any time, and an unclaimed one may move on to lock its preview. */
  lemma RecordEnds(r: Request, s: State)
    requires RequestOk(r, s.ops, s.results, s.previews, s.live)
    ensures RequestOk(r.(pc := Dead), s.ops, s.results, s.previews, s.live)
    ensures r.pc == Finding ==> RequestOk(r.(pc := Locking), s.ops, s.results, s.previews, s.live)
    ensures r.pc == Locking && r.preview in s.live ==>
      RequestOk(r.(pc := Claiming), s.ops, s.results, s.previews, s.live)
  {
  }

  /** An unclaimed request enters an operation of its own key and content. */
  lemma RecordClaims(r: Request, op: Id, ruleSet: Option<nat>, pc: Pc, ops: map<Id, Operation>,
                     results: map<(Id, Id), ResultRow>, previews: map<Id, PreviewRow>, live: set<Id>)
    requires r.caller != [] && Distinct(r.caller)
    requires r.collected == [] && r.persisted == map[] && r.items == map[]
    requires HasKey(ops, r.key, op) && SameRequest(ops[op], r)
    requires pc == Fetching || pc == Reading
    requires pc == Reading && ruleSet.Some? ==> r.preview in previews && ruleSet.value == previews[r.preview].ruleSet
    ensures RequestOk(r.(op := op, ruleSet := ruleSet, pc := pc), ops, results, previews, live)
  {
  }

  ghost predicate Entered(r: Request, r': Request, ops: map<Id, Operation>, pc: Pc) {
    HasKey(ops, r.key, r'.op) && SameRequest(ops[r'.op], r) && r' == r.(op := r'.op, ruleSet := r'.ruleSet, pc := pc)
  }

  ghost predicate FindShaped(r: Request, ops: map<Id, Operation>, r': Request) {
    || r' == r.(pc := Dead)
    || r' == r.(pc := Locking)
    || (Entered(r, r', ops, Fetching) && r'.ruleSet == r.ruleSet)
  }

  lemma FindShape(s: State, p: Id)
    requires p in s.requests
    ensures Find(s, p) == Put(s, p, Find(s, p).requests[p])
    ensures FindShaped(s.requests[p], s.ops, Find(s, p).requests[p])
  {
  }

  lemma FindRecord(r: Request, r': Request, s: State)
    requires r.pc == Finding && RequestOk(r, s.ops, s.results, s.previews, s.live) && FindShaped(r, s.ops, r')
    ensures RequestOk(r', s.ops, s.results, s.previews, s.live)
  {
    RecordEnds(r, s);
    if Entered(r, r', s.ops, Fetching) {
      RecordClaims(r, r'.op, r.ruleSet, Fetching, s.ops, s.results, s.previews, s.live);
    }
  }

  lemma FindKeeps(s: State, p: Id)
    requires Inv(s) && At(s, p, Finding)
    ensures Inv(Find(s, p)) && Grows(s, Find(s, p))
  {
    var r' := Find(s, p).requests[p];
    FindShape(s, p);
    FindRecord(s.requests[p], r', s);
    PutKeeps(s, p, r');
  }

  lemma LockKeeps(s: State, p: Id)
    requires Inv(s) && At(s, p, Locking)
    ensures Inv(Lock(s, p)) && Grows(s, Lock(s, p))
  {
    var r := s.requests[p];
    assert RequestOk(r, s.ops, s.results, s.previews, s.live);
    RecordEnds(r, s);
    PutKeeps(s, p, Lock(s, p).requests[p]);
  }

  function Claimable(r: Request): Operation {
    Operation(r.key, r.preview, Canonical(r.caller), false)
  }

  /** What a claim can do: end the request, or enter the operation of its key, new or found. */
  ghost predicate ClaimShaped(s: State, p: Id, newOp: Id, s': State)
    requires p in s.requests && s.requests[p].preview in s.previews
  {
    var r := s.requests[p];
    && p in s'.requests
    && var r' := s'.requests[p];
    && s' == Put(s.(ops := s'.ops), p, r')
    && (s'.ops == s.ops || s'.ops == s.ops[newOp := Claimable(r)])
    && (s'.ops != s.ops ==>
          && (forall x :: x in r.caller ==> x in s.previews[r.preview].items)
          && !exists op :: HasKey(s.ops, r.key, op))
    && (r' == r.(pc := Dead)
        || (Entered(r, r', s'.ops, Reading) && r'.ruleSet == Some(s.previews[r.preview].ruleSet)))
  }

  lemma ClaimShape(s: State, p: Id, newOp: Id)
    requires p in s.requests && s.requests[p].preview in s.previews && newOp !in s.ops
    ensures ClaimShaped(s, p, newOp, Claim(s, p, newOp))
  {
  }

  lemma NewOperation(s: State, r: Request, newOp: Id)
    requires OpsOk(s.ops, s.previews) && RowsOk(s.results, s.ops, s.previews) && CompletedOk(s.ops, s.results)
    requires r.caller != [] && Distinct(r.caller) && r.preview in s.previews && r.preview in s.live && newOp !in s.ops
    requires PinOk(s.ops, s.previews, s.live, s.window, s.clock)
    requires forall x :: x in r.caller ==> x in s.previews[r.preview].items
    requires !exists op :: HasKey(s.ops, r.key, op)
    ensures
      var ops' := s.ops[newOp := Claimable(r)];
      && OpsGrow(s.ops, ops') && OpsOk(ops', s.previews) && RowsOk(s.results, ops', s.previews)
      && CompletedOk(ops', s.results) && PinOk(ops', s.previews, s.live, s.window, s.clock)
  {
    var ops' := s.ops[newOp := Claimable(r)];
    CanonicalSorted(r.caller);
    assert OpOk(ops'[newOp], s.previews);
    forall o | o in s.ops ensures s.ops[o].key != r.key { assert !HasKey(s.ops, r.key, o); }
    forall k | k in s.results ensures RowOk(k, s.results[k], ops', s.previews) {
      assert RowOk(k, s.results[k], s.ops, s.previews);
    }
  }

  lemma ClaimTables(s: State, p: Id, newOp: Id, s': State)
    requires Inv(s) && At(s, p, Claiming) && s.requests[p].preview in s.previews && newOp !in s.ops
    requires ClaimShaped(s, p, newOp, s')
    ensures var s1 := s.(ops := s'.ops); Inv(s1) && Grows(s, s1)
  {
    var r, s1 := s.requests[p], s.(ops := s'.ops);
    if s1.ops != s.ops {
      assert RequestOk(r, s.ops, s.results, s.previews, s.live);
      NewOperation(s, r, newOp);
      TablesKeep(s, s1);
    } else {
      assert s1 == s;
    }
  }

  lemma ClaimRecord(s: State, s1: State, p: Id, newOp: Id, s': State)
    requires At(s, p, Claiming) && s.requests[p].preview in s.previews && newOp !in s.ops
    requires ClaimShaped(s, p, newOp, s') && s1 == s.(ops := s'.ops)
    requires RequestOk(s.requests[p], s1.ops, s1.results, s1.previews, s1.live)
    ensures RequestOk(s'.requests[p], s1.ops, s1.results, s1.previews, s1.live)
  {
    var r, r' := s.requests[p], s'.requests[p];
    RecordEnds(r, s1);
    if Entered(r, r', s1.ops, Reading) {
      RecordClaims(r, r'.op, r'.ruleSet, Reading, s1.ops, s1.results, s1.previews, s1.live);
    }
  }

  lemma ClaimMoves(s: State, p: Id, newOp: Id, s': State)
    requires Inv(s) && At(s, p, Claiming) && s.requests[p].preview in s.previews && newOp !in s.ops
    requires ClaimShaped(s, p, newOp, s')
    ensures Inv(s') && Grows(s, s')
  {
    var s1 := s.(ops := s'.ops);
    ClaimTables(s, p, newOp, s');
    assert AllOk(s1);
    ClaimRecord(s, s1, p, newOp, s');
    PutKeeps(s1, p, s'.requests[p]);
  }

  lemma ClaimKeeps(s: State, p: Id, newOp: Id)
    requires Inv(s) && At(s, p, Claiming) && s.requests[p].preview in s.previews && newOp !in s.ops
    ensures Inv(Claim(s, p, newOp)) && Grows(s, Claim(s, p, newOp))
  {
    ClaimShape(s, p, newOp);
    ClaimMoves(s, p, newOp, Claim(s, p, newOp));
  }

  lemma FetchKeeps(s: State, p: Id)
    requires Inv(s) && At(s, p, Fetching)
    ensures Inv(Fetch(s, p)) && Grows(s, Fetch(s, p))
  {
    PutKeeps(s, p, Fetch(s, p).requests[p]);
  }

  lemma ReadKeeps(s: State, p: Id)
    requires Inv(s) && At(s, p, Reading)
    ensures Inv(ReadResults(s, p)) && Grows(s, ReadResults(s, p))
  {
    PutKeeps(s, p, ReadResults(s, p).requests[p]);
  }

  lemma LoadKeeps(s: State, p: Id)
    requires Inv(s) && At(s, p, Loading)
    ensures Inv(Load(s, p)) && Grows(s, Load(s, p))
  {
    PutKeeps(s, p, Load(s, p).requests[p]);
  }

  lemma RecordAnswers(r: Request, answer: ItemResult, items: map<Id, Item>, s: State)
    requires RequestOk(r, s.ops, s.results, s.previews, s.live)
    requires r.pc == Running || r.pc == Conflicted
    requires |r.collected| < |Canonical(r.caller)|
    requires (r.op, Canonical(r.caller)[|r.collected|]) in s.results
    requires Agrees(answer, s.results[(r.op, Canonical(r.caller)[|r.collected|])].result)
    requires forall x :: x in items ==>
      r.preview in s.previews && x in s.previews[r.preview].items && items[x] == s.previews[r.preview].items[x]
    ensures RequestOk(r.(collected := r.collected + [answer], items := items, pc := Running),
                      s.ops, s.results, s.previews, s.live)
  {
  }

  /** The re-read after a unique violation always finds the committed result. */
  lemma ReplayKeeps(s: State, p: Id)
    requires Inv(s) && At(s, p, Conflicted) && |s.requests[p].collected| < |Canonical(s.requests[p].caller)|
    ensures Inv(Replay(s, p)) && Grows(s, Replay(s, p))
    ensures At(Replay(s, p), p, Running)
  {
    var r := s.requests[p];
    assert RequestOk(r, s.ops, s.results, s.previews, s.live);
    RecordAnswers(r, s.results[(r.op, Canonical(r.caller)[|r.collected|])].result, LoadItems(s, r), s);
    PutKeeps(s, p, Replay(s, p).requests[p]);
  }

  // ----- the item commit -----

  /** The one write of an applied item, or no write at all. */
  ghost predicate WritesFit(op: Id, row: ItemResult, db: Db, db': Db, writes: seq<Write>) {
    if row.status == Applied then
      && row.tx.Some? && row.expected.Some? && row.tx.value in db.txs
      && db.txs[row.tx.value].version == row.expected.value
      && writes == [Write(row.tx.value, row.expected.value, Some(op))]
      && row.tx.value in db'.txs && db'.txs[row.tx.value].version == row.expected.value + 1
      && db' == db.(txs := db.txs[row.tx.value := db'.txs[row.tx.value]])
    else
      writes == [] && db' == db
  }

  lemma ProcessFits(db: Db, seen: map<Id, Category>, op: Id, ruleSet: nat, id: Id, item: Option<Item>, own: Item)
    requires item.Some? ==> item.value == own
    ensures var work := Process(db, seen, op, ruleSet, id, item);
      work.Commit? ==>
        && ResultFits(work.row, id, own) && Agrees(work.reply, work.row)
        && WritesFit(op, work.row, db, work.db, work.writes)
  {
    if item.Some? && Ineligible(own.status) == None && own.proposal.Some? && own.txVersion.Some? {
      ExecutorSound(db, seen, Expect(own, ruleSet));
    }
  }

  /** The sequence constraint can only fire together with the item constraint. */
  lemma VacantMeans(s: State, op: Id, sequence: nat)
    requires OpsOk(s.ops, s.previews) && RowsOk(s.results, s.ops, s.previews)
    requires op in s.ops && sequence < |s.ops[op].items|
    ensures Vacant(s.results, op, s.ops[op].items[sequence], sequence)
      <==> (op, s.ops[op].items[sequence]) !in s.results
  {
    forall k | k in s.results && k.0 == op && s.results[k].sequence == sequence
      ensures k == (op, s.ops[op].items[sequence])
    {
      assert RowOk(k, s.results[k], s.ops, s.previews);
    }
  }

  lemma CommitRows(results: map<(Id, Id), ResultRow>, ops: map<Id, Operation>, previews: map<Id, PreviewRow>,
                   op: Id, id: Id, row: ResultRow)
    requires RowsOk(results, ops, previews) && CompletedOk(ops, results)
    requires RowOk((op, id), row, ops, previews) && (op, id) !in results
    ensures var results' := results[(op, id) := row];
      RowsOk(results', ops, previews) && CompletedOk(ops, results') && ResultsGrow(results, results')
  {
  }

  lemma CommitAudit(audit: seq<Write>, db: Db, db': Db, op: Id, row: ItemResult, writes: seq<Write>)
    requires AuditOk(audit, db.txs) && WritesFit(op, row, db, db', writes)
    ensures AuditOk(audit + writes, db'.txs) && DbGrows(db, db')
  {
  }

  lemma CommitCauses(audit: seq<Write>, results: map<(Id, Id), ResultRow>, op: Id, id: Id, row: ResultRow,
                     writes: seq<Write>)
    requires CausesOk(audit, results) && (op, id) !in results
    requires writes == [] || (|writes| == 1 && Caused(writes[0], op, row))
    ensures CausesOk(audit + writes, results[(op, id) := row])
  {
    var results', audit' := results[(op, id) := row], audit + writes;
    forall i | 0 <= i < |audit'| && audit'[i].cause.Some?
      ensures exists k :: CausedBy(audit'[i], results', k)
    {
      if i < |audit| {
        var k :| CausedBy(audit[i], results, k);
        assert CausedBy(audit'[i], results', k);
      } else {
        assert CausedBy(audit'[i], results', (op, id));
      }
    }
  }

  lemma CommitEffects(audit: seq<Write>, results: map<(Id, Id), ResultRow>, op: Id, id: Id, row: ResultRow,
                      writes: seq<Write>)
    requires EffectsOk(audit, results) && (op, id) !in results
    requires row.result.status == Applied ==> |writes| == 1 && Caused(writes[0], op, row)
    ensures EffectsOk(audit + writes, results[(op, id) := row])
  {
    var results', audit' := results[(op, id) := row], audit + writes;
    forall k | k in results' && results'[k].result.status == Applied
      ensures exists i :: EffectAt(audit', i, k.0, results'[k])
    {
      if k == (op, id) {
        assert EffectAt(audit', |audit|, op, row);
      } else {
        var i :| EffectAt(audit, i, k.0, results[k]);
        assert EffectAt(audit', i, k.0, results'[k]);
      }
    }
  }

  ghost predicate Committed(s: State, s1: State, op: Id, id: Id, row: ResultRow, writes: seq<Write>) {
    && s1 == s.(db := s1.db, audit := s.audit + writes, results := s.results[(op, id) := row])
    && (op, id) !in s.results
    && RowOk((op, id), row, s.ops, s.previews)
    && WritesFit(op, row.result, s.db, s1.db, writes)
  }

  lemma CommitKeeps(s: State, s1: State, op: Id, id: Id, row: ResultRow, writes: seq<Write>)
    requires Inv(s) && Committed(s, s1, op, id, row, writes)
    ensures Inv(s1) && Grows(s, s1)
  {
    CommitRows(s.results, s.ops, s.previews, op, id, row);
    CommitAudit(s.audit, s.db, s1.db, op, row.result, writes);
    CommitCauses(s.audit, s.results, op, id, row, writes);
    CommitEffects(s.audit, s.results, op, id, row, writes);
    assert s.audit <= s1.audit;
    assert TablesOk(s1);
    TablesKeep(s, s1);
  }

  /** The row a running request is about to write belongs to its operation. */
  lemma NextFits(s: State, p: Id)
    requires Inv(s) && p in s.requests && HasNext(s.requests[p])
    ensures var r, id := s.requests[p], Next(s.requests[p]);
      && RequestOk(r, s.ops, s.results, s.previews, s.live)
      && r.op in s.ops && |r.collected| < |s.ops[r.op].items| && s.ops[r.op].items[|r.collected|] == id
      && r.preview == s.ops[r.op].preview && r.preview in s.previews && id in s.previews[r.preview].items
      && (id in r.items ==> r.items[id] == s.previews[r.preview].items[id])
      && (id in r.persisted ==> (r.op, id) in s.results && r.persisted[id] == s.results[(r.op, id)].result)
      && (Vacant(s.results, r.op, id, |r.collected|) <==> (r.op, id) !in s.results)
  {
    hide StrictlySorted, Vacant;
    var r, id := s.requests[p], Next(s.requests[p]);
    assert RequestOk(r, s.ops, s.results, s.previews, s.live);
    assert OpOk(s.ops[r.op], s.previews);
    assert id in s.ops[r.op].items;
    VacantMeans(s, r.op, |r.collected|);
  }

  lemma RecordConflicts(r: Request, s: State)
    requires RequestOk(r, s.ops, s.results, s.previews, s.live)
    requires HasNext(r) && (r.op, Next(r)) in s.results
    ensures RequestOk(r.(pc := Conflicted), s.ops, s.results, s.previews, s.live)
  {
  }

  /** The commit of the next item of `p`, followed by its answer. */
  lemma ItemCommits(s: State, p: Id, row: ItemResult, answer: ItemResult, db': Db, writes: seq<Write>,
                    items: map<Id, Item>)
    requires Inv(s) && p in s.requests && HasNext(s.requests[p])
    requires var r, id := s.requests[p], Next(s.requests[p]);
      && (r.op, id) !in s.results && r.preview in s.previews && id in s.previews[r.preview].items
      && ResultFits(row, id, s.previews[r.preview].items[id])
      && WritesFit(r.op, row, s.db, db', writes) && Agrees(answer, row)
      && (forall x :: x in items ==> x in s.previews[r.preview].items && items[x] == s.previews[r.preview].items[x])
    ensures var r, id := s.requests[p], Next(s.requests[p]);
      var s' := Put(s.(db := db', audit := s.audit + writes,
                       results := s.results[(r.op, id) := ResultRow(|r.collected|, row)]),
                    p, r.(collected := r.collected + [answer], items := items));
      Inv(s') && Grows(s, s')
  {
    var r, id := s.requests[p], Next(s.requests[p]);
    NextFits(s, p);
    var inserted := ResultRow(|r.collected|, row);
    var s1 := s.(db := db', audit := s.audit + writes, results := s.results[(r.op, id) := inserted]);
    CommitKeeps(s, s1, r.op, id, inserted, writes);
    assert RequestOk(s1.requests[p], s1.ops, s1.results, s1.previews, s1.live);
    RecordAnswers(r, answer, items, s1);
    assert r.(collected := r.collected + [answer], items := items, pc := Running)
      == r.(collected := r.collected + [answer], items := items);
    PutKeeps(s1, p, r.(collected := r.collected + [answer], items := items));
  }

  ghost predicate RunShaped(s: State, p: Id, s': State)
    requires p in s.requests && HasNext(s.requests[p])
  {
    var r, id := s.requests[p], Next(s.requests[p]);
    || (id in r.persisted && s' == Put(s, p, r.(collected := r.collected + [r.persisted[id]])))
    || s' == Put(s, p, r.(pc := Dead))
    || (!Vacant(s.results, r.op, id, |r.collected|) && s' == Put(s, p, r.(pc := Conflicted)))
    || (Vacant(s.results, r.op, id, |r.collected|) && exists work :: RunCommits(s, p, work, s'))
  }

  ghost predicate RunCommits(s: State, p: Id, work: Work, s': State)
    requires p in s.requests && HasNext(s.requests[p])
  {
    var r, id := s.requests[p], Next(s.requests[p]);
    && work.Commit?
    && (forall own :: (id in r.items ==> own == r.items[id]) ==>
          && ResultFits(work.row, id, own) && WritesFit(r.op, work.row, s.db, work.db, work.writes))
    && Agrees(work.reply, work.row)
    && s' == Put(s.(db := work.db, audit := s.audit + work.writes,
                    results := s.results[(r.op, id) := ResultRow(|r.collected|, work.row)]),
                 p, r.(collected := r.collected + [work.reply], items := r.items))
  }

  lemma RunShape(s: State, p: Id, seen: map<Id, Category>)
    requires p in s.requests && HasNext(s.requests[p])
    ensures RunShaped(s, p, RunItem(s, p, seen))
  {
    var r, id := s.requests[p], Next(s.requests[p]);
    var item := if r.ruleSet == None then None else Lookup(r.items, Some(id));
    var ruleSet := if r.ruleSet == None then 0 else r.ruleSet.value;
    var work := Process(s.db, seen, r.op, ruleSet, id, item);
    if id !in r.persisted && work.Commit? && Vacant(s.results, r.op, id, |r.collected|) {
      forall own | id in r.items ==> own == r.items[id]
        ensures ResultFits(work.row, id, own) && WritesFit(r.op, work.row, s.db, work.db, work.writes)
        ensures Agrees(work.reply, work.row)
      {
        ProcessFits(s.db, seen, r.op, ruleSet, id, item, own);
      }
      var own := if id in r.items then r.items[id] else Item(0, None, PreviewNotFound, None);
      assert ResultFits(work.row, id, own);
      assert RunCommits(s, p, work, RunItem(s, p, seen));
    }
  }

  lemma RunKeeps(s: State, p: Id, seen: map<Id, Category>)
    requires Inv(s) && p in s.requests && HasNext(s.requests[p])
    ensures Inv(RunItem(s, p, seen)) && Grows(s, RunItem(s, p, seen))
  {
    RunShape(s, p, seen);
    RunMoves(s, p, RunItem(s, p, seen));
  }

  lemma RunMoves(s: State, p: Id, s': State)
    requires Inv(s) && p in s.requests && HasNext(s.requests[p]) && RunShaped(s, p, s')
    ensures Inv(s') && Grows(s, s')
  {
    var r, id := s.requests[p], Next(s.requests[p]);
    NextFits(s, p);
    if s' == Put(s, p, r.(pc := Dead)) {
      RecordEnds(r, s);
      PutKeeps(s, p, r.(pc := Dead));
    } else if id in r.persisted && s' == Put(s, p, r.(collected := r.collected + [r.persisted[id]])) {
      RecordAnswers(r, r.persisted[id], r.items, s);
      assert r.(collected := r.collected + [r.persisted[id]], items := r.items, pc := Running)
        == r.(collected := r.collected + [r.persisted[id]]);
      PutKeeps(s, p, r.(collected := r.collected + [r.persisted[id]]));
    } else if !Vacant(s.results, r.op, id, |r.collected|) {
      RecordConflicts(r, s);
      PutKeeps(s, p, r.(pc := Conflicted));
    } else {
      var work :| RunCommits(s, p, work, s');
      var own := s.previews[r.preview].items[id];
      assert ResultFits(work.row, id, own);
      ItemCommits(s, p, work.row, work.reply, work.db, work.writes, r.items);
    }
  }

  lemma FailureCommits(s: State, p: Id)
    requires Inv(s) && p in s.requests && HasNext(s.requests[p])
    requires var r, id := s.requests[p], Next(s.requests[p]);
      id !in r.persisted && r.ruleSet.Some? && Vacant(s.results, r.op, id, |r.collected|)
    ensures Inv(FailItem(s, p)) && Grows(s, FailItem(s, p))
  {
    hide Inv, Grows, Vacant;
    var r, id := s.requests[p], Next(s.requests[p]);
    NextFits(s, p);
    var item := Lookup(r.items, Some(id));
    var failure := Plain(id, if item == None then None else Some(item.value.tx), Failed);
    assert s.audit + [] == s.audit;
    ItemCommits(s, p, failure, failure, s.db, [], LoadItems(s, r));
  }

  lemma FailKeeps(s: State, p: Id)
    requires Inv(s) && p in s.requests && HasNext(s.requests[p])
    ensures Inv(FailItem(s, p)) && Grows(s, FailItem(s, p))
  {
    hide Inv, Grows, Vacant;
    var r, id := s.requests[p], Next(s.requests[p]);
    NextFits(s, p);
    GrowsReflexive(s);
    if id !in r.persisted && r.ruleSet.Some? {
      if !Vacant(s.results, r.op, id, |r.collected|) {
        RecordEnds(r, s);
        PutKeeps(s, p, r.(pc := Dead));
      } else {
        FailureCommits(s, p);
      }
    }
  }

  lemma CompleteKeeps(s: State, p: Id)
    requires Inv(s) && At(s, p, Running) && !HasNext(s.requests[p]) && s.requests[p].op in s.ops
    ensures Inv(Complete(s, p)) && Grows(s, Complete(s, p))
  {
    var r := s.requests[p];
    var o := s.ops[r.op];
    var s1 := s.(ops := s.ops[r.op := o.(completed := true)]);
    assert RequestOk(r, s.ops, s.results, s.previews, s.live);
    forall x | x in o.items ensures (r.op, x) in s.results {
      var i :| 0 <= i < |o.items| && o.items[i] == x;
      assert (r.op, Canonical(r.caller)[i]) in s.results;
    }
    assert OpOk(o, s.previews);
    CompleteTables(s, r.op);
    TablesKeep(s, s1);
    assert RequestOk(r, s1.ops, s1.results, s1.previews, s1.live);
    PutKeeps(s1, p, r.(pc := Done));
  }

  lemma CompleteTables(s: State, op: Id)
    requires OpsOk(s.ops, s.previews) && RowsOk(s.results, s.ops, s.previews) && CompletedOk(s.ops, s.results)
    requires PinOk(s.ops, s.previews, s.live, s.window, s.clock)
    requires op in s.ops && forall x :: x in s.ops[op].items ==> (op, x) in s.results
    ensures var ops' := s.ops[op := s.ops[op].(completed := true)];
      && OpsGrow(s.ops, ops') && OpsOk(ops', s.previews) && RowsOk(s.results, ops', s.previews)
      && CompletedOk(ops', s.results) && PinOk(ops', s.previews, s.live, s.window, s.clock)
  {
    var ops' := s.ops[op := s.ops[op].(completed := true)];
    forall k | k in s.results ensures RowOk(k, s.results[k], ops', s.previews) {
      assert RowOk(k, s.results[k], s.ops, s.previews);
    }
    forall o | o in ops' ensures OpOk(ops'[o], s.previews) {
      assert OpOk(s.ops[o], s.previews);
    }
  }

  // ----- everything else that runs beside the requesters -----

  /** A step that touches nothing but the ledger rows and the audit log. */
  lemma LedgerKeeps(s: State, s': State)
    requires Inv(s) && s' == s.(db := s'.db, audit := s'.audit) && s.audit <= s'.audit
    requires DbGrows(s.db, s'.db) && AuditOk(s'.audit, s'.db.txs) && LinkOk(s'.audit, s'.results)
    ensures Inv(s') && Grows(s, s')
  {
  }

  lemma InvTables(s: State)
    requires Inv(s)
    ensures TablesOk(s) && AllOk(s)
  {
  }

  lemma WriteTxKeeps(s: State, tx: Id, content: Transaction)
    requires Inv(s)
    ensures var s' := WriteTransaction(s, tx, content); Inv(s') && Grows(s, s')
  {
    hide Inv, Grows;
    var s' := WriteTransaction(s, tx, content);
    assert AuditOk(s.audit, s.db.txs) && LinkOk(s.audit, s.results) by { InvTables(s); }
    WriteAudit(s.audit, s'.audit, s.db.txs, tx, s'.db.txs[tx]);
    WriteLinks(s.audit, s'.audit, tx, s.results);
    WriteRow(s.db, s'.db, tx);
    LedgerKeeps(s, s');
  }

  lemma WriteRow(db: Db, db': Db, tx: Id)
    requires tx in db'.txs && db' == db.(txs := db.txs[tx := db'.txs[tx]])
    requires tx in db.txs ==> db.txs[tx].version < db'.txs[tx].version
    ensures DbGrows(db, db')
  {
  }

  lemma WriteAudit(audit: seq<Write>, audit': seq<Write>, txs: map<Id, Transaction>, tx: Id, row: Transaction)
    requires AuditOk(audit, txs)
    requires tx in txs ==> row.version == txs[tx].version + 1 && audit' == audit + [Write(tx, txs[tx].version, None)]
    requires tx !in txs ==> audit' == audit
    ensures AuditOk(audit', txs[tx := row]) && audit <= audit'
  {
  }

  lemma WriteLinks(audit: seq<Write>, audit': seq<Write>, tx: Id, results: map<(Id, Id), ResultRow>)
    requires LinkOk(audit, results)
    requires audit' == audit || exists version :: audit' == audit + [Write(tx, version, None)]
    ensures LinkOk(audit', results)
  {
    forall k | k in results && results[k].result.status == Applied
      ensures exists i :: EffectAt(audit', i, k.0, results[k])
    {
      var i :| EffectAt(audit, i, k.0, results[k]);
      assert EffectAt(audit', i, k.0, results[k]);
    }
  }

  /** A rule command that leaves the revision alone leaves the matcher's view alone. */
  lemma RuleStepView(db: Db, c: Command)
    ensures DbGrows(db, RuleStep(db, c))
  {
    var db' := RuleStep(db, c);
    if db'.ruleSet == db.ruleSet && db' != db {
      assert Semantics(db'.rules[c.id]) == Semantics(db.rules[c.id]);
      assert db'.rules[c.id].createdAt == db.rules[c.id].createdAt;
      assert Current(db'.rules[c.id]) == Current(db.rules[c.id]);
      assert View(db'.rules) == View(db.rules);
    }
  }

  lemma ItemNames(db: Db, tx: Id)
    ensures var item := MakeItem(db, tx);
      item.tx == tx && (item.status == PreviewMatched ==> item.proposal.Some? && item.txVersion.Some?)
  {
  }

  lemma BuildFits(s: State, itemIds: seq<Id>, txIds: seq<Id>)
    requires |itemIds| == |txIds| && Distinct(itemIds) && Distinct(txIds)
    ensures ItemsOk(BuildPreview(s, itemIds, txIds).items)
  {
    forall k | 0 <= k < |txIds| { ItemNames(s.db, txIds[k]); }
    NamesFit(BuildPreview(s, itemIds, txIds).items, itemIds, txIds);
  }

  lemma NamesFit(items: map<Id, Item>, itemIds: seq<Id>, txIds: seq<Id>)
    requires |itemIds| == |txIds| && Distinct(itemIds) && Distinct(txIds)
    requires forall x :: x in items <==> x in itemIds
    requires forall k :: 0 <= k < |itemIds| ==> items[itemIds[k]].tx == txIds[k]
    requires forall k :: 0 <= k < |itemIds| ==>
      (items[itemIds[k]].status == PreviewMatched ==> items[itemIds[k]].proposal.Some? && items[itemIds[k]].txVersion.Some?)
    ensures ItemsOk(items)
  {
    forall x, y | x in items && y in items && x != y
      ensures items[x].tx != items[y].tx
    {
      var i :| 0 <= i < |itemIds| && itemIds[i] == x;
      var j :| 0 <= j < |itemIds| && itemIds[j] == y;
    }
  }

  /** A new preview beside the stored ones, table by table. */
  lemma CreateTables(s: State, id: Id, previews: map<Id, PreviewRow>)
    requires OpsOk(s.ops, s.previews) && RowsOk(s.results, s.ops, s.previews)
    requires PinOk(s.ops, s.previews, s.live, s.window, s.clock) && PreviewsGrow(s.previews, previews)
    ensures OpsOk(s.ops, previews) && RowsOk(s.results, s.ops, previews)
    ensures PinOk(s.ops, previews, s.live + {id}, s.window, s.clock)
  {
    hide ResultFits;
    forall o | o in s.ops ensures OpOk(s.ops[o], previews) {
      assert OpOk(s.ops[o], s.previews);
    }
    forall k | k in s.results ensures RowOk(k, s.results[k], s.ops, previews) {
      assert RowOk(k, s.results[k], s.ops, s.previews);
    }
    forall o | o in s.ops && !s.ops[o].completed && s.ops[o].preview in previews
      ensures s.ops[o].preview in s.live + {id} || previews[s.ops[o].preview].expiresAt + s.window <= s.clock
    {
      assert OpOk(s.ops[o], s.previews);
    }
  }

  lemma CreateKeeps(s: State, id: Id, preview: PreviewRow)
    requires Inv(s) && id !in s.previews && ItemsOk(preview.items)
    ensures var s' := s.(previews := s.previews[id := preview], live := s.live + {id}); Inv(s') && Grows(s, s')
  {
    var s' := s.(previews := s.previews[id := preview], live := s.live + {id});
    CreateTables(s, id, s'.previews);
    ClaimsLive(s);
    hide OpsOk, RowsOk, PinOk, CompletedOk, AuditOk, LinkOk, ItemsOk, RequestOk;
    TablesKeep(s, s');
  }

  lemma PruneTables(s: State, now: Instant, limit: nat, victims: set<Id>)
    requires PinOk(s.ops, s.previews, s.live, s.window, s.clock)
    requires now <= s.clock && Sweep(s, now, limit, victims)
    ensures PinOk(s.ops, s.previews, s.live - victims, s.window, s.clock)
    ensures forall p :: p in s.requests && s.requests[p].pc == Claiming ==> s.requests[p].preview !in victims
  {
    forall o | o in s.ops && !s.ops[o].completed && s.ops[o].preview in s.previews
      ensures s.ops[o].preview in s.live - victims || s.previews[s.ops[o].preview].expiresAt + s.window <= s.clock
    {
      if s.ops[o].preview in victims {
        assert Prunable(s, now, s.ops[o].preview);
        assert InProgress(s, s.ops[o].preview);
      }
    }
    forall p | p in s.requests && s.requests[p].pc == Claiming
      ensures s.requests[p].preview !in victims
    {
      assert Locked(s, s.requests[p].preview);
    }
  }

  lemma LiveKeeps(s: State, live: set<Id>)
    requires Inv(s) && live <= s.live && PinOk(s.ops, s.previews, live, s.window, s.clock)
    requires forall p :: p in s.requests && s.requests[p].pc == Claiming ==> s.requests[p].preview in live
    ensures Inv(s.(live := live)) && Grows(s, s.(live := live))
  {
    TablesKeep(s, s.(live := live));
  }

  lemma ClaimsLive(s: State)
    requires Inv(s)
    ensures forall p :: p in s.requests && s.requests[p].pc == Claiming ==> s.requests[p].preview in s.live
  {
    forall p | p in s.requests && s.requests[p].pc == Claiming
      ensures s.requests[p].preview in s.live
    {
      assert RequestOk(s.requests[p], s.ops, s.results, s.previews, s.live);
    }
  }

  lemma PruneKeeps(s: State, now: Instant, limit: nat, victims: set<Id>)
    requires Inv(s) && now <= s.clock && Sweep(s, now, limit, victims)
    ensures var s' := s.(live := s.live - victims); Inv(s') && Grows(s, s')
  {
    hide Inv, Grows, Sweep;
    assert PinOk(s.ops, s.previews, s.live, s.window, s.clock) by { InvTables(s); }
    ClaimsLive(s);
    PruneTables(s, now, limit, victims);
    LiveKeeps(s, s.live - victims);
  }

  lemma SpawnKeeps(s: State, p: Id, preview: Id, caller: seq<Id>, key: string)
    requires Inv(s) && p !in s.requests && caller != [] && Distinct(caller)
    ensures var s' := Put(s, p, Request(preview, caller, key, Finding, 0, None, map[], map[], []));
      Inv(s') && Grows(s, s')
  {
    PutKeeps(s, p, Request(preview, caller, key, Finding, 0, None, map[], map[], []));
  }

  // ----- every step, every run -----

  lemma CrashKeeps(s: State, p: Id)
    requires Inv(s) && p in s.requests
    ensures var s' := Put(s, p, s.requests[p].(pc := Dead)); Inv(s') && Grows(s, s')
  {
    RecordEnds(s.requests[p], s);
    PutKeeps(s, p, s.requests[p].(pc := Dead));
  }

  lemma ClaimSteps(s: State, a: Action)
    requires Inv(s) && (a.Spawn? || a.DoFind? || a.DoLock? || a.DoClaim? || a.DoFetch? || a.Crash?)
    ensures Inv(Step(s, a)) && Grows(s, Step(s, a))
  {
    hide Inv, Grows;
    GrowsReflexive(s);
    if Step(s, a) != s {
      match a
      case Spawn(p, preview, caller, key) => SpawnKeeps(s, p, preview, caller, key);
      case DoFind(p) => FindKeeps(s, p);
      case DoLock(p) => LockKeeps(s, p);
      case DoClaim(p, newOp) => ClaimKeeps(s, p, newOp);
      case DoFetch(p) => FetchKeeps(s, p);
      case Crash(p) => CrashKeeps(s, p);
    }
  }

  lemma ItemSteps(s: State, a: Action)
    requires Inv(s) && (a.DoRead? || a.DoLoad? || a.DoItem? || a.DoFail? || a.DoReplay? || a.DoComplete?)
    ensures Inv(Step(s, a)) && Grows(s, Step(s, a))
  {
    hide Inv, Grows;
    GrowsReflexive(s);
    if Step(s, a) != s {
      match a
      case DoRead(p) => ReadKeeps(s, p);
      case DoLoad(p) => LoadKeeps(s, p);
      case DoItem(p, seen) => RunKeeps(s, p, seen);
      case DoFail(p) => FailKeeps(s, p);
      case DoReplay(p) => ReplayKeeps(s, p);
      case DoComplete(p) => CompleteKeeps(s, p);
    }
  }

  lemma LedgerSteps(s: State, a: Action)
    requires Inv(s) && (a.WriteTx? || a.RuleCommand? || a.SetCategory? || a.SetAccount? || a.SetClosed?)
    ensures Inv(Step(s, a)) && Grows(s, Step(s, a))
  {
    hide Inv, Grows;
    match a
    case WriteTx(tx, content) => WriteTxKeeps(s, tx, content);
    case RuleCommand(c) =>
      RuleStepView(s.db, c);
      RowsKeep(s, RuleStep(s.db, c));
    case SetCategory(id, row) =>
      RowsKeep(s, s.db.(categories := s.db.categories[id := row.(version := NextVersion(s.db.categories, id))]));
    case SetAccount(id, row) => RowsKeep(s, s.db.(accounts := s.db.accounts[id := row]));
    case SetClosed(closedBefore) => RowsKeep(s, s.db.(closedBefore := closedBefore));
  }

  /** Rows other than the transactions change. */
  lemma RowsKeep(s: State, db: Db)
    requires Inv(s) && db.txs == s.db.txs && DbGrows(s.db, db)
    ensures Inv(s.(db := db)) && Grows(s, s.(db := db))
  {
    hide Inv, Grows, DbGrows;
    InvTables(s);
    LedgerKeeps(s, s.(db := db));
  }

  lemma PreviewSteps(s: State, a: Action)
    requires Inv(s) && (a.CreatePreview? || a.Tick? || a.Prune?)
    ensures Inv(Step(s, a)) && Grows(s, Step(s, a))
  {
    hide Inv, Grows;
    GrowsReflexive(s);
    if Step(s, a) != s {
      match a
      case CreatePreview(id, itemIds, txIds) =>
        BuildFits(s, itemIds, txIds);
        CreateKeeps(s, id, BuildPreview(s, itemIds, txIds));
      case Tick(now) => TickKeeps(s, now);
      case Prune(now, limit, victims) => PruneKeeps(s, now, limit, victims);
    }
  }

  lemma TickKeeps(s: State, now: Instant)
    requires Inv(s) && s.clock <= now
    ensures Inv(s.(clock := now)) && Grows(s, s.(clock := now))
  {
  }

  lemma StepKeeps(s: State, a: Action)
    requires Inv(s)
    ensures Inv(Step(s, a)) && Grows(s, Step(s, a))
  {
    if a.WriteTx? || a.RuleCommand? || a.SetCategory? || a.SetAccount? || a.SetClosed? {
      LedgerSteps(s, a);
    } else if a.CreatePreview? || a.Tick? || a.Prune? {
      PreviewSteps(s, a);
    } else if a.DoRead? || a.DoLoad? || a.DoItem? || a.DoFail? || a.DoReplay? || a.DoComplete? {
      ItemSteps(s, a);
    } else {
      ClaimSteps(s, a);
    }
  }

  lemma GrowsReflexive(s: State)
    ensures Grows(s, s)
  {
  }

  lemma GrowsTransitive(s: State, s1: State, s2: State)
    requires Grows(s, s1) && Grows(s1, s2)
    ensures Grows(s, s2)
  {
  }

  lemma {:induction false} TraceKeeps(trace: seq<State>, actions: seq<Action>, n: nat)
    requires IsRun(trace, actions) && Inv(trace[0]) && n <= |actions|
    ensures Inv(trace[n]) && Grows(trace[0], trace[n])
  {
    hide Inv, Grows, Step;
    if n == 0 {
      GrowsReflexive(trace[0]);
    } else {
      TraceKeeps(trace, actions, n - 1);
      var a := actions[n - 1];
      StepKeeps(trace[n - 1], a);
      GrowsTransitive(trace[0], trace[n - 1], trace[n]);
    }
  }

  /** Every run keeps the invariant and takes nothing back. */
  lemma RunsKeep(s: State, s': State)
    requires Inv(s) && Leads(s, s')
    ensures Inv(s') && Grows(s, s')
  {
    hide Inv, Grows, Step;
    var trace, actions :| IsRun(trace, actions) && trace[0] == s && trace[|actions|] == s';
    TraceKeeps(trace, actions, |actions|);
  }

  lemma ReachableKeeps(s: State)
    requires Reachable(s)
    ensures Inv(s)
  {
    hide Leads, Step;
    var s0 :| Initial(s0) && Leads(s0, s);
    assert Inv(s0);
    RunsKeep(s0, s);
  }

  lemma LeadsOn(s: State, s': State, a: Action)
    requires Leads(s, s')
    ensures Leads(s, Step(s', a))
  {
    hide Step;
    var trace, actions :| IsRun(trace, actions) && trace[0] == s && trace[|actions|] == s';
    var longer, more := trace + [Step(s', a)], actions + [a];
    forall i {:trigger more[i]} | 0 <= i < |more| ensures longer[i + 1] == Step(longer[i], more[i]) {
      if i < |actions| {
        assert more[i] == actions[i];
      }
    }
    assert IsRun(longer, more);
  }

  lemma MovesNoRequest(s: State, a: Action)
    requires a.WriteTx? || a.RuleCommand? || a.SetCategory? || a.SetAccount? || a.SetClosed?
      || a.CreatePreview? || a.Tick? || a.Prune?
    ensures Step(s, a).requests == s.requests
  {
    hide RuleStep, BuildPreview, Sweep;
  }

  lemma LeadsFurther(s: State, s1: State, s2: State)
    requires Leads(s, s1) && Leads(s1, s2)
    ensures Leads(s, s2)
  {
    hide Step;
    var t1, a1 :| IsRun(t1, a1) && t1[0] == s && t1[|a1|] == s1;
    var t2, a2 :| IsRun(t2, a2) && t2[0] == s1 && t2[|a2|] == s2;
    var t, a := t1 + t2[1..], a1 + a2;
    forall i {:trigger a[i]} | 0 <= i < |a| ensures t[i + 1] == Step(t[i], a[i]) {
      if i < |a1| {
        assert a[i] == a1[i];
      } else {
        assert a[i] == a2[i - |a1|];
      }
    }
    assert IsRun(t, a);
  }
}
