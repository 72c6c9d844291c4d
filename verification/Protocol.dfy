/** The bulk apply protocol as a step system: the shared tables, any number of requesters with a program
    counter each, the ledger commands that run beside them, the prune sweep and crashes. A step is one
    statement or one commit of the source. */
module Protocol {
  import opened Domain
  import opened RuleSet
  import opened Executor
  import opened Preview

  datatype ItemResult = ItemResult(
    item: Id,
    tx: Option<Id>,
    status: ApplyStatus,
    error: Option<string>,
    expected: Option<nat>,
    current: Option<nat>)

  datatype ResultRow = ResultRow(sequence: nat, result: ItemResult)

  /** The request hash is an injective function of the preview and the canonical items, so the row keeps
      those two in its place. */
  datatype Operation = Operation(key: string, preview: Id, items: seq<Id>, completed: bool)

  /** One audit entry of a transaction write: the version it replaced and the operation that caused it. */
  datatype Write = Write(tx: Id, version: nat, cause: Option<Id>)

  datatype Pc = Finding | Locking | Claiming | Fetching | Reading | Loading | Running | Conflicted | Done | Dead

  datatype Request = Request(
    preview: Id,
    caller: seq<Id>,
    key: string,
    pc: Pc,
    op: Id,
    ruleSet: Option<nat>,
    persisted: map<Id, ItemResult>,
    items: map<Id, Item>,
    collected: seq<ItemResult>)

  /** `previews` keeps every preview ever committed and `live` those not yet pruned. The key of `results`
      is the unique constraint on (operation, item). `window` is the configured recovery window. */
  datatype State = State(
    db: Db,
    clock: Instant,
    window: nat,
    previews: map<Id, PreviewRow>,
    live: set<Id>,
    ops: map<Id, Operation>,
    results: map<(Id, Id), ResultRow>,
    audit: seq<Write>,
    requests: map<Id, Request>)

  const PREVIEW_TTL: int := 24 * 3600 * 1_000_000

  // ----- one item -----

  function Ineligible(s: PreviewStatus): Option<ApplyStatus> {
    match s
    case PreviewNoMatch => Some(NoMatch)
    case PreviewCategorized => Some(AlreadyCategorized)
    case PreviewSplit => Some(HasSplits)
    case PreviewTransfer => Some(IsTransfer)
    case PreviewReconciled => Some(IsReconciled)
    case PreviewClosed => Some(ClosedPeriod)
    case PreviewNotFound => Some(NotFound)
    case PreviewMatched => None
  }

  function Plain(item: Id, tx: Option<Id>, status: ApplyStatus): ItemResult {
    ItemResult(item, tx, status, ErrorCode(status), None, None)
  }

  /** `row` is what is inserted, `reply` what this run answers; `Abort` is an error that leaves the
      request. */
  datatype Work = Commit(row: ItemResult, reply: ItemResult, db: Db, writes: seq<Write>) | Abort

  ghost function Process(db: Db, seen: map<Id, Category>, op: Id, ruleSet: nat, id: Id, item: Option<Item>): Work {
    match item
    case None =>
      Commit(Plain(id, None, NotFound), Plain(id, None, NotFound), db, [])
    case Some(it) =>
      var ineligible := Ineligible(it.status);
      if ineligible.Some? then
        var row := Plain(id, Some(it.tx), ineligible.value);
        Commit(row, row.(expected := it.txVersion), db, [])
      else if it.proposal == None || it.txVersion == None then
        Commit(Plain(id, Some(it.tx), NoMatch), Plain(id, Some(it.tx), NoMatch), db, [])
      else
        var e := Expect(it, ruleSet);
        match Decide(db, seen, e)
        case Raised => Abort
        case Terminal(status, _, current) =>
          var row := ItemResult(id, Some(it.tx), status, ErrorCode(status), it.txVersion, current);
          Commit(row, row, Execute(db, seen, e),
                 if status == Applied then [Write(it.tx, it.txVersion.value, Some(op))] else [])
  }

  // ----- the tables -----

  predicate SameRequest(o: Operation, r: Request) {
    o.preview == r.preview && o.items == Canonical(r.caller)
  }

  predicate HasKey(ops: map<Id, Operation>, key: string, op: Id) {
    op in ops && ops[op].key == key
  }

  /** Both unique constraints of the result table allow the insert. */
  predicate Vacant(results: map<(Id, Id), ResultRow>, op: Id, item: Id, sequence: nat) {
    (op, item) !in results && forall k :: k in results && k.0 == op ==> results[k].sequence != sequence
  }

  function LoadItems(s: State, r: Request): map<Id, Item> {
    if r.preview in s.live && r.preview in s.previews then
      var items := s.previews[r.preview].items;
      map x | x in items && x in r.caller :: items[x]
    else
      map[]
  }

  predicate InProgress(s: State, preview: Id) {
    exists o :: o in s.ops && s.ops[o].preview == preview && !s.ops[o].completed
  }

  predicate Locked(s: State, preview: Id) {
    exists p :: p in s.requests && s.requests[p].pc == Claiming && s.requests[p].preview == preview
  }

  /** The prune predicate; the recovery boundary is inclusive. */
  predicate Prunable(s: State, now: Instant, preview: Id) {
    && preview in s.live && preview in s.previews
    && s.previews[preview].expiresAt <= now
    && (!InProgress(s, preview) || s.previews[preview].expiresAt <= now - s.window)
  }

  predicate Older(s: State, x: Id, y: Id)
    requires x in s.previews && y in s.previews
  {
    var a, b := s.previews[x].expiresAt, s.previews[y].expiresAt;
    a < b || (a == b && x < y)
  }

  /** One sweep takes the oldest prunable previews nobody has locked, at most `limit` of them. */
  ghost predicate Sweep(s: State, now: Instant, limit: nat, victims: set<Id>) {
    && (forall x :: x in victims ==> Prunable(s, now, x) && !Locked(s, x))
    && |victims| <= limit
    && (|victims| < limit ==> forall x :: Prunable(s, now, x) && !Locked(s, x) ==> x in victims)
    && (forall x, y :: x in victims && y !in victims && Prunable(s, now, y) && !Locked(s, y) ==> Older(s, x, y))
  }

  // ----- steps of one requester -----

  function Put(s: State, p: Id, r: Request): State {
    s.(requests := s.requests[p := r])
  }

  ghost function Find(s: State, p: Id): State
    requires p in s.requests
  {
    var r := s.requests[p];
    if exists op :: HasKey(s.ops, r.key, op) then
      var op :| HasKey(s.ops, r.key, op);
      if SameRequest(s.ops[op], r) then Put(s, p, r.(op := op, pc := Fetching)) else Put(s, p, r.(pc := Dead))
    else
      Put(s, p, r.(pc := Locking))
  }

  /** `get_preview(for_share=True)` with the TTL check. */
  function Lock(s: State, p: Id): State
    requires p in s.requests
  {
    var r := s.requests[p];
    if r.preview in s.live && r.preview in s.previews && s.clock < s.previews[r.preview].expiresAt then
      Put(s, p, r.(pc := Claiming))
    else
      Put(s, p, r.(pc := Dead))
  }

  /** Item validation, insert on conflict do nothing, and the commit that releases the preview lock. An
      uncommitted insert is visible to nobody but the unique index, on which a second insert waits. */
  ghost function Claim(s: State, p: Id, newOp: Id): State
    requires p in s.requests && s.requests[p].preview in s.previews && newOp !in s.ops
  {
    var r := s.requests[p];
    var preview := s.previews[r.preview];
    if !(forall x :: x in r.caller ==> x in preview.items) then Put(s, p, r.(pc := Dead))
    else
      var taken := exists op :: HasKey(s.ops, r.key, op);
      var ops := if taken then s.ops else s.ops[newOp := Operation(r.key, r.preview, Canonical(r.caller), false)];
      assert HasKey(ops, r.key, newOp) || taken;
      var op :| HasKey(ops, r.key, op);
      if SameRequest(ops[op], r) then
        Put(s.(ops := ops), p, r.(op := op, ruleSet := Some(preview.ruleSet), pc := Reading))
      else
        Put(s.(ops := ops), p, r.(pc := Dead))
  }

  /** A known key re-reads its preview without a lock and without the TTL check. */
  function Fetch(s: State, p: Id): State
    requires p in s.requests
  {
    var r := s.requests[p];
    var found := r.preview in s.live && r.preview in s.previews;
    Put(s, p, r.(pc := Reading, ruleSet := if found then Some(s.previews[r.preview].ruleSet) else None))
  }

  function ReadResults(s: State, p: Id): State
    requires p in s.requests
  {
    var r := s.requests[p];
    Put(s, p, r.(pc := Loading, persisted := map x | x in r.caller && (r.op, x) in s.results :: s.results[(r.op, x)].result))
  }

  function Load(s: State, p: Id): State
    requires p in s.requests
  {
    var r := s.requests[p];
    Put(s, p, r.(pc := Running, items := LoadItems(s, r)))
  }

  predicate HasNext(r: Request) {
    r.pc == Running && |r.collected| < |Canonical(r.caller)|
  }

  function Next(r: Request): Id
    requires HasNext(r)
  {
    Canonical(r.caller)[|r.collected|]
  }

  /** One iteration of the item loop: replay a recorded result, or run the item in one transaction whose
      commit holds the mutation, its audit entry and the terminal result together. A unique violation
      rolls everything back; without a rule set the violation leaves the request. */
  ghost function RunItem(s: State, p: Id, seen: map<Id, Category>): State
    requires p in s.requests && HasNext(s.requests[p])
  {
    var r := s.requests[p];
    var id := Next(r);
    if id in r.persisted then
      Put(s, p, r.(collected := r.collected + [r.persisted[id]]))
    else
      var item := if r.ruleSet == None then None else Lookup(r.items, Some(id));
      var ruleSet := if r.ruleSet == None then 0 else r.ruleSet.value;
      var work := Process(s.db, seen, r.op, ruleSet, id, item);
      if work == Abort then
        Put(s, p, r.(pc := Dead))
      else if !Vacant(s.results, r.op, id, |r.collected|) then
        Put(s, p, r.(pc := if r.ruleSet == None then Dead else Conflicted))
      else
        Put(s.(db := work.db,
               audit := s.audit + work.writes,
               results := s.results[(r.op, id) := ResultRow(|r.collected|, work.row)]),
            p, r.(collected := r.collected + [work.reply]))
  }

  /** An unexpected error: the item's transaction is rolled back and `failed` is recorded in a fresh one.
      If that insert fails too, the request ends and the item stays unattempted. */
  function FailItem(s: State, p: Id): State
    requires p in s.requests && HasNext(s.requests[p])
  {
    var r := s.requests[p];
    var id := Next(r);
    var item := Lookup(r.items, Some(id));
    var failure := Plain(id, if item == None then None else Some(item.value.tx), Failed);
    if id in r.persisted || r.ruleSet == None then s
    else if !Vacant(s.results, r.op, id, |r.collected|) then Put(s, p, r.(pc := Dead))
    else
      Put(s.(results := s.results[(r.op, id) := ResultRow(|r.collected|, failure)]),
          p, r.(collected := r.collected + [failure], items := LoadItems(s, r)))
  }

  /** After a unique violation the committed result is re-read. Without one the request ends. */
  function Replay(s: State, p: Id): State
    requires p in s.requests && s.requests[p].pc == Conflicted
    requires |s.requests[p].collected| < |Canonical(s.requests[p].caller)|
  {
    var r := s.requests[p];
    var id := Canonical(r.caller)[|r.collected|];
    if (r.op, id) in s.results then
      Put(s, p, r.(collected := r.collected + [s.results[(r.op, id)].result], items := LoadItems(s, r), pc := Running))
    else
      Put(s, p, r.(pc := Dead))
  }

  function Complete(s: State, p: Id): State
    requires p in s.requests && s.requests[p].op in s.ops
  {
    var r := s.requests[p];
    Put(s.(ops := s.ops[r.op := s.ops[r.op].(completed := true)]), p, r.(pc := Done))
  }

  // ----- the step relation -----

  datatype Action =
    | Spawn(p: Id, preview: Id, caller: seq<Id>, key: string)
    | DoFind(p: Id)
    | DoLock(p: Id)
    | DoClaim(p: Id, newOp: Id)
    | DoFetch(p: Id)
    | DoRead(p: Id)
    | DoLoad(p: Id)
    | DoItem(p: Id, seen: map<Id, Category>)
    | DoFail(p: Id)
    | DoReplay(p: Id)
    | DoComplete(p: Id)
    | Crash(p: Id)
    | WriteTx(tx: Id, content: Transaction)
    | RuleCommand(command: Command)
    | SetCategory(category: Id, categoryRow: Category)
    | SetAccount(account: Id, accountRow: Account)
    | SetClosed(closedBefore: Option<Instant>)
    | CreatePreview(preview: Id, itemIds: seq<Id>, txIds: seq<Id>)
    | Tick(now: Instant)
    | Prune(now: Instant, limit: nat, victims: set<Id>)

  predicate At(s: State, p: Id, pc: Pc) {
    p in s.requests && s.requests[p].pc == pc
  }

  /** A transaction command of any other service: the row is created with version 1, or replaced with
      its version raised by one. */
  function WriteTransaction(s: State, tx: Id, content: Transaction): State {
    if tx in s.db.txs then
      var version := s.db.txs[tx].version;
      s.(db := s.db.(txs := s.db.txs[tx := content.(version := version + 1)]),
         audit := s.audit + [Write(tx, version, None)])
    else
      s.(db := s.db.(txs := s.db.txs[tx := content.(version := 1)]))
  }

  function NextVersion(categories: map<Id, Category>, id: Id): nat {
    if id in categories then categories[id].version + 1 else 1
  }

  ghost function BuildPreview(s: State, itemIds: seq<Id>, txIds: seq<Id>): PreviewRow
    requires |itemIds| == |txIds| && Distinct(itemIds)
  {
    PreviewRow(s.db.ruleSet, s.clock + PREVIEW_TTL,
               map k | 0 <= k < |itemIds| :: itemIds[k] := MakeItem(s.db, txIds[k]))
  }

  /** A disabled action leaves the state alone. */
  ghost function Step(s: State, a: Action): State {
    match a
    case Spawn(p, preview, caller, key) =>
      if p !in s.requests && caller != [] && Distinct(caller) then
        Put(s, p, Request(preview, caller, key, Finding, 0, None, map[], map[], []))
      else s
    case DoFind(p) => if At(s, p, Finding) then Find(s, p) else s
    case DoLock(p) => if At(s, p, Locking) then Lock(s, p) else s
    case DoClaim(p, newOp) =>
      if At(s, p, Claiming) && s.requests[p].preview in s.previews && newOp !in s.ops then Claim(s, p, newOp) else s
    case DoFetch(p) => if At(s, p, Fetching) then Fetch(s, p) else s
    case DoRead(p) => if At(s, p, Reading) then ReadResults(s, p) else s
    case DoLoad(p) => if At(s, p, Loading) then Load(s, p) else s
    case DoItem(p, seen) => if p in s.requests && HasNext(s.requests[p]) then RunItem(s, p, seen) else s
    case DoFail(p) => if p in s.requests && HasNext(s.requests[p]) then FailItem(s, p) else s
    case DoReplay(p) =>
      if At(s, p, Conflicted) && |s.requests[p].collected| < |Canonical(s.requests[p].caller)| then Replay(s, p) else s
    case DoComplete(p) =>
      if At(s, p, Running) && !HasNext(s.requests[p]) && s.requests[p].op in s.ops then Complete(s, p) else s
    case Crash(p) => if p in s.requests && s.requests[p].pc != Done then Put(s, p, s.requests[p].(pc := Dead)) else s
    case WriteTx(tx, content) => WriteTransaction(s, tx, content)
    case RuleCommand(c) => s.(db := RuleStep(s.db, c))
    case SetCategory(id, row) =>
      s.(db := s.db.(categories := s.db.categories[id := row.(version := NextVersion(s.db.categories, id))]))
    case SetAccount(id, row) => s.(db := s.db.(accounts := s.db.accounts[id := row]))
    case SetClosed(closedBefore) => s.(db := s.db.(closedBefore := closedBefore))
    case CreatePreview(id, itemIds, txIds) =>
      if id !in s.previews && |itemIds| == |txIds| && Distinct(itemIds) && Distinct(txIds) then
        s.(previews := s.previews[id := BuildPreview(s, itemIds, txIds)], live := s.live + {id})
      else s
    case Tick(now) => if s.clock <= now then s.(clock := now) else s
    case Prune(now, limit, victims) =>
      if now <= s.clock && Sweep(s, now, limit, victims) then s.(live := s.live - victims) else s
  }

  ghost predicate Initial(s: State) {
    s.previews == map[] && s.live == {} && s.ops == map[] && s.results == map[] && s.audit == [] && s.requests == map[]
  }

  /** Each action leads from one state of the trace to the next. */
  ghost predicate IsRun(trace: seq<State>, actions: seq<Action>) {
    && |trace| == |actions| + 1
    && forall i {:trigger actions[i]} :: 0 <= i < |actions| ==> trace[i + 1] == Step(trace[i], actions[i])
  }

  ghost predicate Leads(s: State, s': State) {
    exists trace, actions :: IsRun(trace, actions) && trace[0] == s && trace[|actions|] == s'
  }

  /** Some run from empty apply tables, over any ledger, ends in `s`. */
  ghost predicate Reachable(s: State) {
    exists s0 :: Initial(s0) && Leads(s0, s)
  }

  // ----- what the caller gets -----

  /** The response follows the order the caller submitted. */
  ghost predicate Responds(r: Request, response: seq<ItemResult>) {
    && |response| == |r.caller|
    && forall i :: 0 <= i < |r.caller| ==> response[i] in r.collected && response[i].item == r.caller[i]
  }
}
