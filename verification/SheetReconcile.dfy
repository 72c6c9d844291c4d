/** The reconciliation of a sheet snapshot with the database: batches are accumulated, then every row gets a
    verdict and every entity of the database is accounted for exactly once. */
module SheetReconcile {
  import opened Domain
  import opened Sums
  import opened RuleSet

  datatype EntityType = AccountEntity | CategoryEntity | TransactionEntity

  type Key = (EntityType, Id)

  /** `syncStatus` is in upper case. */
  datatype Row = Row(key: Key, number: int, version: int, hash: string, syncStatus: string)

  /** An entity of the database with the hash its row should carry. */
  datatype Entity = Entity(version: int, hash: string)

  datatype Verdict =
    | DuplicateInSheet | UnknownInSheet | TechnicalTamper | Conflict | Matched | SheetNewer | DatabaseNewer
    | MissingInSheet

  // ----- accumulating a snapshot -----

  /** The pushed rows of every open snapshot, by binding and snapshot id. */
  type Buffer = map<string, seq<Row>>

  datatype Batch = Batch(snapshot: string, rows: seq<Row>, final: bool)

  function Pushed(b: Buffer, snapshot: string): seq<Row> {
    if snapshot in b then b[snapshot] else []
  }

  /** One request: push, and on the final batch hand out everything and forget it. */
  function Accumulate(b: Buffer, batch: Batch): (Buffer, Option<seq<Row>>) {
    var all := Pushed(b, batch.snapshot) + batch.rows;
    if batch.final then (b - {batch.snapshot}, Some(all)) else (b[batch.snapshot := all], None)
  }

  function AccumulateAll(b: Buffer, batches: seq<Batch>): Buffer
    decreases |batches|
  {
    if batches == [] then b else Accumulate(AccumulateAll(b, batches[..|batches| - 1]), batches[|batches| - 1]).0
  }

  /** The rows of one snapshot among the batches, in order. */
  function RowsOf(batches: seq<Batch>, snapshot: string): seq<Row> {
    if batches == [] then []
    else
      var last := batches[|batches| - 1];
      RowsOf(batches[..|batches| - 1], snapshot) + if last.snapshot == snapshot then last.rows else []
  }

  /** However a snapshot is cut into batches, and whatever other snapshots are sent in between, the final
      batch yields all its rows in order, and nothing of it is left behind. */
  lemma CutsDoNotMatter(b: Buffer, batches: seq<Batch>, last: Batch)
    requires last.final && last.snapshot !in b
    requires forall i :: 0 <= i < |batches| && batches[i].snapshot == last.snapshot ==> !batches[i].final
    ensures var (after, rows) := Accumulate(AccumulateAll(b, batches), last);
      rows == Some(RowsOf(batches + [last], last.snapshot)) && last.snapshot !in after
  {
    PushedSoFar(b, batches, last.snapshot);
    assert (batches + [last])[..|batches|] == batches;
  }

  lemma {:induction false} PushedSoFar(b: Buffer, batches: seq<Batch>, snapshot: string)
    requires snapshot !in b
    requires forall i :: 0 <= i < |batches| && batches[i].snapshot == snapshot ==> !batches[i].final
    ensures Pushed(AccumulateAll(b, batches), snapshot) == RowsOf(batches, snapshot)
    decreases |batches|
  {
    if batches != [] {
      PushedSoFar(b, batches[..|batches| - 1], snapshot);
    }
  }

  // ----- verdicts -----

  function CountOf(rows: seq<Row>, k: Key): nat {
    if rows == [] then 0
    else CountOf(rows[..|rows| - 1], k) + if rows[|rows| - 1].key == k then 1 else 0
  }

  predicate Duplicated(rows: seq<Row>, k: Key) {
    CountOf(rows, k) > 1
  }

  function VerdictOf(rows: seq<Row>, database: map<Key, Entity>, row: Row): Verdict {
    if Duplicated(rows, row.key) then DuplicateInSheet
    else if row.key !in database then UnknownInSheet
    else
      var entity := database[row.key];
      if Contains(row.syncStatus, "TAMPER") then TechnicalTamper
      else if row.syncStatus == "DIRTY" || row.syncStatus == "PENDING" || row.syncStatus == "ERROR" then Conflict
      else if row.version == entity.version && row.hash == entity.hash then Matched
      else if row.version > entity.version then SheetNewer
      else if row.version < entity.version then DatabaseNewer
      else Conflict
  }

  function VerdictCount(rows: seq<Row>, database: map<Key, Entity>, n: nat, v: Verdict): nat
    requires n <= |rows|
  {
    if n == 0 then 0
    else VerdictCount(rows, database, n - 1, v) + if VerdictOf(rows, database, rows[n - 1]) == v then 1 else 0
  }

  datatype ActionKind = Ignore | ConflictAction | Pull

  datatype SheetAction = SheetAction(kind: ActionKind, key: Key, number: Option<int>, reason: Verdict)

  /** `matched` records the keys whose row was left alone. */
  datatype Report = Report(
    counts: map<Verdict, int>,
    matched: seq<Key>,
    conflicts: seq<Key>,
    upserts: seq<Key>,
    actions: seq<SheetAction>,
    seen: set<Key>)

  /** How often the report accounts for `k`: matched, in conflict or queued for upsert. */
  function Accounted(r: Report, k: Key): nat {
    multiset(r.matched)[k] + multiset(r.conflicts)[k] + multiset(r.upserts)[k]
  }

  /** The database keys that no unambiguous row stands for. */
  function Unseen(rows: seq<Row>, database: map<Key, Entity>): set<Key> {
    set k | k in database && (Duplicated(rows, k) || CountOf(rows, k) == 0)
  }

  /** The report after the first `n` rows. */
  ghost predicate RowsReported(rows: seq<Row>, database: map<Key, Entity>, n: nat, r: Report)
    requires n <= |rows|
  {
    && (forall k :: Accounted(r, k) == if k in database && !Duplicated(rows, k) then CountOf(rows[..n], k) else 0)
    && (forall k :: k in r.seen <==> !Duplicated(rows, k) && CountOf(rows[..n], k) > 0)
    && (forall v :: Get(r.counts, v) == VerdictCount(rows, database, n, v))
    && Total(r.counts) == n
    && |r.actions| + |r.matched| == n
  }

  lemma {:induction false} CountGrows(rows: seq<Row>, n: nat, k: Key)
    requires n <= |rows|
    ensures CountOf(rows[..n], k) <= CountOf(rows, k)
    decreases |rows| - n
  {
    if n < |rows| {
      CountGrows(rows, n + 1, k);
      assert rows[..n + 1][..n] == rows[..n];
    } else {
      assert rows[..n] == rows;
    }
  }

  function Bump(counts: map<Verdict, int>, v: Verdict): map<Verdict, int> {
    counts[v := Get(counts, v) + 1]
  }

  /** The report with one more row. */
  function AddRow(r: Report, row: Row, v: Verdict): Report {
    var counted := r.(counts := Bump(r.counts, v), seen := if v == DuplicateInSheet then r.seen else r.seen + {row.key});
    match v
    case DuplicateInSheet => counted.(actions := r.actions + [SheetAction(Ignore, row.key, Some(row.number), v)])
    case UnknownInSheet => counted.(actions := r.actions + [SheetAction(Ignore, row.key, Some(row.number), v)])
    case Matched => counted.(matched := r.matched + [row.key])
    case _ =>
      if v == SheetNewer || v == Conflict then
        counted.(conflicts := r.conflicts + [row.key],
                 actions := r.actions + [SheetAction(ConflictAction, row.key, Some(row.number), v)])
      else
        counted.(upserts := r.upserts + [row.key],
                 actions := r.actions + [SheetAction(Pull, row.key, Some(row.number), v)])
  }

  lemma CountStep(rows: seq<Row>, n: nat, k: Key)
    requires n < |rows|
    ensures CountOf(rows[..n + 1], k) == CountOf(rows[..n], k) + if rows[n].key == k then 1 else 0
  {
    assert rows[..n + 1][..n] == rows[..n];
  }

  /** A row adds one to its own key, unless it is ignored. */
  lemma RowAccounted(r: Report, row: Row, v: Verdict, k: Key)
    requires v != MissingInSheet
    ensures Accounted(AddRow(r, row, v), k) ==
      Accounted(r, k) + if k == row.key && v != DuplicateInSheet && v != UnknownInSheet then 1 else 0
    ensures |AddRow(r, row, v).actions| + |AddRow(r, row, v).matched| == |r.actions| + |r.matched| + 1
    ensures AddRow(r, row, v).counts == Bump(r.counts, v)
    ensures AddRow(r, row, v).seen == if v == DuplicateInSheet then r.seen else r.seen + {row.key}
  {
  }

  lemma VerdictMeans(rows: seq<Row>, database: map<Key, Entity>, row: Row)
    ensures var v := VerdictOf(rows, database, row);
      && v != MissingInSheet
      && (v == DuplicateInSheet <==> Duplicated(rows, row.key))
      && (!Duplicated(rows, row.key) ==> (v == UnknownInSheet <==> row.key !in database))
  {
    hide Contains, Duplicated;
  }

  lemma RowStep(rows: seq<Row>, database: map<Key, Entity>, n: nat, r: Report)
    requires n < |rows| && RowsReported(rows, database, n, r)
    ensures RowsReported(rows, database, n + 1, AddRow(r, rows[n], VerdictOf(rows, database, rows[n])))
  {
    hide VerdictOf, AddRow, Accounted, Duplicated, Total, CountOf;
    var row, v := rows[n], VerdictOf(rows, database, rows[n]);
    var r' := AddRow(r, row, v);
    VerdictMeans(rows, database, row);
    TotalAdd(r.counts, v, 1);
    forall k
      ensures Accounted(r', k) == if k in database && !Duplicated(rows, k) then CountOf(rows[..n + 1], k) else 0
      ensures k in r'.seen <==> !Duplicated(rows, k) && CountOf(rows[..n + 1], k) > 0
    {
      RowAccounted(r, row, v, k);
      CountStep(rows, n, k);
    }
    RowAccounted(r, row, v, row.key);
    assert forall w :: Get(r'.counts, w) == VerdictCount(rows, database, n + 1, w);
  }

  /** One iteration of the row loop. */
  method TakeRow(rows: seq<Row>, database: map<Key, Entity>, row: Row, r: Report) returns (after: Report)
    ensures after == AddRow(r, row, VerdictOf(rows, database, row))
  {
    if Duplicated(rows, row.key) {
      after := r.(counts := Bump(r.counts, DuplicateInSheet),
                  actions := r.actions + [SheetAction(Ignore, row.key, Some(row.number), DuplicateInSheet)]);
      return;
    }
    after := r.(seen := r.seen + {row.key});
    if row.key !in database {
      after := after.(counts := Bump(r.counts, UnknownInSheet),
                      actions := r.actions + [SheetAction(Ignore, row.key, Some(row.number), UnknownInSheet)]);
      return;
    }
    var entity, result := database[row.key], Conflict;
    if Contains(row.syncStatus, "TAMPER") {
      result := TechnicalTamper;
    } else if row.syncStatus == "DIRTY" || row.syncStatus == "PENDING" || row.syncStatus == "ERROR" {
      result := Conflict;
    } else if row.version == entity.version && row.hash == entity.hash {
      after := after.(counts := Bump(r.counts, Matched), matched := r.matched + [row.key]);
      return;
    } else if row.version > entity.version {
      result := SheetNewer;
    } else if row.version < entity.version {
      result := DatabaseNewer;
    }
    after := after.(counts := Bump(r.counts, result));
    var kind;
    if result == SheetNewer || result == Conflict {
      after := after.(conflicts := r.conflicts + [row.key]);
      kind := ConflictAction;
    } else {
      after := after.(upserts := r.upserts + [row.key]);
      kind := Pull;
    }
    after := after.(actions := r.actions + [SheetAction(kind, row.key, Some(row.number), result)]);
  }

  /** The loops of `reconcile` after the snapshot is complete. */
  method Reconcile(rows: seq<Row>, database: map<Key, Entity>) returns (r: Report)
    ensures Reported(rows, database, r) && Lands(rows, database, r)
  {
    hide VerdictOf, RowsReported, MissingReported, Reported, AddRow, Unseen, RowsLanded, Lands;
    r := Report(map[], [], [], [], [], {});
    NothingReported(rows, database, r);
    NothingLanded(rows, database, r);
    for n := 0 to |rows|
      invariant RowsReported(rows, database, n, r) && RowsLanded(rows, database, n, r)
    {
      RowStep(rows, database, n, r);
      LandStep(rows, database, n, r);
      r := TakeRow(rows, database, rows[n], r);
    }
    ghost var first := r;
    r := QueueUnseen(rows, database, r);
    Finish(rows, database, first, r);
    Landing(rows, database, first, r);
  }

  /** The loop over the database after the rows. */
  method QueueUnseen(ghost rows: seq<Row>, database: map<Key, Entity>, first: Report) returns (r: Report)
    requires RowsReported(rows, database, |rows|, first)
    ensures MissingReported(rows, database, first, Unseen(rows, database), r)
    ensures r.matched == first.matched && r.conflicts == first.conflicts
    ensures forall x :: x in r.upserts <==> x in first.upserts || x in Unseen(rows, database)
  {
    hide RowsReported, MissingReported, Unseen;
    r := first;
    var rest := database.Keys - r.seen;
    ghost var done: set<Key> := {};
    MissingStart(rows, database, r);
    while rest != {}
      invariant rest !! done && rest + done == Unseen(rows, database)
      invariant MissingReported(rows, database, first, done, r)
      invariant r.matched == first.matched && r.conflicts == first.conflicts
      invariant forall x :: x in r.upserts <==> x in first.upserts || x in done
      decreases |rest|
    {
      var k :| k in rest;
      MissingStep(rows, database, first, done, r, k);
      r := QueueMissing(r, k);
      rest := rest - {k};
      done := done + {k};
    }
    assert done == Unseen(rows, database);
  }

  // ----- where each entity of the database lands -----

  predicate Single(rows: seq<Row>, k: Key, i: int) {
    0 <= i < |rows| && rows[i].key == k && forall j :: 0 <= j < |rows| && j != i ==> rows[j].key != k
  }

  ghost predicate Tampered(row: Row) {
    StandsIn("TAMPER", row.syncStatus)
  }

  predicate Unsettled(row: Row) {
    row.syncStatus in {"DIRTY", "PENDING", "ERROR"}
  }

  ghost predicate SameInSheet(row: Row, e: Entity) {
    !Tampered(row) && !Unsettled(row) && row.version == e.version && row.hash == e.hash
  }

  /** The sheet may hold something the database does not have yet, or differs at the same version. */
  ghost predicate SheetDiffers(row: Row, e: Entity) {
    !Tampered(row) && (Unsettled(row) || row.version > e.version || (row.version == e.version && row.hash != e.hash))
  }

  /** The row is not to be trusted, or is older than the database. */
  ghost predicate SheetStale(row: Row, e: Entity) {
    Tampered(row) || (!Unsettled(row) && row.version < e.version)
  }

  /** Entity `k` has one row of its own that shows this. */
  ghost predicate Shows(rows: seq<Row>, k: Key, e: Entity, shown: (Row, Entity) -> bool) {
    exists i :: Single(rows, k, i) && shown(rows[i], e)
  }

  /** An entity with one row of its own is matched, in conflict, or written over, by what that row shows; one
      without, missing or duplicated, is written over. */
  ghost predicate LandsAt(rows: seq<Row>, e: Entity, r: Report, k: Key) {
    && (k in r.matched <==> Shows(rows, k, e, SameInSheet))
    && (k in r.conflicts <==> Shows(rows, k, e, SheetDiffers))
    && (k in r.upserts <==> !Shows(rows, k, e, AnyRow) || Shows(rows, k, e, SheetStale))
  }

  predicate AnyRow(row: Row, e: Entity) {
    true
  }

  ghost predicate Lands(rows: seq<Row>, database: map<Key, Entity>, r: Report) {
    forall k :: k in database ==> LandsAt(rows, database[k], r, k)
  }

  lemma VerdictExactly(rows: seq<Row>, database: map<Key, Entity>, row: Row)
    requires row.key in database
    ensures var v, e := VerdictOf(rows, database, row), database[row.key];
      !Duplicated(rows, row.key) ==>
        && (v == Matched <==> SameInSheet(row, e))
        && (v == SheetNewer || v == Conflict <==> SheetDiffers(row, e))
        && (v == TechnicalTamper || v == DatabaseNewer <==> SheetStale(row, e))
        && (v == SheetNewer ==> row.version > e.version) && (v == DatabaseNewer ==> row.version < e.version)
        && (v == TechnicalTamper <==> Tampered(row))
  {
    hide Contains, StandsIn, Duplicated;
    ContainsExactly(row.syncStatus, "TAMPER");
  }

  datatype Group = LeftAlone | InConflict | WrittenOver

  predicate Falls(v: Verdict, group: Group) {
    match group
    case LeftAlone => v == Matched
    case InConflict => v == SheetNewer || v == Conflict
    case WrittenOver => v == TechnicalTamper || v == DatabaseNewer
  }

  /** Where the first `n` rows have put their keys. */
  ghost predicate RowsLanded(rows: seq<Row>, database: map<Key, Entity>, n: nat, r: Report)
    requires n <= |rows|
  {
    forall k :: LandedAt(rows, database, n, r, k)
  }

  ghost predicate LandedAt(rows: seq<Row>, database: map<Key, Entity>, n: nat, r: Report, k: Key)
    requires n <= |rows|
  {
    && (k in r.matched <==> Says(rows, database, n, k, LeftAlone))
    && (k in r.conflicts <==> Says(rows, database, n, k, InConflict))
    && (k in r.upserts <==> Says(rows, database, n, k, WrittenOver))
  }

  /** One of the first `n` rows gives its key `k` a verdict of the group. */
  ghost predicate Says(rows: seq<Row>, database: map<Key, Entity>, n: nat, k: Key, group: Group) {
    exists i :: RowSays(rows, database, n, i, k, group)
  }

  predicate RowSays(rows: seq<Row>, database: map<Key, Entity>, n: nat, i: int, k: Key, group: Group) {
    0 <= i < n <= |rows| && rows[i].key == k && Falls(VerdictOf(rows, database, rows[i]), group)
  }

  lemma NothingLanded(rows: seq<Row>, database: map<Key, Entity>, r: Report)
    requires r == Report(map[], [], [], [], [], {})
    ensures RowsLanded(rows, database, 0, r)
  {
  }

  lemma SaysMore(rows: seq<Row>, database: map<Key, Entity>, n: nat, next: nat, k: Key, group: Group)
    requires n < |rows| && next == n + 1
    ensures Says(rows, database, next, k, group) <==>
      Says(rows, database, n, k, group) || (rows[n].key == k && Falls(VerdictOf(rows, database, rows[n]), group))
  {
    hide VerdictOf;
    if i :| RowSays(rows, database, n, i, k, group) {
      assert RowSays(rows, database, next, i, k, group);
    }
    if i :| RowSays(rows, database, next, i, k, group) {
      assert i < n ==> RowSays(rows, database, n, i, k, group);
    }
    if rows[n].key == k && Falls(VerdictOf(rows, database, rows[n]), group) {
      assert RowSays(rows, database, next, n, k, group);
    }
  }

  lemma AddRowLands(r: Report, row: Row, v: Verdict, k: Key)
    requires v != MissingInSheet
    ensures var r' := AddRow(r, row, v);
      && (k in r'.matched <==> k in r.matched || (k == row.key && Falls(v, LeftAlone)))
      && (k in r'.conflicts <==> k in r.conflicts || (k == row.key && Falls(v, InConflict)))
      && (k in r'.upserts <==> k in r.upserts || (k == row.key && Falls(v, WrittenOver)))
  {
  }

  lemma LandStep(rows: seq<Row>, database: map<Key, Entity>, n: nat, r: Report)
    requires n < |rows| && RowsLanded(rows, database, n, r)
    ensures RowsLanded(rows, database, n + 1, AddRow(r, rows[n], VerdictOf(rows, database, rows[n])))
  {
    hide VerdictOf, AddRow, Says;
    var v := VerdictOf(rows, database, rows[n]);
    var r' := AddRow(r, rows[n], v);
    var next := n + 1;
    VerdictMeans(rows, database, rows[n]);
    forall k ensures LandedAt(rows, database, next, r', k) {
      assert LandedAt(rows, database, n, r, k);
      AddRowLands(r, rows[n], v, k);
      SaysMore(rows, database, n, next, k, LeftAlone);
      SaysMore(rows, database, n, next, k, InConflict);
      SaysMore(rows, database, n, next, k, WrittenOver);
    }
  }

  lemma {:induction false} CountsRows(rows: seq<Row>, k: Key)
    ensures CountOf(rows, k) == 0 <==> forall i :: 0 <= i < |rows| ==> rows[i].key != k
    ensures CountOf(rows, k) == 1 <==> exists i :: Single(rows, k, i)
    decreases |rows|
  {
    if rows != [] {
      var n := |rows| - 1;
      var before := rows[..n];
      CountsRows(before, k);
      assert forall i :: 0 <= i < n ==> before[i] == rows[i];
      if rows[n].key == k {
        assert CountOf(before, k) == 0 ==> Single(rows, k, n);
        if i :| Single(rows, k, i) {
          assert i == n;
        }
      } else {
        if i :| Single(before, k, i) {
          assert Single(rows, k, i);
        }
        if i :| Single(rows, k, i) {
          assert Single(before, k, i);
        }
      }
    }
  }

  lemma Landing(rows: seq<Row>, database: map<Key, Entity>, first: Report, r: Report)
    requires RowsLanded(rows, database, |rows|, first)
    requires r.matched == first.matched && r.conflicts == first.conflicts
    requires forall x :: x in r.upserts <==> x in first.upserts || x in Unseen(rows, database)
    ensures Lands(rows, database, r)
  {
    hide VerdictOf, CountOf, Says, Shows;
    forall k | k in database ensures LandsAt(rows, database[k], r, k) {
      assert LandedAt(rows, database, |rows|, first, k);
      CountsRows(rows, k);
      SingleShown(rows, k, database[k]);
      forall i {:trigger rows[i]} | Single(rows, k, i)
        ensures var v, e := VerdictOf(rows, database, rows[i]), database[k];
          && (Falls(v, LeftAlone) <==> SameInSheet(rows[i], e)) && (Falls(v, InConflict) <==> SheetDiffers(rows[i], e))
          && (Falls(v, WrittenOver) <==> SheetStale(rows[i], e))
      {
        VerdictExactly(rows, database, rows[i]);
      }
      SaysShows(rows, database, k, LeftAlone, SameInSheet);
      SaysShows(rows, database, k, InConflict, SheetDiffers);
      SaysShows(rows, database, k, WrittenOver, SheetStale);
    }
  }

  lemma SingleShown(rows: seq<Row>, k: Key, e: Entity)
    ensures Shows(rows, k, e, AnyRow) <==> exists i :: Single(rows, k, i)
  {
    if i :| Single(rows, k, i) {
      assert AnyRow(rows[i], e);
    }
  }

  /** A group of verdicts on an entity stands for what its only row shows. */
  lemma SaysShows(rows: seq<Row>, database: map<Key, Entity>, k: Key, group: Group, shown: (Row, Entity) -> bool)
    requires k in database
    requires forall i {:trigger rows[i]} :: Single(rows, k, i) ==>
      (Falls(VerdictOf(rows, database, rows[i]), group) <==> shown(rows[i], database[k]))
    ensures Says(rows, database, |rows|, k, group) <==> Shows(rows, k, database[k], shown)
  {
    hide VerdictOf, CountOf;
    CountsRows(rows, k);
    if i :| RowSays(rows, database, |rows|, i, k, group) {
      VerdictMeans(rows, database, rows[i]);
      var j :| Single(rows, k, j);
      assert i == j;
    }
    if i :| Single(rows, k, i) && shown(rows[i], database[k]) {
      assert RowSays(rows, database, |rows|, i, k, group);
    }
  }

  function QueueMissing(r: Report, k: Key): Report {
    r.(counts := Bump(r.counts, MissingInSheet), upserts := r.upserts + [k],
       actions := r.actions + [SheetAction(Pull, k, None, MissingInSheet)])
  }

  lemma NothingReported(rows: seq<Row>, database: map<Key, Entity>, r: Report)
    requires r == Report(map[], [], [], [], [], {})
    ensures RowsReported(rows, database, 0, r)
  {
  }

  /** The report once the unseen entities in `done` have been queued. */
  ghost predicate MissingReported(rows: seq<Row>, database: map<Key, Entity>, first: Report, done: set<Key>, r: Report) {
    && (forall k :: Accounted(r, k) == Accounted(first, k) + if k in done then 1 else 0)
    && (forall v :: v != MissingInSheet ==> Get(r.counts, v) == Get(first.counts, v))
    && Get(r.counts, MissingInSheet) == Get(first.counts, MissingInSheet) + |done|
    && Total(r.counts) == Total(first.counts) + |done|
    && |r.actions| == |first.actions| + |done| && r.matched == first.matched
  }

  lemma MissingStart(rows: seq<Row>, database: map<Key, Entity>, r: Report)
    requires RowsReported(rows, database, |rows|, r)
    ensures database.Keys - r.seen == Unseen(rows, database)
    ensures MissingReported(rows, database, r, {}, r)
  {
    assert rows[..|rows|] == rows;
  }

  lemma QueueAccounted(r: Report, k: Key, x: Key)
    ensures Accounted(QueueMissing(r, k), x) == Accounted(r, x) + if x == k then 1 else 0
  {
  }

  lemma MissingStep(rows: seq<Row>, database: map<Key, Entity>, first: Report, done: set<Key>, r: Report, k: Key)
    requires MissingReported(rows, database, first, done, r) && k !in done
    ensures MissingReported(rows, database, first, done + {k}, QueueMissing(r, k))
  {
    hide Total, Accounted;
    TotalAdd(r.counts, MissingInSheet, 1);
    forall x ensures Accounted(QueueMissing(r, k), x) == Accounted(r, x) + if x == k then 1 else 0 {
      QueueAccounted(r, k, x);
    }
  }

  /** Every entity of the database is accounted for exactly once, unknown keys never; the counts are the
      numbers of rows per verdict and of unseen entities, and add up to all rows and all unseen entities;
      everything but a match has an action. */
  ghost predicate Reported(rows: seq<Row>, database: map<Key, Entity>, r: Report) {
    && (forall k :: Accounted(r, k) == if k in database then 1 else 0)
    && (forall v :: v != MissingInSheet ==> Get(r.counts, v) == VerdictCount(rows, database, |rows|, v))
    && Get(r.counts, MissingInSheet) == |Unseen(rows, database)|
    && Total(r.counts) == |rows| + |Unseen(rows, database)|
    && |r.actions| + |r.matched| == |rows| + |Unseen(rows, database)|
  }

  lemma Finish(rows: seq<Row>, database: map<Key, Entity>, first: Report, r: Report)
    requires RowsReported(rows, database, |rows|, first)
    requires MissingReported(rows, database, first, Unseen(rows, database), r)
    ensures Reported(rows, database, r)
  {
    assert rows[..|rows|] == rows;
    NoRowIsMissing(rows, database, |rows|);
    forall k ensures Accounted(r, k) == if k in database then 1 else 0 {
      assert Accounted(r, k) == Accounted(first, k) + if k in Unseen(rows, database) then 1 else 0;
    }
  }

  lemma {:induction false} NoRowIsMissing(rows: seq<Row>, database: map<Key, Entity>, n: nat)
    requires n <= |rows|
    ensures VerdictCount(rows, database, n, MissingInSheet) == 0
  {
    if n > 0 {
      NoRowIsMissing(rows, database, n - 1);
    }
  }
}
