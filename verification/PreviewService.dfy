/** The preview loop with its counters, and the physical pruning of expired previews. */
module PreviewService {
  import opened Domain
  import opened Ordering
  import opened Sums
  import opened RuleSet
  import opened Executor
  import opened Store
  import opened Preview
  import opened Protocol

  class Counts {
    var selected: nat
    var byStatus: map<PreviewStatus, int>

    constructor ()
      ensures selected == 0 && byStatus == map[]
    {
      selected, byStatus := 0, map[];
    }

    method Record(status: PreviewStatus)
      modifies this
      ensures byStatus == old(byStatus)[status := Get(old(byStatus), status) + 1] && selected == old(selected) + 1
    {
      byStatus := byStatus[status := Get(byStatus, status) + 1];
      selected := selected + 1;
    }
  }

  function StatusCount(items: seq<Item>, status: PreviewStatus): nat {
    if items == [] then 0
    else StatusCount(items[..|items| - 1], status) + if items[|items| - 1].status == status then 1 else 0
  }

  method ClassifyItem(w: Workspace, prepared: seq<PreparedRule>, tx: Id) returns (item: Item)
    requires IsPrepared(w.rules, w.categories, prepared)
    ensures item == MakeItem(w.Snapshot(), tx)
  {
    if tx !in w.txs || w.txs[tx].deleted {
      return Item(tx, None, PreviewNotFound, None);
    }
    var t := w.txs[tx];
    if t.txType == Transfer {
      return Item(tx, Some(t.version), PreviewTransfer, None);
    }
    if t.category.Some? {
      return Item(tx, Some(t.version), PreviewCategorized, None);
    }
    if t.splits != [] {
      return Item(tx, Some(t.version), PreviewSplit, None);
    }
    if t.status == Reconciled {
      return Item(tx, Some(t.version), PreviewReconciled, None);
    }
    if w.closedBefore.Some? && t.occurredAt < w.closedBefore.value {
      return Item(tx, Some(t.version), PreviewClosed, None);
    }
    var found := w.Match(t, prepared);
    if found == None {
      return Item(tx, Some(t.version), PreviewNoMatch, None);
    }
    var rule := w.rules[found.value];
    return Item(tx, Some(t.version), PreviewMatched,
                Some(Proposal(found.value, rule.version, rule.content.category, w.categories[rule.content.category].version)));
  }

  /** One item per selected transaction, in the caller's order; the counters are the numbers of items per
      status, and add up to the selection. */
  method CreateItems(w: Workspace, selected: seq<Id>) returns (items: seq<Item>, counts: Counts)
    ensures |items| == |selected| && forall i :: 0 <= i < |selected| ==> items[i] == MakeItem(w.Snapshot(), selected[i])
    ensures fresh(counts) && counts.selected == |selected| == Total(counts.byStatus)
    ensures forall status :: Get(counts.byStatus, status) == StatusCount(items, status)
  {
    hide IsPrepared, MakeItem, Total;
    var prepared := w.PrepareRuleSet();
    counts := new Counts();
    items := [];
    EmptyTotal(counts.byStatus);
    for k := 0 to |selected|
      invariant |items| == k && forall i :: 0 <= i < k ==> items[i] == MakeItem(w.Snapshot(), selected[i])
      invariant fresh(counts) && counts.selected == k == Total(counts.byStatus)
      invariant forall status :: Get(counts.byStatus, status) == StatusCount(items, status)
      invariant IsPrepared(w.rules, w.categories, prepared)
    {
      var item := ClassifyItem(w, prepared, selected[k]);
      TotalAdd(counts.byStatus, item.status, 1);
      counts.Record(item.status);
      assert (items + [item])[..k] == items;
      items := items + [item];
    }
  }

  lemma EmptyTotal(byStatus: map<PreviewStatus, int>)
    requires byStatus == map[]
    ensures Total(byStatus) == 0
  {
  }

  /** The preview has expired, no request holds its lock, and no unfinished operation needs it: either there is
      none, or the recovery window is over too. */
  ghost predicate MayGo(s: State, now: Instant, x: Id) {
    && x in s.live && x in s.previews && s.previews[x].expiresAt <= now
    && (forall p :: p in s.requests && s.requests[p].pc == Claiming ==> s.requests[p].preview != x)
    && ((forall o :: o in s.ops && s.ops[o].preview == x ==> s.ops[o].completed) || s.previews[x].expiresAt + s.window <= now)
  }

  /** Only such previews are removed, at most `limit`, none is left if fewer are, and those left expire later
      or have the higher id at the same instant. */
  ghost predicate RemovesOldest(s: State, now: Instant, limit: nat, removed: set<Id>) {
    && (forall x: Id :: x in removed ==> MayGo(s, now, x))
    && |removed| <= limit
    && (|removed| < limit ==> forall x: Id :: MayGo(s, now, x) ==> x in removed)
    && (forall x: Id, y: Id :: x in removed && y !in removed && MayGo(s, now, y) ==>
          && x in s.previews && y in s.previews
          && s.previews[x].expiresAt <= s.previews[y].expiresAt
          && (s.previews[x].expiresAt == s.previews[y].expiresAt ==> x < y))
  }

  lemma SweepMeans(s: State, now: Instant, limit: nat, removed: set<Id>)
    ensures Sweep(s, now, limit, removed) ==> RemovesOldest(s, now, limit, removed)
  {
    hide Prunable, Locked, MayGo;
    forall x: Id ensures MayGo(s, now, x) <==> Prunable(s, now, x) && !Locked(s, x) {
      GoesExactly(s, now, x);
    }
    PrunableStored(s, now);
  }

  lemma GoesExactly(s: State, now: Instant, x: Id)
    ensures MayGo(s, now, x) <==> Prunable(s, now, x) && !Locked(s, x)
  {
  }

  /** `delete_expired`: the oldest prunable previews that no claim has locked, at most `limit` of them. */
  method DeleteExpired(s: State, now: Instant, limit: nat) returns (live: set<Id>, deleted: nat)
    ensures live <= s.live && deleted == |s.live - live| && Sweep(s, now, limit, s.live - live)
    ensures RemovesOldest(s, now, limit, s.live - live)
  {
    hide Prunable, Locked, Sweep, Before, RemovesOldest;
    var rows := map x | x in s.live && x in s.previews && Prunable(s, now, x) && !Locked(s, x) ::
      Key(s.previews[x].expiresAt, 0);
    var order := OrderBy(rows);
    var n := if |order| < limit then |order| else limit;
    var expired := order[..n];
    live := set x | x in s.live && x !in expired;
    deleted := n;
    ghost var victims := set x | x in expired;
    FirstOfOrder(rows, order, n, victims);
    PrunableStored(s, now);
    OldestSwept(s, now, limit, rows, victims);
    assert s.live - live == victims;
    SweepMeans(s, now, limit, victims);
  }

  lemma OldestSwept(s: State, now: Instant, limit: nat, rows: map<Id, Key>, victims: set<Id>)
    requires forall x :: x in rows <==> x in s.previews && Prunable(s, now, x) && !Locked(s, x)
    requires forall x :: x in rows ==> rows[x] == Key(s.previews[x].expiresAt, 0)
    requires forall x :: Prunable(s, now, x) ==> x in s.previews
    requires victims <= rows.Keys && |victims| <= limit && (|victims| < limit ==> victims == rows.Keys)
    requires forall x, y :: x in victims && y in rows && y !in victims ==> Before(rows, x, y)
    ensures Sweep(s, now, limit, victims)
  {
    hide Prunable, Locked;
    forall x, y | x in victims && y !in victims && Prunable(s, now, y) && !Locked(s, y) ensures Older(s, x, y) {
      assert Before(rows, x, y);
    }
  }

  lemma PrunableStored(s: State, now: Instant)
    ensures forall x :: Prunable(s, now, x) ==> x in s.live && x in s.previews
  {
  }

  /** The first `n` rows of an order are `n` rows, all before the others. */
  lemma FirstOfOrder(rows: map<Id, Key>, order: seq<Id>, n: nat, first: set<Id>)
    requires (forall x: Id :: x in order <==> x in rows) && Ordered(rows, order) && n <= |order|
    requires first == set x | x in order[..n]
    ensures |first| == n && first <= rows.Keys
    ensures forall x, y :: x in first && y in rows && y !in first ==> Before(rows, x, y)
    ensures n == |order| ==> first == rows.Keys
  {
    DistinctCount(order[..n], first);
    forall j | 0 <= j < n ensures order[j] in first {
      assert order[..n][j] == order[j];
    }
    forall x, y | x in first && y in rows && y !in first ensures Before(rows, x, y) {
      var i :| 0 <= i < n && order[..n][i] == x;
      assert y in order;
      var j :| 0 <= j < |order| && order[j] == y;
    }
    assert order[..|order|] == order;
  }

  lemma {:induction false} DistinctCount(s: seq<Id>, elements: set<Id>)
    requires elements == set x | x in s
    requires forall i, j :: 0 <= i < j < |s| ==> s[i] != s[j]
    ensures |elements| == |s|
    decreases |s|
  {
    if s != [] {
      var n := |s| - 1;
      var before := set x | x in s[..n];
      DistinctCount(s[..n], before);
      assert s == s[..n] + [s[n]];
      assert elements == before + {s[n]};
    }
  }
}
