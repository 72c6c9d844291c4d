/** Allocations of a budget against amounts by category: the allocated part and the rest are the whole. */
module BudgetRows {
  import opened Domain
  import opened Sums

  datatype Allocation = Allocation(category: Id, planned: Positive)

  /** A budget allocates a category once (unique constraint). */
  predicate DistinctCategories(allocations: seq<Allocation>) {
    forall i, j :: 0 <= i < j < |allocations| ==> allocations[i].category != allocations[j].category
  }

  function AllocatedIds(allocations: seq<Allocation>): set<Option<Id>> {
    set i | 0 <= i < |allocations| :: Some(allocations[i].category)
  }

  /** The amounts of `m` on the first `n` allocated categories. */
  function OnAllocated(allocations: seq<Allocation>, m: map<Option<Id>, int>, n: nat): int
    requires n <= |allocations|
  {
    if n == 0 then 0 else OnAllocated(allocations, m, n - 1) + Get(m, Some(allocations[n - 1].category))
  }

  /** The amounts of `m` on categories without an allocation, the missing category among them. */
  ghost function OffAllocated(allocations: seq<Allocation>, m: map<Option<Id>, int>): int {
    SumOver(m.Keys - AllocatedIds(allocations), k => Get(m, k))
  }

  function Planned(allocations: seq<Allocation>): int {
    if allocations == [] then 0 else Planned(allocations[..|allocations| - 1]) + allocations[|allocations| - 1].planned
  }

  function PlannedAt(allocations: seq<Allocation>): int -> int {
    i => if 0 <= i < |allocations| then allocations[i].planned else 0
  }

  /** The places of the list; every allocation plans a positive amount. */
  function Places(allocations: seq<Allocation>): set<int> {
    set i | 0 <= i < |allocations| && allocations[i].planned > 0
  }

  /** The planned total is the sum over the allocations, whatever their order. */
  lemma {:induction false} PlannedIsSum(allocations: seq<Allocation>)
    ensures Planned(allocations) == SumOver(Places(allocations), PlannedAt(allocations))
    decreases |allocations|
  {
    if allocations == [] {
      assert Places(allocations) == {};
    } else {
      hide SumOver;
      var n := |allocations| - 1;
      var before := allocations[..n];
      PlannedIsSum(before);
      forall i: int ensures i in Places(allocations) <==> i in Places(before) || i == n {
        assert 0 <= i < n ==> before[i] == allocations[i];
      }
      assert Places(allocations) == Places(before) + {n};
      SumInsert(Places(before), PlannedAt(allocations), n);
      SumEqual(Places(before), PlannedAt(allocations), PlannedAt(before));
    }
  }

  lemma {:induction false} OnAllocatedSums(allocations: seq<Allocation>, m: map<Option<Id>, int>, n: nat)
    requires DistinctCategories(allocations) && n <= |allocations|
    ensures OnAllocated(allocations, m, n) == SumOver(AllocatedIds(allocations[..n]), k => Get(m, k))
  {
    if n > 0 {
      OnAllocatedSums(allocations, m, n - 1);
      var k := Some(allocations[n - 1].category);
      assert k !in AllocatedIds(allocations[..n - 1]);
      assert AllocatedIds(allocations[..n]) == AllocatedIds(allocations[..n - 1]) + {k};
      SumInsert(AllocatedIds(allocations[..n - 1]), x => Get(m, x), k);
    }
  }

  /** Conservation: what sits on allocated categories and what sits elsewhere is everything. */
  lemma AllocatedAndRest(allocations: seq<Allocation>, m: map<Option<Id>, int>)
    requires DistinctCategories(allocations)
    ensures OnAllocated(allocations, m, |allocations|) + OffAllocated(allocations, m) == Total(m)
  {
    var ids := AllocatedIds(allocations);
    var get := (k: Option<Id>) => Get(m, k);
    assert allocations[..|allocations|] == allocations;
    OnAllocatedSums(allocations, m, |allocations|);
    SumEqual(ids, k => Get(m, k), get);
    SumEqual(m.Keys - ids, k => Get(m, k), get);
    SumEqual(m.Keys, k => Get(m, k), get);
    SumUnion(ids, m.Keys - ids, get);
    SumUnion(m.Keys, ids - m.Keys, get);
    SumZero(ids - m.Keys, get);
    assert ids + (m.Keys - ids) == m.Keys + (ids - m.Keys);
  }

  /** `sum(amount for category, amount in m.items() if category not in allocated)`. */
  method SumOffAllocated(allocations: seq<Allocation>, m: map<Option<Id>, int>) returns (total: int)
    ensures total == OffAllocated(allocations, m)
  {
    var ids := AllocatedIds(allocations);
    total := 0;
    var rest := m.Keys - ids;
    ghost var get := (k: Option<Id>) => Get(m, k);
    SumEqual(rest, k => Get(m, k), get);
    while rest != {}
      invariant rest <= m.Keys - ids
      invariant total + SumOver(rest, get) == OffAllocated(allocations, m)
      decreases |rest|
    {
      var k :| k in rest;
      SumExtract(rest, get, k);
      total := total + m[k];
      rest := rest - {k};
    }
  }
}
