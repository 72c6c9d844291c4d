/** Expanding a recurring rule from its persisted cursor. */
module Recurrence {
  import opened Domain

  /** `next_occurrence`: the following slot of a rule, strictly later; slots are whole seconds. */
  type Following = Instant -> Option<Instant>

  ghost predicate Advances(following: Following) {
    forall t :: following(t).Some? ==> t < following(t).value
  }

  /** The n-th slot after the cursor. */
  function Nth(following: Following, cursor: Instant, n: nat): Option<Instant> {
    if n == 0 then Some(cursor)
    else
      var before := Nth(following, cursor, n - 1);
      if before == None then None else following(before.value)
  }

  ghost predicate IsSlot(following: Following, cursor: Instant, start: Instant, end: Instant, s: Instant) {
    start <= s < end && exists n: nat :: Nth(following, cursor, n) == Some(s)
  }

  lemma {:induction false} LaterSlots(following: Following, cursor: Instant, n: nat, m: nat)
    requires Advances(following) && n < m && Nth(following, cursor, m).Some?
    ensures Nth(following, cursor, n).Some?
    ensures Nth(following, cursor, n).value < Nth(following, cursor, m).value
    decreases m
  {
    if n < m - 1 {
      LaterSlots(following, cursor, n, m - 1);
    }
  }

  datatype Expansion = Expanded(slots: seq<Instant>, generated: nat) | LimitExceeded

  /** What an expansion has to be: the slots of the window in order, each once, and the number of slots
      before `end`, unless there are more of those than `limit`. */
  ghost predicate IsExpansion(following: Following, cursor: Instant, start: Instant, end: Instant, limit: int,
                              x: Expansion) {
    match x
    case Expanded(slots, generated) =>
      && (forall s :: s in slots <==> IsSlot(following, cursor, start, end, s))
      && (forall i, j :: 0 <= i < j < |slots| ==> slots[i] < slots[j])
      && generated <= limit
      && (forall n: nat :: n < generated <==>
            Nth(following, cursor, n).Some? && Nth(following, cursor, n).value < end)
    case LimitExceeded =>
      limit < 1 || (Nth(following, cursor, limit).Some? && Nth(following, cursor, limit).value < end)
  }

  method OccurrencesBetween(following: Following, cursor: Instant, start: Instant, end: Instant, limit: int)
      returns (x: Expansion)
    requires Advances(following)
    ensures IsExpansion(following, cursor, start, end, limit, x)
  {
    if limit < 1 {
      return LimitExceeded;
    }
    var current := cursor;
    var slots: seq<Instant> := [];
    var generated := 0;
    while current < end
      invariant generated <= limit
      invariant Nth(following, cursor, generated) == Some(current)
      invariant forall n: nat :: n < generated ==>
        Nth(following, cursor, n).Some? && Nth(following, cursor, n).value < end
      invariant Collected(following, cursor, start, generated, slots)
      decreases limit - generated
    {
      if generated + 1 > limit {
        return LimitExceeded;
      }
      CollectOne(following, cursor, start, generated, slots);
      generated := generated + 1;
      if current >= start {
        slots := slots + [current];
      }
      var next := following(current);
      if next == None {
        ExpansionEnds(following, cursor, start, end, generated, slots);
        return Expanded(slots, generated);
      }
      current := next.value;
    }
    ExpansionEnds(following, cursor, start, end, generated, slots);
    return Expanded(slots, generated);
  }

  ghost predicate Among(following: Following, cursor: Instant, n: nat, s: Instant) {
    exists m: nat :: m < n && Nth(following, cursor, m) == Some(s)
  }

  lemma AmongNext(following: Following, cursor: Instant, n: nat, s: Instant)
    ensures Among(following, cursor, n + 1, s) <==> Among(following, cursor, n, s) || Nth(following, cursor, n) == Some(s)
  {
    if Among(following, cursor, n, s) {
      var m: nat :| m < n && Nth(following, cursor, m) == Some(s);
      assert m < n + 1;
    }
  }

  /** `slots` are the slots from `start` on among the first `n`. */
  ghost predicate Collected(following: Following, cursor: Instant, start: Instant, n: nat, slots: seq<Instant>) {
    && (forall m: nat :: m < n ==> Nth(following, cursor, m).Some?)
    && (forall s :: s in slots <==> start <= s && Among(following, cursor, n, s))
    && (forall i, j :: 0 <= i < j < |slots| ==> slots[i] < slots[j])
  }

  lemma CollectOne(following: Following, cursor: Instant, start: Instant, n: nat, slots: seq<Instant>)
    requires Advances(following) && Collected(following, cursor, start, n, slots)
    requires Nth(following, cursor, n).Some?
    ensures var s := Nth(following, cursor, n).value;
      Collected(following, cursor, start, n + 1, if s >= start then slots + [s] else slots)
  {
    hide Nth, Among;
    var s := Nth(following, cursor, n).value;
    var slots' := if s >= start then slots + [s] else slots;
    forall i | 0 <= i < |slots| ensures slots[i] < s {
      assert slots[i] in slots;
      EarlierThan(following, cursor, n, slots[i]);
    }
    forall x ensures x in slots' <==> start <= x && Among(following, cursor, n + 1, x) {
      AmongNext(following, cursor, n, x);
    }
  }

  lemma EarlierThan(following: Following, cursor: Instant, n: nat, s: Instant)
    requires Advances(following) && Nth(following, cursor, n).Some? && Among(following, cursor, n, s)
    ensures s < Nth(following, cursor, n).value
  {
    var m: nat :| m < n && Nth(following, cursor, m) == Some(s);
    LaterSlots(following, cursor, m, n);
  }

  lemma ExpansionEnds(following: Following, cursor: Instant, start: Instant, end: Instant, n: nat, slots: seq<Instant>)
    requires Advances(following) && Collected(following, cursor, start, n, slots)
    requires forall m: nat :: m < n ==> Nth(following, cursor, m).Some? && Nth(following, cursor, m).value < end
    requires Nth(following, cursor, n) == None || Nth(following, cursor, n).value >= end
    ensures forall s :: s in slots <==> IsSlot(following, cursor, start, end, s)
    ensures forall m: nat :: m < n <==> Nth(following, cursor, m).Some? && Nth(following, cursor, m).value < end
  {
    forall m: nat | Nth(following, cursor, m).Some? && Nth(following, cursor, m).value < end ensures m < n {
      if m > n {
        LaterSlots(following, cursor, n, m);
      }
    }
    forall s | IsSlot(following, cursor, start, end, s) ensures s in slots {
      var m: nat :| Nth(following, cursor, m) == Some(s);
      assert Among(following, cursor, n, s);
    }
  }

  // ----- how many slots there are -----

  ghost predicate CountIs(following: Following, cursor: Instant, end: Instant, n: nat) {
    forall m: nat :: m < n <==> Nth(following, cursor, m).Some? && Nth(following, cursor, m).value < end
  }

  /** The number of slots before `end`. */
  ghost function SlotCount(following: Following, cursor: Instant, end: Instant): nat
    requires Advances(following)
  {
    SlotsAreFinite(following, cursor, end, 0);
    var n: nat :| CountIs(following, cursor, end, n);
    n
  }

  lemma CountUnique(following: Following, cursor: Instant, end: Instant, n: nat)
    requires Advances(following) && CountIs(following, cursor, end, n)
    ensures SlotCount(following, cursor, end) == n
  {
    SlotsAreFinite(following, cursor, end, 0);
    var m := SlotCount(following, cursor, end);
    assert CountIs(following, cursor, end, m);
    assert Nth(following, cursor, m).Some? && Nth(following, cursor, m).value < end <==> m < n;
    assert Nth(following, cursor, n).Some? && Nth(following, cursor, n).value < end <==> n < m;
  }

  lemma {:induction false} SlotsAreFinite(following: Following, cursor: Instant, end: Instant, n: nat)
    requires Advances(following)
    requires forall m: nat :: m < n ==> Nth(following, cursor, m).Some? && Nth(following, cursor, m).value < end
    ensures exists k: nat :: CountIs(following, cursor, end, k)
    decreases if Nth(following, cursor, n).Some? then end - Nth(following, cursor, n).value else -1
  {
    if Nth(following, cursor, n).Some? && Nth(following, cursor, n).value < end {
      SlotsAreFinite(following, cursor, end, n + 1);
    } else {
      forall m: nat | Nth(following, cursor, m).Some? && Nth(following, cursor, m).value < end ensures m < n {
        if m > n {
          LaterSlots(following, cursor, n, m);
        }
      }
      assert CountIs(following, cursor, end, n);
    }
  }

  /** An expansion exceeds its limit exactly when there are more slots than the limit. */
  lemma LimitMeansCount(following: Following, cursor: Instant, start: Instant, end: Instant, limit: int, x: Expansion)
    requires Advances(following) && cursor < end && IsExpansion(following, cursor, start, end, limit, x)
    ensures x.Expanded? ==> x.generated == SlotCount(following, cursor, end) <= limit
    ensures x.LimitExceeded? ==> SlotCount(following, cursor, end) > limit
  {
    SlotsAreFinite(following, cursor, end, 0);
    var n := SlotCount(following, cursor, end);
    assert CountIs(following, cursor, end, n);
    if x.Expanded? {
      assert CountIs(following, cursor, end, x.generated);
      CountUnique(following, cursor, end, x.generated);
    } else if limit < 1 {
      assert Nth(following, cursor, 0) == Some(cursor);
    } else {
      assert limit < n;
    }
  }
}
