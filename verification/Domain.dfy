/** The rows of the Finspace ledger that every component shares. One workspace is modelled, so no
    row carries a workspace id. Money is an integer number of 0.0001 units (NUMERIC(20, 4)), an
    instant is an integer number of microseconds, and an id is the integer value of its UUID, whose
    order is the order of the canonical UUID text. */
module Domain {
  type Id = nat
  type Instant = int

  /** A stored amount: the tables check that it is positive. */
  type Positive = x: int | x > 0 witness 1

  datatype Option<+T> = None | Some(value: T)

  datatype TxType = Income | Expense | Transfer | Refund | Adjustment
  datatype TxStatus = Draft | Confirmed | Reconciled | Cancelled
  datatype CategoryType = IncomeOnly | ExpenseOnly | Both

  datatype Split = Split(category: Id, amount: Positive)

  /** `counterparty` and `description` hold normalized match text, `comment` is stripped. */
  datatype Transaction = Transaction(
    occurredAt: Instant,
    txType: TxType,
    amount: Positive,
    currency: string,
    account: Id,
    target: Option<Id>,
    category: Option<Id>,
    payee: Option<Id>,
    counterparty: string,
    description: string,
    comment: string,
    status: TxStatus,
    related: Option<Id>,
    splits: seq<Split>,
    version: nat,
    deleted: bool)

  datatype Account = Account(
    name: string,
    currency: string,
    openingBalance: int,
    openingAt: Instant,
    archived: bool,
    deleted: bool,
    version: nat)

  datatype Category = Category(
    name: string,
    categoryType: CategoryType,
    parent: Option<Id>,
    archived: bool,
    deleted: bool,
    version: nat)

  /** A transaction takes part in balances and actuals. */
  predicate Effective(t: Transaction) {
    (t.status == Confirmed || t.status == Reconciled) && !t.deleted
  }

  /** The local date of `t` lies in the closed part of history. The closed part ends at the start of
      the day after `closed_through`, which is what `closedBefore` holds. */
  predicate Closed(closedBefore: Option<Instant>, t: Instant) {
    closedBefore.Some? && t < closedBefore.value
  }

  predicate Distinct(s: seq<Id>) {
    forall i, j :: 0 <= i < j < |s| ==> s[i] != s[j]
  }

  /** The amounts of the first `n` splits together. */
  function SplitTotal(splits: seq<Split>, n: nat): int
    requires n <= |splits|
  {
    if n == 0 then 0 else SplitTotal(splits, n - 1) + splits[n - 1].amount
  }

  function Lookup<V>(m: map<Id, V>, k: Option<Id>): Option<V> {
    if k.Some? && k.value in m then Some(m[k.value]) else None
  }
}

/** Finite sums, independent of the order in which a set is walked. */
module Sums {
  ghost function SumOver<K(!new)>(s: set<K>, f: K -> int): int {
    if s == {} then 0 else
      var x :| x in s;
      f(x) + SumOver(s - {x}, f)
  }

  lemma {:induction false} SumExtract<K(!new)>(s: set<K>, f: K -> int, x: K)
    requires x in s
    ensures SumOver(s, f) == f(x) + SumOver(s - {x}, f)
    decreases |s|
  {
    var y :| y in s && SumOver(s, f) == f(y) + SumOver(s - {y}, f);
    if y != x {
      SumExtract(s - {y}, f, x);
      SumExtract(s - {x}, f, y);
      assert s - {y} - {x} == s - {x} - {y};
    }
  }

  lemma {:induction false} SumInsert<K(!new)>(s: set<K>, f: K -> int, x: K)
    requires x !in s
    ensures SumOver(s + {x}, f) == f(x) + SumOver(s, f)
  {
    SumExtract(s + {x}, f, x);
    assert s + {x} - {x} == s;
  }

  lemma {:induction false} SumEqual<K(!new)>(s: set<K>, f: K -> int, g: K -> int)
    requires forall x :: x in s ==> f(x) == g(x)
    ensures SumOver(s, f) == SumOver(s, g)
    decreases |s|
  {
    if s != {} {
      var x :| x in s;
      SumExtract(s, f, x);
      SumExtract(s, g, x);
      SumEqual(s - {x}, f, g);
    }
  }

  lemma {:induction false} SumPlus<K(!new)>(s: set<K>, f: K -> int, g: K -> int, h: K -> int)
    requires forall x :: x in s ==> h(x) == f(x) + g(x)
    ensures SumOver(s, h) == SumOver(s, f) + SumOver(s, g)
    decreases |s|
  {
    if s != {} {
      var x :| x in s;
      SumExtract(s, f, x);
      SumExtract(s, g, x);
      SumExtract(s, h, x);
      SumPlus(s - {x}, f, g, h);
    }
  }

  lemma {:induction false} SumZero<K(!new)>(s: set<K>, f: K -> int)
    requires forall x :: x in s ==> f(x) == 0
    ensures SumOver(s, f) == 0
    decreases |s|
  {
    if s != {} {
      var x :| x in s;
      SumExtract(s, f, x);
      SumZero(s - {x}, f);
    }
  }

  lemma {:induction false} SumUnion<K(!new)>(s: set<K>, t: set<K>, f: K -> int)
    requires s !! t
    ensures SumOver(s + t, f) == SumOver(s, f) + SumOver(t, f)
    decreases |s|
  {
    if s == {} {
      assert s + t == t;
    } else {
      var x :| x in s;
      SumExtract(s, f, x);
      SumExtract(s + t, f, x);
      assert s + t - {x} == (s - {x}) + t;
      SumUnion(s - {x}, t, f);
    }
  }

  lemma SumWhere<K(!new)>(s: set<K>, t: set<K>, f: K -> int)
    requires t <= s && forall x :: x in s && x !in t ==> f(x) == 0
    ensures SumOver(s, f) == SumOver(t, f)
  {
    SumUnion(t, s - t, f);
    SumZero(s - t, f);
    assert t + (s - t) == s;
  }

  lemma {:induction false} SumOnes<K(!new)>(s: set<K>, f: K -> int)
    requires forall x :: x in s ==> f(x) == 1
    ensures SumOver(s, f) == |s|
    decreases |s|
  {
    if s != {} {
      var x :| x in s;
      SumExtract(s, f, x);
      SumOnes(s - {x}, f);
    }
  }

  lemma {:induction false} SumScaled<K(!new)>(s: set<K>, f: K -> int, g: K -> int, factor: int)
    requires forall x :: x in s ==> g(x) == factor * f(x)
    ensures SumOver(s, g) == factor * SumOver(s, f)
    decreases |s|
  {
    if s != {} {
      var x :| x in s;
      SumExtract(s, f, x);
      SumExtract(s, g, x);
      SumScaled(s - {x}, f, g, factor);
      assert factor * (f(x) + SumOver(s - {x}, f)) == factor * f(x) + factor * SumOver(s - {x}, f);
    }
  }

  lemma {:induction false} SumPositive<K(!new)>(s: set<K>, f: K -> int)
    requires s != {} && forall x :: x in s ==> f(x) > 0
    ensures SumOver(s, f) > 0
  {
    var x :| x in s;
    SumExtract(s, f, x);
    SumNonNegative(s - {x}, f);
  }

  lemma SumMonotone<K(!new)>(s: set<K>, t: set<K>, f: K -> int)
    requires s <= t && forall x :: x in t ==> f(x) >= 0
    ensures SumOver(s, f) <= SumOver(t, f)
  {
    assert s + (t - s) == t;
    SumUnion(s, t - s, f);
    SumNonNegative(t - s, f);
  }

  lemma {:induction false} SumNonNegative<K(!new)>(s: set<K>, f: K -> int)
    requires forall x :: x in s ==> f(x) >= 0
    ensures SumOver(s, f) >= 0
    decreases |s|
  {
    if s != {} {
      var x :| x in s;
      SumExtract(s, f, x);
      SumNonNegative(s - {x}, f);
    }
  }

  function SumSeq(s: seq<int>): int {
    if s == [] then 0 else SumSeq(s[..|s| - 1]) + s[|s| - 1]
  }

  lemma SumSeqAppend(s: seq<int>, x: int)
    ensures SumSeq(s + [x]) == SumSeq(s) + x
  {
    assert (s + [x])[..|s|] == s;
  }

  /** A bag of amounts keyed by `K`; a missing key counts as zero, as in a defaultdict. */
  function Get<K>(m: map<K, int>, k: K): int {
    if k in m then m[k] else 0
  }

  ghost function Total<K(!new)>(m: map<K, int>): int {
    SumOver(m.Keys, k => Get(m, k))
  }

  lemma {:induction false} TotalAdd<K(!new)>(m: map<K, int>, k: K, amount: int)
    ensures Total(m[k := Get(m, k) + amount]) == Total(m) + amount
  {
    var m' := m[k := Get(m, k) + amount];
    var rest := m.Keys - {k};
    assert m'.Keys == rest + {k};
    SumInsert(rest, x => Get(m', x), k);
    SumEqual(rest, x => Get(m', x), x => Get(m, x));
    if k in m {
      assert m.Keys == rest + {k};
      SumInsert(rest, x => Get(m, x), k);
    } else {
      assert m.Keys == rest;
    }
  }
}

/** `ORDER BY a, b, id`: the order in which PostgreSQL returns rows keyed by two columns and the id. */
module Ordering {
  import opened Domain

  datatype Key = Key(a: int, b: int)

  predicate Before(keys: map<Id, Key>, x: Id, y: Id)
    requires x in keys && y in keys
  {
    var p, q := keys[x], keys[y];
    p.a < q.a || (p.a == q.a && (p.b < q.b || (p.b == q.b && x < y)))
  }

  predicate Ordered(keys: map<Id, Key>, s: seq<Id>)
    requires forall x :: x in s ==> x in keys
  {
    forall i, j :: 0 <= i < j < |s| ==> Before(keys, s[i], s[j])
  }

  /** The rows of `keys` in key order, each exactly once. */
  method OrderBy(keys: map<Id, Key>) returns (s: seq<Id>)
    ensures forall x :: x in s <==> x in keys
    ensures Ordered(keys, s)
    ensures |s| == |keys|
  {
    s := [];
    var rest := keys.Keys;
    while rest != {}
      invariant rest <= keys.Keys
      invariant forall x :: x in s <==> x in keys && x !in rest
      invariant Ordered(keys, s)
      invariant forall i, x :: 0 <= i < |s| && x in rest ==> Before(keys, s[i], x)
      invariant |s| + |rest| == |keys|
      decreases |rest|
    {
      var least := Least(keys, rest);
      s := s + [least];
      rest := rest - {least};
    }
  }

  method Least(keys: map<Id, Key>, s: set<Id>) returns (least: Id)
    requires s != {} && s <= keys.Keys
    ensures least in s
    ensures forall x :: x in s && x != least ==> Before(keys, least, x)
  {
    least :| least in s;
    var rest := s - {least};
    while rest != {}
      invariant rest <= s && least in s - rest
      invariant forall x :: x in s - rest && x != least ==> Before(keys, least, x)
      decreases |rest|
    {
      var x :| x in rest;
      ghost var seen, was := s - rest, least;
      rest := rest - {x};
      assert s - rest == seen + {x};
      if Before(keys, x, least) {
        least := x;
        assert forall y :: y in seen && y != was ==> Before(keys, was, y);
      }
    }
  }
}
