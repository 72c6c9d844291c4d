/** Budget actuals of one month: income, expense and adjustments by currency, and expenses by category
    with split and refund allocation. */
module BudgetActuals {
  import opened Domain
  import opened Sums
  import opened Ordering
  import opened Rounding

  // ----- allocation -----

  /** The rounded proportional shares of the first `n` splits. */
  function Rounded(splits: seq<Split>, total: Positive, amount: int, n: nat): seq<int>
    requires n <= |splits|
  {
    seq(n, i requires 0 <= i < n => RoundDiv(amount * splits[i].amount, total))
  }

  /** Every split takes its rounded share, the last one takes what is left. */
  function Shares(splits: seq<Split>, total: Positive, amount: int): (shares: seq<int>)
    ensures |shares| == |splits|
  {
    if splits == [] then [] else
      var head := Rounded(splits, total, amount, |splits| - 1);
      head + [amount - SumSeq(head)]
  }

  lemma SharesSum(splits: seq<Split>, total: Positive, amount: int)
    requires splits != []
    ensures SumSeq(Shares(splits, total, amount)) == amount
  {
    var head := Rounded(splits, total, amount, |splits| - 1);
    SumSeqAppend(head, amount - SumSeq(head));
  }

  /** What the first `n` shares book on category `k`. */
  function Booked(splits: seq<Split>, shares: seq<int>, n: nat, k: Option<Id>): int
    requires n <= |splits| == |shares|
  {
    if n == 0 then 0
    else Booked(splits, shares, n - 1, k) + if k == Some(splits[n - 1].category) then shares[n - 1] else 0
  }

  /** What allocating `amount` of `original` books on category `k`. */
  function Portion(original: Transaction, amount: int, k: Option<Id>): int {
    if original.splits == [] then
      if k == original.category then amount else 0
    else
      Booked(original.splits, Shares(original.splits, original.amount, amount), |original.splits|, k)
  }

  lemma {:induction false} RoundedNegated(splits: seq<Split>, total: Positive, amount: int, n: nat)
    requires n <= |splits|
    ensures forall i :: 0 <= i < n ==> Rounded(splits, total, -amount, n)[i] == -Rounded(splits, total, amount, n)[i]
    ensures SumSeq(Rounded(splits, total, -amount, n)) == -SumSeq(Rounded(splits, total, amount, n))
  {
    if n > 0 {
      RoundedNegated(splits, total, amount, n - 1);
      assert Rounded(splits, total, amount, n)[..n - 1] == Rounded(splits, total, amount, n - 1);
      assert Rounded(splits, total, -amount, n)[..n - 1] == Rounded(splits, total, -amount, n - 1);
      assert -amount * splits[n - 1].amount == -(amount * splits[n - 1].amount);
      RoundNegated(amount * splits[n - 1].amount, total);
    }
  }

  lemma SharesNegated(splits: seq<Split>, total: Positive, amount: int)
    ensures forall i :: 0 <= i < |splits| ==> Shares(splits, total, -amount)[i] == -Shares(splits, total, amount)[i]
  {
    if splits != [] {
      RoundedNegated(splits, total, amount, |splits| - 1);
    }
  }

  lemma {:induction false} BookedNegated(splits: seq<Split>, a: seq<int>, b: seq<int>, n: nat, k: Option<Id>)
    requires n <= |splits| == |a| == |b|
    requires forall i :: 0 <= i < n ==> b[i] == -a[i]
    ensures Booked(splits, b, n, k) == -Booked(splits, a, n, k)
  {
    if n > 0 {
      BookedNegated(splits, a, b, n - 1, k);
    }
  }

  /** Allocating the opposite amount books exactly the opposite on every category. */
  lemma PortionNegated(original: Transaction, amount: int, k: Option<Id>)
    ensures Portion(original, -amount, k) == -Portion(original, amount, k)
  {
    var splits := original.splits;
    if splits != [] {
      SharesNegated(splits, original.amount, amount);
      BookedNegated(splits, Shares(splits, original.amount, amount), Shares(splits, original.amount, -amount),
                    |splits|, k);
    }
  }

  // ----- how exact the shares are -----

  lemma Add(a: int, b: int, c: int)
    ensures a * (b + c) == a * b + a * c && a * (b - c) == a * b - a * c
  {
  }

  /** `share` misses the exact proportion amount * part / total by at most n / 2 units. */
  predicate Within(total: int, amount: int, part: int, share: int, n: int) {
    -(n * total) <= 2 * (total * share - amount * part) <= n * total
  }

  lemma WithinAdds(total: int, amount: int, part: int, share: int, n: nat, part': int, share': int)
    requires Within(total, amount, part, share, n) && Within(total, amount, part', share', 1)
    ensures Within(total, amount, part + part', share + share', n + 1)
  {
    Add(total, share, share');
    Add(amount, part, part');
    Add(total, n, 1);
  }

  lemma {:induction false} HeadWithin(splits: seq<Split>, total: Positive, amount: int, n: nat)
    requires n <= |splits|
    ensures Within(total, amount, SplitTotal(splits, n), SumSeq(Rounded(splits, total, amount, n)), n)
  {
    hide Within;
    if n == 0 {
      WithinNothing(total, amount);
    } else {
      HeadWithin(splits, total, amount, n - 1);
      var head := Rounded(splits, total, amount, n);
      assert head[..n - 1] == Rounded(splits, total, amount, n - 1);
      RoundedWithin(total, amount, splits[n - 1].amount);
      WithinAdds(total, amount, SplitTotal(splits, n - 1), SumSeq(head[..n - 1]), n - 1,
                 splits[n - 1].amount, head[n - 1]);
    }
  }

  lemma WithinNothing(total: int, amount: int)
    ensures Within(total, amount, 0, 0, 0)
  {
  }

  lemma RoundedWithin(total: Positive, amount: int, part: int)
    ensures Within(total, amount, part, RoundDiv(amount * part, total), 1)
  {
    assert Nearest(amount * part, total, RoundDiv(amount * part, total));
  }

  /** When the splits add up to the original, every share but the last is within half a unit of the exact
      proportion, and the last within (n - 1) / 2 units. */
  lemma ShareBound(splits: seq<Split>, total: Positive, amount: int, i: nat)
    requires i < |splits| && SplitTotal(splits, |splits|) == total
    ensures Within(total, amount, splits[i].amount, Shares(splits, total, amount)[i],
                   if i < |splits| - 1 then 1 else |splits| - 1)
  {
    var n := |splits| - 1;
    if i < n {
      RoundedWithin(total, amount, splits[i].amount);
    } else {
      HeadWithin(splits, total, amount, n);
      var head := SumSeq(Rounded(splits, total, amount, n));
      assert SplitTotal(splits, n) == total - splits[n].amount;
      Complement(total, amount, splits[n].amount, head, n);
    }
  }

  lemma Complement(total: int, amount: int, part: int, head: int, n: nat)
    requires Within(total, amount, total - part, head, n)
    ensures Within(total, amount, part, amount - head, n)
  {
    Add(amount, total, part);
    Add(total, amount, head);
  }

  /** Booking the whole original books every split at its own amount. */
  lemma WholeShares(splits: seq<Split>, total: Positive, i: nat)
    requires i < |splits| && SplitTotal(splits, |splits|) == total
    ensures Shares(splits, total, total)[i] == splits[i].amount
  {
    var n := |splits| - 1;
    WholeHead(splits, total, n);
  }

  lemma {:induction false} WholeHead(splits: seq<Split>, total: Positive, n: nat)
    requires n <= |splits|
    ensures forall i :: 0 <= i < n ==> Rounded(splits, total, total, n)[i] == splits[i].amount
    ensures SumSeq(Rounded(splits, total, total, n)) == SplitTotal(splits, n)
  {
    if n > 0 {
      WholeHead(splits, total, n - 1);
      assert Rounded(splits, total, total, n)[..n - 1] == Rounded(splits, total, total, n - 1);
      RoundExact(splits[n - 1].amount, total);
    }
  }

  /** The bound cannot be sharpened to non-negative shares: 5 units over 8 equal splits leave -2 for the
      last. */
  lemma LastShareCanBeNegative()
    ensures var splits := seq(8, i requires 0 <= i < 8 => Split(i, 1));
      SplitTotal(splits, 8) == 8 && Shares(splits, 8, 5) == [1, 1, 1, 1, 1, 1, 1, -2]
  {
    var splits := seq(8, i requires 0 <= i < 8 => Split(i, 1));
    assert RoundDiv(5, 8) == 1;
    var head := Rounded(splits, 8, 5, 7);
    assert head == [1, 1, 1, 1] + [1] + [1] + [1];
    SumSeqAppend([1, 1, 1, 1], 1);
    SumSeqAppend([1, 1, 1, 1] + [1], 1);
    SumSeqAppend([1, 1, 1, 1] + [1] + [1], 1);
    assert [1, 1, 1, 1] == [1, 1] + [1] + [1];
    SumSeqAppend([1, 1], 1);
    SumSeqAppend([1, 1] + [1], 1);
    assert [1, 1][..1] == [1];
    OnesTotal(splits, 8);
  }

  lemma {:induction false} OnesTotal(splits: seq<Split>, n: nat)
    requires n <= |splits| && forall i :: 0 <= i < n ==> splits[i].amount == 1
    ensures SplitTotal(splits, n) == n
  {
    if n > 0 {
      OnesTotal(splits, n - 1);
    }
  }

  // ----- the sign of the last share -----

  /** The remainder never turns the sign of the last share if its exact proportion is large enough for the
      number of splits. */
  lemma LastShareKeepsSign(splits: seq<Split>, total: Positive, amount: int)
    requires splits != [] && SplitTotal(splits, |splits|) == total
    requires 2 * (amount * splits[|splits| - 1].amount) > (|splits| - 3) * total
    ensures Shares(splits, total, amount)[|splits| - 1] >= 0
  {
    var n, share := |splits| - 1, Shares(splits, total, amount)[|splits| - 1];
    ShareBound(splits, total, amount, n);
    if n == 0 {
      SharesSum(splits, total, amount);
      SplitTotalOne(splits);
      Add(total, amount, 1);
      PositiveFactor(amount + 1, total);
    } else {
      WithinSign(total, amount, splits[n].amount, share, n);
    }
  }

  lemma SplitTotalOne(splits: seq<Split>)
    requires |splits| == 1
    ensures SplitTotal(splits, 1) == splits[0].amount
  {
    assert SplitTotal(splits, 0) == 0;
  }

  lemma WithinSign(total: Positive, amount: int, part: int, share: int, n: int)
    requires Within(total, amount, part, share, n) && 2 * (amount * part) > (n - 2) * total
    ensures share >= 0
  {
    assert (n - 2) * total == n * total - 2 * total;
    Add(total, share, 1);
    PositiveFactor(share + 1, total);
  }

  lemma PositiveFactor(a: int, b: int)
    requires b * a > 0 && b > 0
    ensures a > 0
  {
  }

  ghost predicate SignTurns(splits: seq<Split>, total: Positive, amount: int) {
    && splits != [] && SplitTotal(splits, |splits|) == total && 0 <= amount <= total
    && Shares(splits, total, amount)[|splits| - 1] < 0
  }

  lemma FewSplitsKeepSign(splits: seq<Split>, total: Positive, amount: int)
    requires 0 < |splits| <= 3 && SplitTotal(splits, |splits|) == total && 0 <= amount
    ensures Shares(splits, total, amount)[|splits| - 1] >= 0
  {
    var last := splits[|splits| - 1].amount;
    if amount == 0 {
      RoundedNegated(splits, total, 0, |splits| - 1);
    } else {
      assert amount * last > 0 && (|splits| - 3) * total <= 0;
      LastShareKeepsSign(splits, total, amount);
    }
  }

  /** Splits of 2 units each with a last one of 1, and all but enough for the rounded shares. */
  function Turning(n: nat): seq<Split> {
    seq(n, i requires 0 <= i < n => Split(i, if i < n - 1 then 2 else 1))
  }

  lemma {:induction false} TurningTotal(n: nat, k: nat)
    requires k <= n
    ensures SplitTotal(Turning(n), k) == if k == n > 0 then 2 * n - 1 else 2 * k
  {
    if k > 0 {
      TurningTotal(n, k - 1);
    }
  }

  lemma {:induction false} TurningHead(n: nat, k: nat)
    requires n >= 4 && k < n
    ensures SumSeq(Rounded(Turning(n), 2 * n - 1, n - 2, k)) == k
  {
    if k > 0 {
      TurningHead(n, k - 1);
      var head := Rounded(Turning(n), 2 * n - 1, n - 2, k);
      assert head[..k - 1] == Rounded(Turning(n), 2 * n - 1, n - 2, k - 1);
      NearestUnique((n - 2) * 2, 2 * n - 1, RoundDiv((n - 2) * 2, 2 * n - 1), 1);
      assert head[k - 1] == 1;
    }
  }

  /** A last share of the opposite sign needs at least four splits, and with four or more it occurs. */
  lemma SignTurnsFromFourSplits(n: nat)
    ensures (exists splits, total, amount :: |splits| == n && SignTurns(splits, total, amount)) <==> n >= 4
  {
    forall splits, total, amount | |splits| == n && SignTurns(splits, total, amount) ensures n >= 4 {
      if n <= 3 {
        FewSplitsKeepSign(splits, total, amount);
      }
    }
    if n >= 4 {
      TurningTotal(n, n);
      TurningHead(n, n - 1);
      assert SignTurns(Turning(n), 2 * n - 1, n - 2);
    }
  }

  // ----- an original refunded in parts -----

  /** What the refunds in `amounts` together take off split `i`. */
  function Returned(splits: seq<Split>, total: Positive, amounts: seq<int>, i: nat): int
    requires i < |splits|
  {
    if amounts == [] then 0
    else Returned(splits, total, amounts[..|amounts| - 1], i) + Shares(splits, total, amounts[|amounts| - 1])[i]
  }

  lemma {:induction false} ReturnedWithin(splits: seq<Split>, total: Positive, amounts: seq<int>, i: nat, w: nat)
    requires i < |splits| && SplitTotal(splits, |splits|) == total
    requires w == if i < |splits| - 1 then 1 else |splits| - 1
    ensures Within(total, splits[i].amount, SumSeq(amounts), Returned(splits, total, amounts, i), w * |amounts|)
    decreases |amounts|
  {
    hide Within, Shares;
    if amounts == [] {
      WithinNothing(total, splits[i].amount);
    } else {
      var n := |amounts| - 1;
      ReturnedWithin(splits, total, amounts[..n], i, w);
      ShareBound(splits, total, amounts[n], i);
      var before, share := Returned(splits, total, amounts[..n], i), Shares(splits, total, amounts[n])[i];
      Accumulate(total, splits[i].amount, SumSeq(amounts[..n]), before, w * n, amounts[n], share, w);
      assert w * |amounts| == w * n + w by { Add(w, n, 1); }
    }
  }

  lemma Accumulate(total: int, part: int, amount: int, share: int, n: int, amount': int, share': int, n': int)
    requires Within(total, part, amount, share, n) && Within(total, amount', part, share', n')
    ensures Within(total, part, amount + amount', share + share', n + n')
  {
    Add(total, share, share');
    Add(part, amount, amount');
    Add(total, n, n');
  }

  /** An original refunded completely in m parts leaves at most half a unit per part on every split but
      the last, and (n - 1) / 2 units per part on the last. */
  lemma RefundedInParts(splits: seq<Split>, total: Positive, amounts: seq<int>, i: nat)
    requires i < |splits| && SplitTotal(splits, |splits|) == total && SumSeq(amounts) == total
    ensures var w := if i < |splits| - 1 then 1 else |splits| - 1;
      -(w * |amounts|) <= 2 * (Returned(splits, total, amounts, i) - splits[i].amount) <= w * |amounts|
  {
    hide Within, Shares, Returned;
    var w := if i < |splits| - 1 then 1 else |splits| - 1;
    ReturnedWithin(splits, total, amounts, i, w);
    Unscale(total, splits[i].amount, Returned(splits, total, amounts, i), w * |amounts|);
  }

  lemma Unscale(total: Positive, part: int, share: int, n: int)
    requires Within(total, part, total, share, n)
    ensures -n <= 2 * (share - part) <= n
  {
    Add(total, share, part);
    Scale(total, 2 * (share - part), n);
    Scale(total, -n, 2 * (share - part));
    assert total * (2 * (share - part)) == 2 * (total * (share - part));
  }

  lemma Scale(total: Positive, x: int, bound: int)
    ensures x > bound ==> total * x > total * bound
  {
    Add(total, x, bound);
  }

  // ----- what one transaction contributes -----

  function RefundedExpense(txs: map<Id, Transaction>, t: Transaction): Option<Transaction> {
    var original := Lookup(txs, t.related);
    if t.txType == Refund && original.Some? && original.value.txType == Expense then original else None
  }

  predicate RefundsIncome(txs: map<Id, Transaction>, t: Transaction) {
    var original := Lookup(txs, t.related);
    t.txType == Refund && original.Some? && original.value.txType == Income
  }

  function IncomeOf(txs: map<Id, Transaction>, t: Transaction): int {
    if t.txType == Income then t.amount else if RefundsIncome(txs, t) then -(t.amount as int) else 0
  }

  function ExpenseOf(txs: map<Id, Transaction>, t: Transaction): int {
    if t.txType == Expense then t.amount else if RefundedExpense(txs, t).Some? then -(t.amount as int) else 0
  }

  function AdjustmentOf(t: Transaction): int {
    if t.txType == Adjustment then t.amount else 0
  }

  function CategoryOf(txs: map<Id, Transaction>, t: Transaction, k: Option<Id>): int {
    if t.txType == Expense then Portion(t, t.amount, k)
    else if RefundedExpense(txs, t).Some? then Portion(RefundedExpense(txs, t).value, -(t.amount as int), k)
    else 0
  }

  function Incomes(txs: map<Id, Transaction>, c: string): Id -> int {
    id => if id in txs && txs[id].currency == c then IncomeOf(txs, txs[id]) else 0
  }

  function Expenses(txs: map<Id, Transaction>, c: string): Id -> int {
    id => if id in txs && txs[id].currency == c then ExpenseOf(txs, txs[id]) else 0
  }

  function Adjustments(txs: map<Id, Transaction>, c: string): Id -> int {
    id => if id in txs && txs[id].currency == c then AdjustmentOf(txs[id]) else 0
  }

  function CategoryExpenses(txs: map<Id, Transaction>, c: string, k: Option<Id>): Id -> int {
    id => if id in txs && txs[id].currency == c then CategoryOf(txs, txs[id], k) else 0
  }

  /** An expense and a refund of its whole amount take nothing from any total and any category, wherever
      they stand in the month. */
  lemma FullRefundCancels(txs: map<Id, Transaction>, rows: set<Id>, x: Id, refund: Id, c: string, k: Option<Id>)
    requires x in rows && refund in rows && x in txs && refund in txs && x != refund
    requires txs[x].txType == Expense && txs[refund].txType == Refund && txs[refund].related == Some(x)
    requires txs[refund].amount == txs[x].amount && txs[refund].currency == txs[x].currency
    ensures SumOver(rows, Expenses(txs, c)) == SumOver(rows - {x, refund}, Expenses(txs, c))
    ensures SumOver(rows, CategoryExpenses(txs, c, k)) == SumOver(rows - {x, refund}, CategoryExpenses(txs, c, k))
  {
    hide SumOver, Portion;
    PortionNegated(txs[x], txs[x].amount, k);
    assert rows - {x} - {refund} == rows - {x, refund};
    SumExtract(rows, Expenses(txs, c), x);
    SumExtract(rows - {x}, Expenses(txs, c), refund);
    SumExtract(rows, CategoryExpenses(txs, c, k), x);
    SumExtract(rows - {x}, CategoryExpenses(txs, c, k), refund);
  }

  // ----- the projection -----

  class BudgetActual {
    var income: int
    var expense: int
    var adjustment: int
    var categoryExpense: map<Option<Id>, int>

    constructor ()
      ensures income == 0 && expense == 0 && adjustment == 0 && categoryExpense == map[]
    {
      income, expense, adjustment, categoryExpense := 0, 0, 0, map[];
    }

    function NetCashflow(): int
      reads this
    {
      income - expense + adjustment
    }

    method AllocateExpense(original: Transaction, amount: int)
      modifies `categoryExpense
      ensures forall k :: Get(categoryExpense, k) == Get(old(categoryExpense), k) + Portion(original, amount, k)
      ensures Total(categoryExpense) == Total(old(categoryExpense)) + amount
    {
      hide Total, Rounded, Shares;
      if original.splits == [] {
        TotalAdd(categoryExpense, original.category, amount);
        categoryExpense := categoryExpense[original.category := Get(categoryExpense, original.category) + amount];
        return;
      }
      var remaining := amount;
      var n := |original.splits|;
      ghost var was := categoryExpense;
      ghost var shares := Shares(original.splits, original.amount, amount);
      for i := 0 to n
        invariant remaining == amount - SumSeq(shares[..i])
        invariant forall k :: Get(categoryExpense, k) == Get(was, k) + Booked(original.splits, shares, i, k)
        invariant Total(categoryExpense) == Total(was) + SumSeq(shares[..i])
      {
        var split := original.splits[i];
        assert shares[..i + 1] == shares[..i] + [shares[i]];
        SumSeqAppend(shares[..i], shares[i]);
        ShareIsRemainder(original.splits, original.amount, amount, i);
        var share := if i == n - 1 then remaining else RoundDiv(amount * split.amount, original.amount);
        assert share == shares[i];
        TotalAdd(categoryExpense, Some(split.category), share);
        categoryExpense := categoryExpense[Some(split.category) := Get(categoryExpense, Some(split.category)) + share];
        remaining := remaining - share;
      }
      SharesSum(original.splits, original.amount, amount);
      assert shares[..n] == shares;
    }
  }

  lemma ShareIsRemainder(splits: seq<Split>, total: Positive, amount: int, i: nat)
    requires i < |splits|
    ensures var shares := Shares(splits, total, amount);
      shares[i] == if i == |splits| - 1 then amount - SumSeq(shares[..i]) else RoundDiv(amount * splits[i].amount, total)
  {
    var head := Rounded(splits, total, amount, |splits| - 1);
    assert Shares(splits, total, amount)[..|splits| - 1] == head;
  }

  function InPeriod(txs: map<Id, Transaction>, start: Instant, end: Instant): set<Id> {
    set id | id in txs && Effective(txs[id]) && start <= txs[id].occurredAt < end
  }

  /** `a` holds what the transactions of `done` in currency `c` contribute, and its categories add up to
      its expense. */
  ghost predicate Tallies(a: BudgetActual, txs: map<Id, Transaction>, done: set<Id>, c: string)
    reads a
  {
    && a.income == SumOver(done, Incomes(txs, c))
    && a.expense == SumOver(done, Expenses(txs, c))
    && a.adjustment == SumOver(done, Adjustments(txs, c))
    && (forall k :: Get(a.categoryExpense, k) == SumOver(done, CategoryExpenses(txs, c, k)))
    && Total(a.categoryExpense) == a.expense
  }

  lemma TallyStep(txs: map<Id, Transaction>, done: set<Id>, id: Id, c: string)
    requires id !in done && id in txs
    ensures SumOver(done + {id}, Incomes(txs, c)) == SumOver(done, Incomes(txs, c)) + Incomes(txs, c)(id)
    ensures SumOver(done + {id}, Expenses(txs, c)) == SumOver(done, Expenses(txs, c)) + Expenses(txs, c)(id)
    ensures SumOver(done + {id}, Adjustments(txs, c)) == SumOver(done, Adjustments(txs, c)) + Adjustments(txs, c)(id)
    ensures forall k :: SumOver(done + {id}, CategoryExpenses(txs, c, k))
                     == SumOver(done, CategoryExpenses(txs, c, k)) + CategoryExpenses(txs, c, k)(id)
  {
    SumInsert(done, Incomes(txs, c), id);
    SumInsert(done, Expenses(txs, c), id);
    SumInsert(done, Adjustments(txs, c), id);
    forall k ensures SumOver(done + {id}, CategoryExpenses(txs, c, k))
                  == SumOver(done, CategoryExpenses(txs, c, k)) + CategoryExpenses(txs, c, k)(id)
    {
      SumInsert(done, CategoryExpenses(txs, c, k), id);
    }
  }

  lemma NothingYet(txs: map<Id, Transaction>, done: set<Id>, c: string)
    requires forall id :: id in done && id in txs ==> txs[id].currency != c
    ensures SumOver(done, Incomes(txs, c)) == SumOver(done, Expenses(txs, c)) == SumOver(done, Adjustments(txs, c)) == 0
    ensures forall k :: SumOver(done, CategoryExpenses(txs, c, k)) == 0
  {
    SumZero(done, Incomes(txs, c));
    SumZero(done, Expenses(txs, c));
    SumZero(done, Adjustments(txs, c));
    forall k ensures SumOver(done, CategoryExpenses(txs, c, k)) == 0 {
      SumZero(done, CategoryExpenses(txs, c, k));
    }
  }

  lemma TallyElsewhere(a: BudgetActual, txs: map<Id, Transaction>, done: set<Id>, id: Id, c: string)
    requires id !in done && id in txs && txs[id].currency != c && Tallies(a, txs, done, c)
    ensures Tallies(a, txs, done + {id}, c)
  {
    hide SumOver, Total;
    TallyStep(txs, done, id, c);
  }

  lemma EmptyTally(a: BudgetActual, txs: map<Id, Transaction>, done: set<Id>, c: string)
    requires a.income == 0 && a.expense == 0 && a.adjustment == 0 && a.categoryExpense == map[]
    requires forall id :: id in done && id in txs ==> txs[id].currency != c
    ensures Tallies(a, txs, done, c)
  {
    NothingYet(txs, done, c);
  }

  /** One row, booked on the actual of its own currency. */
  method Book(target: BudgetActual, txs: map<Id, Transaction>, ghost done: set<Id>, id: Id)
    requires id in txs && id !in done && Tallies(target, txs, done, txs[id].currency)
    modifies target
    ensures Tallies(target, txs, done + {id}, txs[id].currency)
  {
    hide SumOver, Total, Portion;
    var item := txs[id];
    TallyStep(txs, done, id, item.currency);
    match item.txType {
      case Income =>
        target.income := target.income + item.amount;
      case Expense =>
        target.expense := target.expense + item.amount;
        target.AllocateExpense(item, item.amount);
      case Adjustment =>
        target.adjustment := target.adjustment + item.amount;
      case Refund =>
        var original := Lookup(txs, item.related);
        if original.Some? && original.value.txType == Expense {
          target.expense := target.expense - item.amount;
          target.AllocateExpense(original.value, -(item.amount as int));
        } else if original.Some? && original.value.txType == Income {
          target.income := target.income - item.amount;
        }
      case Transfer =>
    }
  }

  function Currencies(txs: map<Id, Transaction>, rows: set<Id>): set<string> {
    set id | id in rows && id in txs :: txs[id].currency
  }

  /** One actual for each currency among `done`, none shared by two currencies. */
  ghost predicate Projected(result: map<string, BudgetActual>, txs: map<Id, Transaction>, done: set<Id>)
    reads set c | c in result :: result[c]
  {
    && result.Keys == Currencies(txs, done)
    && (forall c, c' :: c in result && c' in result && c != c' ==> result[c] != result[c'])
    && (forall c :: c in result ==> Tallies(result[c], txs, done, c))
  }

  /** `result[item.currency]` of a defaultdict, then the booking. */
  method BookRow(actuals: map<string, BudgetActual>, txs: map<Id, Transaction>, ghost done: set<Id>, id: Id)
      returns (result: map<string, BudgetActual>)
    requires id in txs && id !in done && Projected(actuals, txs, done)
    modifies set c | c in actuals :: actuals[c]
    ensures Projected(result, txs, done + {id})
    ensures forall c :: c in result ==> fresh(result[c]) || (c in actuals && result[c] == actuals[c])
  {
    hide Tallies;
    var currency := txs[id].currency;
    result := actuals;
    if currency !in result {
      var target := new BudgetActual();
      assert forall x :: x in done && x in txs ==> txs[x].currency in Currencies(txs, done);
      EmptyTally(target, txs, done, currency);
      result := result[currency := target];
    }
    forall c | c in result && c != currency
      ensures Tallies(result[c], txs, done + {id}, c)
    {
      TallyElsewhere(result[c], txs, done, id, c);
    }
    Book(result[currency], txs, done, id);
    assert Currencies(txs, done + {id}) == Currencies(txs, done) + {currency};
  }

  /** The projection holds, for every currency of the month, the order-independent sums of what each
      transaction contributes; per currency the categories, the missing one included, add up to the
      expense. */
  method ProjectBudgetActuals(txs: map<Id, Transaction>, start: Instant, end: Instant)
      returns (result: map<string, BudgetActual>)
    ensures Projected(result, txs, InPeriod(txs, start, end))
    ensures forall c :: c in result ==> fresh(result[c])
  {
    hide Tallies, Currencies;
    var order := OrderBy(map id | id in InPeriod(txs, start, end) :: Key(txs[id].occurredAt, 0));
    result := map[];
    ghost var done: set<Id> := {};
    assert Projected(result, txs, done) by { NoCurrencies(txs); }
    for n := 0 to |order|
      invariant done == set id | id in order[..n]
      invariant forall c :: c in result ==> fresh(result[c])
      invariant Projected(result, txs, done)
    {
      assert order[n] in order;
      assert order[n] !in done;
      result := BookRow(result, txs, done, order[n]);
      assert order[..n + 1] == order[..n] + [order[n]];
      done := done + {order[n]};
    }
    assert order[..|order|] == order;
    assert done == InPeriod(txs, start, end);
  }

  lemma NoCurrencies(txs: map<Id, Transaction>)
    ensures Currencies(txs, {}) == {}
  {
  }
}
