/** How one more transaction moves the actuals of a month: which totals and which categories it adds to or
    takes from, and which rows do not count. */
module ActualMoves {
  import opened Domain
  import opened Sums
  import opened Rounding
  import opened BudgetActuals

  /** Confirmed or reconciled, not deleted, and inside the month. */
  predicate CountsIn(t: Transaction, start: Instant, end: Instant) {
    && (t.status == TxStatus.Confirmed || t.status == TxStatus.Reconciled) && !t.deleted
    && start <= t.occurredAt && t.occurredAt < end
  }

  datatype Actuals = Actuals(income: int, expense: int, adjustment: int)

  /** The totals `ProjectBudgetActuals` arrives at for one currency. */
  ghost function MonthTotals(txs: map<Id, Transaction>, start: Instant, end: Instant, c: string): Actuals {
    var rows := InPeriod(txs, start, end);
    Actuals(SumOver(rows, Incomes(txs, c)), SumOver(rows, Expenses(txs, c)), SumOver(rows, Adjustments(txs, c)))
  }

  ghost function MonthCategory(txs: map<Id, Transaction>, start: Instant, end: Instant, c: string, k: Option<Id>): int {
    SumOver(InPeriod(txs, start, end), CategoryExpenses(txs, c, k))
  }

  lemma RowsWith(txs: map<Id, Transaction>, id: Id, t: Transaction, start: Instant, end: Instant)
    requires id !in txs
    ensures id !in InPeriod(txs, start, end)
    ensures InPeriod(txs[id := t], start, end)
         == InPeriod(txs, start, end) + if CountsIn(t, start, end) then {id} else {}
  {
  }

  lemma RowSums(txs: map<Id, Transaction>, id: Id, t: Transaction, start: Instant, end: Instant, f: Id -> int, f': Id -> int)
    requires id !in txs && forall x :: x in txs ==> f'(x) == f(x)
    ensures SumOver(InPeriod(txs[id := t], start, end), f') - SumOver(InPeriod(txs, start, end), f)
         == if CountsIn(t, start, end) then f'(id) else 0
  {
    hide SumOver, InPeriod;
    var rows := InPeriod(txs, start, end);
    RowsWith(txs, id, t, start, end);
    assert forall x :: x in rows ==> x in txs by { RowsStored(txs, start, end); }
    SumEqual(rows, f', f);
    if CountsIn(t, start, end) {
      SumInsert(rows, f', id);
    } else {
      assert rows + {} == rows;
    }
  }

  lemma RowsStored(txs: map<Id, Transaction>, start: Instant, end: Instant)
    ensures forall x :: x in InPeriod(txs, start, end) ==> x in txs
  {
  }

  /** A transaction adds its amount to the income, the expense or the adjustment; a refund takes it from the
      total its original was added to; a transfer changes nothing. */
  predicate Moves(txs: map<Id, Transaction>, t: Transaction, before: Actuals, after: Actuals) {
    match t.txType
    case Income => after == before.(income := before.income + t.amount)
    case Expense => after == before.(expense := before.expense + t.amount)
    case Adjustment => after == before.(adjustment := before.adjustment + t.amount)
    case Transfer => after == before
    case Refund =>
      if t.related.Some? && t.related.value in txs && txs[t.related.value].txType == Expense then
        after == before.(expense := before.expense - t.amount)
      else if t.related.Some? && t.related.value in txs && txs[t.related.value].txType == Income then
        after == before.(income := before.income - t.amount)
      else after == before
  }

  /** A new transaction of the month moves the totals of its own currency; one that does not count moves none. */
  lemma RowMovesTotals(txs: map<Id, Transaction>, id: Id, t: Transaction, start: Instant, end: Instant, c: string)
    requires id !in txs && forall x :: x in txs ==> txs[x].related != Some(id)
    ensures var before, after := MonthTotals(txs, start, end, c), MonthTotals(txs[id := t], start, end, c);
      if CountsIn(t, start, end) && t.currency == c then Moves(txs, t, before, after) else after == before
  {
    hide SumOver, InPeriod, CountsIn;
    var txs' := txs[id := t];
    RowSums(txs, id, t, start, end, Incomes(txs, c), Incomes(txs', c));
    RowSums(txs, id, t, start, end, Expenses(txs, c), Expenses(txs', c));
    RowSums(txs, id, t, start, end, Adjustments(txs, c), Adjustments(txs', c));
  }

  // ----- categories -----

  /** The amounts of the splits on category `k`. */
  function SplitAmounts(splits: seq<Split>, n: nat, k: Option<Id>): int
    requires n <= |splits|
  {
    if n == 0 then 0
    else SplitAmounts(splits, n - 1, k) + if Some(splits[n - 1].category) == k then splits[n - 1].amount else 0
  }

  lemma {:induction false} BookedWhole(splits: seq<Split>, shares: seq<int>, n: nat, k: Option<Id>)
    requires n <= |splits| == |shares| && forall i :: 0 <= i < n ==> shares[i] == splits[i].amount
    ensures Booked(splits, shares, n, k) == SplitAmounts(splits, n, k)
  {
    if n > 0 {
      BookedWhole(splits, shares, n - 1, k);
    }
  }

  /** Booking a whole original puts every split on its own category. */
  lemma WholePortion(t: Transaction, k: Option<Id>)
    requires t.splits != [] ==> SplitTotal(t.splits, |t.splits|) == t.amount
    ensures Portion(t, t.amount, k) ==
      if t.splits == [] then (if k == t.category then t.amount else 0) else SplitAmounts(t.splits, |t.splits|, k)
  {
    if t.splits != [] {
      hide Shares;
      forall i: nat | i < |t.splits| ensures Shares(t.splits, t.amount, t.amount)[i] == t.splits[i].amount {
        WholeShares(t.splits, t.amount, i);
      }
      BookedWhole(t.splits, Shares(t.splits, t.amount, t.amount), |t.splits|, k);
    }
  }

  /** What expense `t` as a whole means for category `k`. */
  function OwnAmount(t: Transaction, k: Option<Id>): int {
    if t.splits != [] then SplitAmounts(t.splits, |t.splits|, k) else if k == t.category then t.amount else 0
  }

  /** A new expense adds its splits, or its whole amount if it has none, to their categories; the refund of a
      whole expense takes exactly that away again; a partial refund of an expense without splits takes its
      amount; nothing else touches a category. */
  lemma RowMovesCategory(txs: map<Id, Transaction>, id: Id, t: Transaction, start: Instant, end: Instant, c: string,
                         k: Option<Id>)
    requires id !in txs && forall x :: x in txs ==> txs[x].related != Some(id)
    requires t.splits != [] ==> SplitTotal(t.splits, |t.splits|) == t.amount
    requires forall x :: x in txs && txs[x].splits != [] ==> SplitTotal(txs[x].splits, |txs[x].splits|) == txs[x].amount
    ensures var move := MonthCategory(txs[id := t], start, end, c, k) - MonthCategory(txs, start, end, c, k);
      if !CountsIn(t, start, end) || t.currency != c then move == 0
      else if t.txType == Expense then move == OwnAmount(t, k)
      else if t.txType == Refund && t.related.Some? && t.related.value in txs && txs[t.related.value].txType == Expense then
        var original := txs[t.related.value];
        && (original.splits == [] ==> move == if k == original.category then -(t.amount as int) else 0)
        && (t.amount == original.amount ==> move == -OwnAmount(original, k))
      else move == 0
  {
    hide SumOver, InPeriod, Portion, SplitAmounts;
    var txs' := txs[id := t];
    RowSums(txs, id, t, start, end, CategoryExpenses(txs, c, k), CategoryExpenses(txs', c, k));
    WholePortion(t, k);
    if t.txType == Refund && t.related.Some? && t.related.value in txs {
      var original := txs[t.related.value];
      WholePortion(original, k);
      PortionNegated(original, t.amount, k);
      UnsplitPortion(original, t.amount, k);
    }
  }

  lemma UnsplitPortion(t: Transaction, amount: int, k: Option<Id>)
    ensures t.splits == [] ==> Portion(t, amount, k) == if k == t.category then amount else 0
  {
  }
}
