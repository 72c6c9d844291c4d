/** Account balances, computed in two places, and the cash-flow summary. */
module Balances {
  import opened Domain
  import opened Refunds
  import opened Sums

  // ----- what a transaction does to an account -----

  /** A refund takes back what its original did: an expense comes back, an income goes out. */
  function RefundSign(txs: map<Id, Transaction>, t: Transaction): int {
    var original := Lookup(txs, t.related);
    if original.Some? && original.value.txType == Expense then 1
    else if original.Some? && original.value.txType == Income then -1
    else 0
  }

  function Effect(txs: map<Id, Transaction>, a: Id, t: Transaction): int {
    match t.txType
    case Income => if t.account == a then t.amount else 0
    case Expense => if t.account == a then -(t.amount as int) else 0
    case Transfer =>
      (if t.target == Some(a) then t.amount else 0) - (if t.account == a then t.amount as int else 0)
    case Adjustment => if t.account == a then t.amount else 0
    case Refund => if t.account == a then RefundSign(txs, t) * t.amount else 0
  }

  function EffectOn(txs: map<Id, Transaction>, a: Id): Id -> int {
    id => if id in txs then Effect(txs, a, txs[id]) else 0
  }

  predicate Touches(t: Transaction, a: Id) {
    t.account == a || t.target == Some(a)
  }

  function EffectiveBefore(txs: map<Id, Transaction>, asOf: Option<Instant>): set<Id> {
    set id | id in txs && Effective(txs[id]) && (asOf.Some? ==> txs[id].occurredAt < asOf.value)
  }

  function Since(txs: map<Id, Transaction>, rows: set<Id>, from: Instant): set<Id> {
    set id | id in rows && id in txs && from <= txs[id].occurredAt
  }

  /** The balance of an account: its opening balance and every effect since then. */
  ghost function Balance(txs: map<Id, Transaction>, a: Id, account: Account, asOf: Option<Instant>): int {
    account.openingBalance + SumOver(Since(txs, EffectiveBefore(txs, asOf), account.openingAt), EffectOn(txs, a))
  }

  // ----- calculate_balances -----

  function Elems(rows: seq<Id>): set<Id> {
    set x | x in rows
  }

  ghost predicate Lists(rows: seq<Id>, s: set<Id>) {
    (forall x: Id :: x in rows <==> x in s) && forall i, j :: 0 <= i < j < |rows| ==> rows[i] != rows[j]
  }

  function LiveAccounts(accounts: map<Id, Account>): set<Id> {
    set a | a in accounts && !accounts[a].deleted
  }

  datatype AccountBalance = AccountBalance(account: Id, currency: string, openingBalance: int, balance: int)

  lemma SinceStep(txs: map<Id, Transaction>, rows: seq<Id>, k: nat, from: Instant, f: Id -> int)
    requires k < |rows| && rows[k] in txs && forall i :: 0 <= i < k ==> rows[i] != rows[k]
    ensures var before, after := Elems(rows[..k]), Elems(rows[..k + 1]);
      SumOver(Since(txs, after, from), f) ==
        SumOver(Since(txs, before, from), f) + (if from <= txs[rows[k]].occurredAt then f(rows[k]) else 0)
  {
    var before, after := Elems(rows[..k]), Elems(rows[..k + 1]);
    assert rows[..k + 1] == rows[..k] + [rows[k]];
    if from <= txs[rows[k]].occurredAt {
      assert Since(txs, after, from) == Since(txs, before, from) + {rows[k]};
      SumInsert(Since(txs, before, from), f, rows[k]);
    } else {
      assert Since(txs, after, from) == Since(txs, before, from);
    }
  }

  /** The inner loop: `rows` are the effective transactions in whatever order the query returns them. */
  method BalanceOf(txs: map<Id, Transaction>, a: Id, account: Account, rows: seq<Id>) returns (balance: int)
    requires forall x: Id :: x in rows ==> x in txs
    requires forall i, j :: 0 <= i < j < |rows| ==> rows[i] != rows[j]
    ensures balance == account.openingBalance + SumOver(Since(txs, Elems(rows), account.openingAt), EffectOn(txs, a))
  {
    balance := account.openingBalance;
    ghost var effect := EffectOn(txs, a);
    for k := 0 to |rows|
      invariant balance == account.openingBalance
        + SumOver(Since(txs, Elems(rows[..k]), account.openingAt), effect)
    {
      var item := txs[rows[k]];
      SinceStep(txs, rows, k, account.openingAt, effect);
      if item.occurredAt < account.openingAt {
        continue;
      }
      if item.txType == Income && item.account == a {
        balance := balance + item.amount;
      } else if item.txType == Expense && item.account == a {
        balance := balance - item.amount;
      } else if item.txType == Transfer {
        if item.account == a {
          balance := balance - item.amount;
        }
        if item.target == Some(a) {
          balance := balance + item.amount;
        }
      } else if item.txType == Adjustment && item.account == a {
        balance := balance + item.amount;
      } else if item.txType == Refund && item.account == a {
        var original := Lookup(txs, item.related);
        if original.Some? && original.value.txType == Expense {
          balance := balance + item.amount;
        } else if original.Some? && original.value.txType == Income {
          balance := balance - item.amount;
        }
      }
    }
    assert rows[..|rows|] == rows;
  }

  /** One balance for every live account that is open at `asOf`, in the order of the accounts. */
  method CalculateBalances(accounts: map<Id, Account>, txs: map<Id, Transaction>, asOf: Option<Instant>,
                           order: seq<Id>, rows: seq<Id>) returns (result: seq<AccountBalance>)
    requires Lists(order, LiveAccounts(accounts)) && Lists(rows, EffectiveBefore(txs, asOf))
    ensures forall a :: a in accounts && !accounts[a].deleted && (asOf.Some? ==> accounts[a].openingAt < asOf.value) ==>
      AccountBalance(a, accounts[a].currency, accounts[a].openingBalance, Balance(txs, a, accounts[a], asOf)) in result
    ensures forall b :: b in result ==>
      && b.account in accounts && !accounts[b.account].deleted
      && (asOf.Some? ==> accounts[b.account].openingAt < asOf.value)
      && b.balance == Balance(txs, b.account, accounts[b.account], asOf)
  {
    hide SumOver, Since, EffectOn;
    result := [];
    for k := 0 to |order|
      invariant forall a :: a in order[..k] && a in accounts && (asOf.Some? ==> accounts[a].openingAt < asOf.value) ==>
        AccountBalance(a, accounts[a].currency, accounts[a].openingBalance, Balance(txs, a, accounts[a], asOf)) in result
      invariant forall b :: b in result ==>
        && b.account in order[..k] && b.account in accounts
        && (asOf.Some? ==> accounts[b.account].openingAt < asOf.value)
        && b.balance == Balance(txs, b.account, accounts[b.account], asOf)
    {
      var a := order[k];
      assert a in order;
      assert order[..k + 1] == order[..k] + [a];
      var account := accounts[a];
      if asOf.Some? && account.openingAt >= asOf.value {
        continue;
      }
      var balance := BalanceOf(txs, a, account, rows);
      assert Elems(rows) == EffectiveBefore(txs, asOf);
      result := result + [AccountBalance(a, account.currency, account.openingBalance, balance)];
    }
    assert order[..|order|] == order;
  }

  // ----- the balance of a reconciliation -----

  function Statement(txs: map<Id, Transaction>, a: Id, account: Account, cutoff: Instant): set<Id> {
    set id | id in txs && Effective(txs[id]) && account.openingAt <= txs[id].occurredAt < cutoff && Touches(txs[id], a)
  }

  /** `_transaction_effects`: the signed amounts, or the currency conflict. */
  method TransactionEffects(txs: map<Id, Transaction>, a: Id, account: Account, rows: seq<Id>)
      returns (ok: bool, effects: map<Id, int>)
    requires forall x: Id :: x in rows ==> x in txs
    ensures ok <==> forall x: Id :: x in rows ==> txs[x].currency == account.currency
    ensures ok ==> effects.Keys == Elems(rows) && forall x: Id :: x in rows ==> effects[x] == Effect(txs, a, txs[x])
  {
    effects := map[];
    for k := 0 to |rows|
      invariant forall x: Id :: x in rows[..k] ==> txs[x].currency == account.currency
      invariant effects.Keys == Elems(rows[..k])
      invariant forall x: Id :: x in rows[..k] ==> effects[x] == Effect(txs, a, txs[x])
    {
      var item := txs[rows[k]];
      assert rows[k] in rows;
      assert rows[..k + 1] == rows[..k] + [rows[k]];
      if item.currency != account.currency {
        return false, map[];
      }
      var effect: int := 0;
      if item.txType == Income && item.account == a {
        effect := item.amount;
      } else if item.txType == Expense && item.account == a {
        effect := -(item.amount as int);
      } else if item.txType == Transfer {
        if item.account == a {
          effect := effect - item.amount;
        }
        if item.target == Some(a) {
          effect := effect + item.amount;
        }
      } else if item.txType == Adjustment && item.account == a {
        effect := item.amount;
      } else if item.txType == Refund && item.account == a {
        var original := Lookup(txs, item.related);
        if original.Some? && original.value.txType == Expense {
          effect := item.amount;
        } else if original.Some? && original.value.txType == Income {
          effect := -(item.amount as int);
        }
      }
      effects := effects[rows[k] := effect];
    }
    assert rows[..|rows|] == rows;
    return true, effects;
  }

  ghost function StatementBalance(txs: map<Id, Transaction>, a: Id, account: Account, cutoff: Instant): int {
    account.openingBalance + SumOver(Statement(txs, a, account, cutoff), EffectOn(txs, a))
  }

  /** The two algorithms agree: summing the account's own transactions up to the cutoff gives the balance
      as of the cutoff. */
  lemma TwoBalancesAgree(txs: map<Id, Transaction>, a: Id, account: Account, cutoff: Instant)
    ensures StatementBalance(txs, a, account, cutoff) == Balance(txs, a, account, Some(cutoff))
  {
    var all := Since(txs, EffectiveBefore(txs, Some(cutoff)), account.openingAt);
    var own := Statement(txs, a, account, cutoff);
    assert own <= all;
    SumUnion(own, all - own, EffectOn(txs, a));
    assert own + (all - own) == all;
    SumZero(all - own, EffectOn(txs, a));
  }

  // ----- the cash-flow summary -----

  function NetOf(txs: map<Id, Transaction>, t: Transaction): int {
    match t.txType
    case Income => t.amount
    case Expense => -(t.amount as int)
    case Transfer => 0
    case Adjustment => t.amount
    case Refund => RefundSign(txs, t) * t.amount
  }

  function NetIn(txs: map<Id, Transaction>, currency: string): Id -> int {
    id => if id in txs && txs[id].currency == currency then NetOf(txs, txs[id]) else 0
  }

  datatype SummaryTotals = SummaryTotals(income: int, expense: int, adjustment: int, transfer: int, count: nat)

  function NetCashflow(s: SummaryTotals): int {
    s.income - s.expense + s.adjustment
  }

  function CountIn(txs: map<Id, Transaction>, currency: string): Id -> int {
    id => if id in txs && txs[id].currency == currency then 1 else 0
  }

  function TypedIn(txs: map<Id, Transaction>, currency: string, kind: TxType): Id -> int {
    id => if id in txs && txs[id].currency == currency && txs[id].txType == kind then txs[id].amount else 0
  }

  /** Income or expense by row: the row itself adds, its refund takes away. */
  function FlowIn(txs: map<Id, Transaction>, currency: string, kind: TxType): Id -> int {
    id =>
      if id !in txs || txs[id].currency != currency then 0
      else if txs[id].txType == kind then txs[id].amount
      else if txs[id].txType == Refund && Lookup(txs, txs[id].related).Some?
              && Lookup(txs, txs[id].related).value.txType == kind then -(txs[id].amount as int)
      else 0
  }

  /** What the loop of `calculate_summary` has gathered for one currency from the rows of `done`. */
  ghost predicate Gathers(s: SummaryTotals, txs: map<Id, Transaction>, done: set<Id>, currency: string) {
    && NetCashflow(s) == SumOver(done, NetIn(txs, currency))
    && s.income == SumOver(done, FlowIn(txs, currency, Income))
    && s.expense == SumOver(done, FlowIn(txs, currency, Expense))
    && s.adjustment == SumOver(done, TypedIn(txs, currency, Adjustment))
    && s.transfer == SumOver(done, TypedIn(txs, currency, Transfer))
    && s.count == SumOver(done, CountIn(txs, currency))
  }

  ghost predicate Grows(done: set<Id>, f: Id -> int, id: Id) {
    SumOver(done + {id}, f) == SumOver(done, f) + f(id)
  }

  lemma GatherStep(txs: map<Id, Transaction>, done: set<Id>, id: Id, currency: string)
    requires id !in done
    ensures Grows(done, NetIn(txs, currency), id)
    ensures forall kind :: Grows(done, FlowIn(txs, currency, kind), id)
    ensures forall kind :: Grows(done, TypedIn(txs, currency, kind), id)
    ensures Grows(done, CountIn(txs, currency), id)
  {
    SumInsert(done, NetIn(txs, currency), id);
    forall kind ensures Grows(done, FlowIn(txs, currency, kind), id) {
      SumInsert(done, FlowIn(txs, currency, kind), id);
    }
    forall kind ensures Grows(done, TypedIn(txs, currency, kind), id) {
      SumInsert(done, TypedIn(txs, currency, kind), id);
    }
    SumInsert(done, CountIn(txs, currency), id);
  }

  function InCurrency(txs: map<Id, Transaction>, rows: set<Id>, currency: string): set<Id> {
    set id | id in rows && id in txs && txs[id].currency == currency
  }

  function OfType(txs: map<Id, Transaction>, rows: set<Id>, currency: string, kind: TxType): set<Id> {
    set id | id in rows && id in txs && txs[id].currency == currency && txs[id].txType == kind
  }

  function RefundsOn(txs: map<Id, Transaction>, rows: set<Id>, currency: string, kind: TxType): set<Id> {
    set id | id in rows && id in txs && txs[id].currency == currency && txs[id].txType == Refund
      && txs[id].related.Some? && txs[id].related.value in txs && txs[txs[id].related.value].txType == kind
  }

  /** The summary of a currency: incomes without what of them was refunded, expenses likewise, adjustments,
      transfers, and the number of rows. */
  ghost predicate Summarizes(s: SummaryTotals, txs: map<Id, Transaction>, rows: set<Id>, currency: string) {
    var amounts := AmountOf(txs);
    && s.income == SumOver(OfType(txs, rows, currency, Income), amounts) - SumOver(RefundsOn(txs, rows, currency, Income), amounts)
    && s.expense == SumOver(OfType(txs, rows, currency, Expense), amounts) - SumOver(RefundsOn(txs, rows, currency, Expense), amounts)
    && s.adjustment == SumOver(OfType(txs, rows, currency, Adjustment), amounts)
    && s.transfer == SumOver(OfType(txs, rows, currency, Transfer), amounts)
    && s.count == |InCurrency(txs, rows, currency)|
  }

  lemma FlowMeans(txs: map<Id, Transaction>, rows: set<Id>, currency: string, kind: TxType)
    requires kind != Refund
    ensures SumOver(rows, FlowIn(txs, currency, kind))
         == SumOver(OfType(txs, rows, currency, kind), AmountOf(txs)) - SumOver(RefundsOn(txs, rows, currency, kind), AmountOf(txs))
  {
    var own, refunds, flow := OfType(txs, rows, currency, kind), RefundsOn(txs, rows, currency, kind), FlowIn(txs, currency, kind);
    SumWhere(rows, own + refunds, flow);
    SumUnion(own, refunds, flow);
    SumEqual(own, flow, AmountOf(txs));
    SumScaled(refunds, AmountOf(txs), flow, -1);
  }

  lemma GathersMean(s: SummaryTotals, txs: map<Id, Transaction>, rows: set<Id>, currency: string)
    requires Gathers(s, txs, rows, currency)
    ensures Summarizes(s, txs, rows, currency)
  {
    hide SumOver;
    FlowMeans(txs, rows, currency, Income);
    FlowMeans(txs, rows, currency, Expense);
    TypedMeans(txs, rows, currency, Adjustment);
    TypedMeans(txs, rows, currency, Transfer);
    SumWhere(rows, InCurrency(txs, rows, currency), CountIn(txs, currency));
    SumOnes(InCurrency(txs, rows, currency), CountIn(txs, currency));
  }

  lemma TypedMeans(txs: map<Id, Transaction>, rows: set<Id>, currency: string, kind: TxType)
    ensures SumOver(rows, TypedIn(txs, currency, kind)) == SumOver(OfType(txs, rows, currency, kind), AmountOf(txs))
  {
    SumWhere(rows, OfType(txs, rows, currency, kind), TypedIn(txs, currency, kind));
    SumEqual(OfType(txs, rows, currency, kind), TypedIn(txs, currency, kind), AmountOf(txs));
  }

  const NOTHING := SummaryTotals(0, 0, 0, 0, 0)

  function TotalsOf(totals: map<string, SummaryTotals>, currency: string): SummaryTotals {
    if currency in totals then totals[currency] else NOTHING
  }

  ghost predicate AllGather(totals: map<string, SummaryTotals>, txs: map<Id, Transaction>, done: set<Id>) {
    forall c :: Gathers(TotalsOf(totals, c), txs, done, c)
  }

  lemma AllGatherStep(totals: map<string, SummaryTotals>, txs: map<Id, Transaction>, done: set<Id>, id: Id,
                      group: SummaryTotals)
    requires AllGather(totals, txs, done) && id !in done && id in txs
    requires Gathers(group, txs, done + {id}, txs[id].currency)
    ensures AllGather(totals[txs[id].currency := group], txs, done + {id})
  {
    hide SumOver;
    var totals' := totals[txs[id].currency := group];
    forall c ensures Gathers(TotalsOf(totals', c), txs, done + {id}, c) {
      assert Gathers(TotalsOf(totals, c), txs, done, c);
      GatherStep(txs, done, id, c);
    }
  }

  lemma NothingGathered(txs: map<Id, Transaction>)
    ensures AllGather(map[], txs, {})
  {
    hide SumOver, Gathers;
    forall c ensures Gathers(TotalsOf(map[], c), txs, {}, c) {
      NothingIn(txs, c);
    }
  }

  lemma NothingIn(txs: map<Id, Transaction>, currency: string)
    ensures Gathers(NOTHING, txs, {}, currency)
  {
    SumZero({}, NetIn(txs, currency));
    SumZero({}, FlowIn(txs, currency, Income));
    SumZero({}, FlowIn(txs, currency, Expense));
    SumZero({}, TypedIn(txs, currency, Adjustment));
    SumZero({}, TypedIn(txs, currency, Transfer));
    SumZero({}, CountIn(txs, currency));
  }

  method AddToGroup(group: SummaryTotals, txs: map<Id, Transaction>, id: Id, ghost done: set<Id>)
      returns (after: SummaryTotals)
    requires id in txs && id !in done && Gathers(group, txs, done, txs[id].currency)
    ensures Gathers(after, txs, done + {id}, txs[id].currency)
  {
    hide SumOver;
    var item := txs[id];
    GatherStep(txs, done, id, item.currency);
    after := group.(count := group.count + 1);
    match item.txType {
      case Income => after := after.(income := after.income + item.amount);
      case Expense => after := after.(expense := after.expense + item.amount);
      case Transfer => after := after.(transfer := after.transfer + item.amount);
      case Adjustment => after := after.(adjustment := after.adjustment + item.amount);
      case Refund =>
        var original := Lookup(txs, item.related);
        if original.Some? && original.value.txType == Expense {
          after := after.(expense := after.expense - item.amount);
        } else if original.Some? && original.value.txType == Income {
          after := after.(income := after.income - item.amount);
        }
    }
  }

  /** The loop of `calculate_summary` over the rows of the query, in any order. */
  method CalculateSummary(txs: map<Id, Transaction>, rows: seq<Id>) returns (totals: map<string, SummaryTotals>)
    requires forall x: Id :: x in rows ==> x in txs
    requires forall i, j :: 0 <= i < j < |rows| ==> rows[i] != rows[j]
    ensures forall c :: Gathers(TotalsOf(totals, c), txs, Elems(rows), c) && Summarizes(TotalsOf(totals, c), txs, Elems(rows), c)
  {
    hide SumOver, Gathers, Summarizes;
    totals := map[];
    ghost var done: set<Id> := {};
    NothingGathered(txs);
    for k := 0 to |rows|
      invariant done == Elems(rows[..k])
      invariant AllGather(totals, txs, done)
    {
      var id := rows[k];
      assert id in rows;
      assert rows[..k + 1] == rows[..k] + [id];
      var group := AddToGroup(TotalsOf(totals, txs[id].currency), txs, id, done);
      AllGatherStep(totals, txs, done, id, group);
      totals := totals[txs[id].currency := group];
      done := done + {id};
    }
    assert rows[..|rows|] == rows;
    forall c ensures Summarizes(TotalsOf(totals, c), txs, Elems(rows), c) {
      GathersMean(TotalsOf(totals, c), txs, Elems(rows), c);
    }
  }

  // ----- balances and cash flow -----

  function Row<K(!new), L(!new)>(f: (K, L) -> int, k: K): L -> int {
    l => f(k, l)
  }

  function Column<K(!new), L(!new)>(f: (K, L) -> int, l: L): K -> int {
    k => f(k, l)
  }

  ghost function RowSums<K(!new), L(!new)>(t: set<L>, f: (K, L) -> int): K -> int {
    k => SumOver(t, Row(f, k))
  }

  ghost function ColumnSums<K(!new), L(!new)>(s: set<K>, f: (K, L) -> int): L -> int {
    l => SumOver(s, Column(f, l))
  }

  lemma {:induction false} SwapSums<K(!new), L(!new)>(s: set<K>, t: set<L>, f: (K, L) -> int)
    ensures SumOver(s, RowSums(t, f)) == SumOver(t, ColumnSums(s, f))
    decreases |t|
  {
    if t == {} {
      SumZero(s, RowSums(t, f));
    } else {
      var x :| x in t;
      var rest := t - {x};
      forall k | k in s ensures RowSums(t, f)(k) == Column(f, x)(k) + RowSums(rest, f)(k) {
        SumExtract(t, Row(f, k), x);
      }
      SumPlus(s, Column(f, x), RowSums(rest, f), RowSums(t, f));
      SwapSums(s, rest, f);
      SumExtract(t, ColumnSums(s, f), x);
    }
  }

  /** The books of one currency are closed: every effective transaction in it stays on its live accounts,
      which were all opened before it, and no other transaction touches them. */
  ghost predicate ClosedCurrency(accounts: map<Id, Account>, txs: map<Id, Transaction>, members: set<Id>, currency: string,
                                 asOf: Option<Instant>) {
    && members <= accounts.Keys
    && forall id :: id in EffectiveBefore(txs, asOf) ==>
         var t := txs[id];
         && (t.currency == currency ==>
               && t.account in members
               && (t.txType == Transfer ==> t.target.Some? && t.target.value in members))
         && (forall a :: a in members && Touches(t, a) ==> t.currency == currency && accounts[a].openingAt <= t.occurredAt)
  }

  ghost function BalanceChange(accounts: map<Id, Account>, txs: map<Id, Transaction>, asOf: Option<Instant>): Id -> int {
    a => if a in accounts then Balance(txs, a, accounts[a], asOf) - accounts[a].openingBalance else 0
  }

  ghost function EffectsOf(txs: map<Id, Transaction>, id: Id): Id -> int {
    (a: Id) => if id in txs then Effect(txs, a, txs[id]) else 0
  }

  /** The change of all balances of a currency is its net cash flow: transfers cancel, and every other
      transaction counts once. */
  lemma BalancesAreCashflow(accounts: map<Id, Account>, txs: map<Id, Transaction>, members: set<Id>, currency: string,
                            asOf: Option<Instant>)
    requires ClosedCurrency(accounts, txs, members, currency, asOf)
    ensures SumOver(members, BalanceChange(accounts, txs, asOf))
         == SumOver(EffectiveBefore(txs, asOf), NetIn(txs, currency))
  {
    hide SumOver, ClosedCurrency;
    var rows := EffectiveBefore(txs, asOf);
    var effect := (a: Id, id: Id) => if id in txs then Effect(txs, a, txs[id]) else 0;
    forall a | a in members ensures BalanceChange(accounts, txs, asOf)(a) == RowSums(rows, effect)(a) {
      WholeHistory(accounts, txs, members, currency, asOf, a);
      SumEqual(rows, EffectOn(txs, a), Row(effect, a));
    }
    SumEqual(members, BalanceChange(accounts, txs, asOf), RowSums(rows, effect));
    SwapSums(members, rows, effect);
    forall id | id in rows ensures ColumnSums(members, effect)(id) == NetIn(txs, currency)(id) {
      OneTransaction(accounts, txs, members, currency, asOf, id);
      SumEqual(members, Column(effect, id), EffectsOf(txs, id));
    }
    SumEqual(rows, ColumnSums(members, effect), NetIn(txs, currency));
  }

  lemma WholeHistory(accounts: map<Id, Account>, txs: map<Id, Transaction>, members: set<Id>, currency: string,
                     asOf: Option<Instant>, a: Id)
    requires ClosedCurrency(accounts, txs, members, currency, asOf) && a in members
    ensures a in accounts
    ensures BalanceChange(accounts, txs, asOf)(a) == SumOver(EffectiveBefore(txs, asOf), EffectOn(txs, a))
  {
    var rows := EffectiveBefore(txs, asOf);
    var kept := Since(txs, rows, accounts[a].openingAt);
    SumUnion(kept, rows - kept, EffectOn(txs, a));
    assert kept + (rows - kept) == rows;
    SumZero(rows - kept, EffectOn(txs, a));
  }

  lemma OneTransaction(accounts: map<Id, Account>, txs: map<Id, Transaction>, members: set<Id>, currency: string,
                       asOf: Option<Instant>, id: Id)
    requires ClosedCurrency(accounts, txs, members, currency, asOf) && id in EffectiveBefore(txs, asOf)
    ensures SumOver(members, EffectsOf(txs, id)) == NetIn(txs, currency)(id)
  {
    hide SumOver;
    var t, f := txs[id], EffectsOf(txs, id);
    assert forall a: Id :: a in members && f(a) != 0 ==> Touches(t, a);
    if t.currency != currency {
      SumZero(members, f);
    } else {
      SumExtract(members, f, t.account);
      if t.txType == Transfer && t.target.value != t.account {
        SumExtract(members - {t.account}, f, t.target.value);
        SumZero(members - {t.account} - {t.target.value}, f);
      } else {
        SumZero(members - {t.account}, f);
      }
    }
  }
}
