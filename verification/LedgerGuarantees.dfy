/** What the ledger commands keep over every run: closed history, the links of reconciliations, currencies
    and split totals; and where a closed balance or a refund limit can still move. */
module LedgerGuarantees {
  import opened Domain
  import opened Sums
  import opened Refunds
  import opened Balances
  import opened LedgerSpec

  // ----- closed history -----

  lemma SettleKeepsState(l: Ledger, q: StatementRequest, token: Token, key: string, cutoff: Instant)
    requires q.account in l.accounts
    requires forall x :: x in token.candidates && x in l.txs ==> Effective(l.txs[x])
    ensures StateAt(Settle(l, q, token, key), cutoff) == StateAt(l, cutoff)
  {
    var l' := Settle(l, q, token, key);
    assert StateAt(l', cutoff).txs == StateAt(l, cutoff).txs;
    assert StateAt(l', cutoff).accounts == StateAt(l, cutoff).accounts;
  }

  /** A reconciliation changes the financial state of no cutoff at all. */
  lemma ConfirmKeepsState(l: Ledger, q: StatementRequest, token: Token, key: string, cutoff: Instant)
    ensures StateAt(Step(l, Confirm(q, token, key)), cutoff) == StateAt(l, cutoff)
  {
    hide StateAt;
    var c := Confirm(q, token, key);
    if Accepts(l, c) {
      assert Step(l, c) == Settle(l, q, token, key);
      SettleKeepsState(l, q, token, key, cutoff);
    }
  }

  lemma AccountStepKeepsState(l: Ledger, c: Action, cutoff: Instant)
    requires l.closedBefore.Some? && cutoff <= l.closedBefore.value && Accepts(l, c)
    requires c.CreateAccount? || c.UpdateAccount? || c.DeleteAccount? || c.RestoreAccount?
    ensures StateAt(Step(l, c), cutoff) == StateAt(l, cutoff)
  {
    hide NameTaken, HasTransactions;
    assert StateAt(Step(l, c), cutoff).accounts == StateAt(l, cutoff).accounts;
  }

  lemma TransactionStepKeepsState(l: Ledger, c: Action, cutoff: Instant)
    requires l.closedBefore.Some? && cutoff <= l.closedBefore.value && Accepts(l, c)
    requires c.CreateTransaction? || c.UpdateTransaction? || c.MoveTransaction?
    ensures StateAt(Step(l, c), cutoff) == StateAt(l, cutoff)
  {
    hide WellShaped, RefundAllowed, TxStateOf;
    assert StateAt(Step(l, c), cutoff).txs == StateAt(l, cutoff).txs;
  }

  /** No accepted command changes the financial state of the closed part of history. */
  lemma StepKeepsClosed(l: Ledger, c: Action, cutoff: Instant)
    requires l.closedBefore.Some? && cutoff <= l.closedBefore.value
    ensures StateAt(Step(l, c), cutoff) == StateAt(l, cutoff)
    ensures Step(l, c).closedBefore.Some? && l.closedBefore.value <= Step(l, c).closedBefore.value
  {
    hide StateAt, WellShaped, RefundAllowed, MayUpdate, MayMove, AffectsClosed, NameTaken, BuildPreview;
    if Accepts(l, c) {
      if c.CreateAccount? || c.UpdateAccount? || c.DeleteAccount? || c.RestoreAccount? {
        AccountStepKeepsState(l, c, cutoff);
      } else if c.CreateTransaction? || c.UpdateTransaction? || c.MoveTransaction? {
        TransactionStepKeepsState(l, c, cutoff);
      } else if c.Confirm? {
        ConfirmKeepsState(l, c.request, c.token, c.key, cutoff);
      } else {
        CloseKeepsState(l, c.before, cutoff);
      }
    }
  }

  lemma CloseKeepsState(l: Ledger, before: Instant, cutoff: Instant)
    ensures StateAt(l.(closedBefore := Some(before)), cutoff) == StateAt(l, cutoff)
  {
  }

  /** Once closed, history stays as it was closed, over every run in which closing only moves forward. */
  lemma {:induction false} ClosedHistoryIsStable(l: Ledger, actions: seq<Action>, cutoff: Instant)
    requires l.closedBefore.Some? && cutoff <= l.closedBefore.value
    ensures StateAt(Run(l, actions), cutoff) == StateAt(l, cutoff)
    ensures Run(l, actions).closedBefore.Some? && cutoff <= Run(l, actions).closedBefore.value
    decreases |actions|
  {
    hide StateAt, Step;
    if actions != [] {
      var before := actions[..|actions| - 1];
      ClosedHistoryIsStable(l, before, cutoff);
      StepKeepsClosed(Run(l, before), actions[|actions| - 1], cutoff);
    }
  }

  // ----- closed balances -----

  /** Every effective refund before the cutoff refunds a transaction before the cutoff. */
  predicate RefundsClosed(txs: map<Id, Transaction>, cutoff: Instant) {
    forall x :: x in txs && Effective(txs[x]) && txs[x].occurredAt < cutoff && txs[x].txType == Refund ==>
      txs[x].related.Some? && txs[x].related.value in txs && txs[txs[x].related.value].occurredAt < cutoff
  }

  lemma SameTransaction(l: Ledger, l': Ledger, cutoff: Instant, x: Id)
    requires StateAt(l', cutoff) == StateAt(l, cutoff)
    ensures x in l.txs && l.txs[x].occurredAt < cutoff <==> x in l'.txs && l'.txs[x].occurredAt < cutoff
    ensures x in l.txs && l.txs[x].occurredAt < cutoff ==> TxStateOf(l'.txs[x]) == TxStateOf(l.txs[x])
  {
    hide TxStateOf;
    assert x in l.txs && l.txs[x].occurredAt < cutoff <==> x in StateAt(l, cutoff).txs;
    assert x in l'.txs && l'.txs[x].occurredAt < cutoff <==> x in StateAt(l', cutoff).txs;
  }

  lemma SameAccount(l: Ledger, l': Ledger, cutoff: Instant, a: Id)
    requires StateAt(l', cutoff) == StateAt(l, cutoff)
    requires a in l.accounts && l.accounts[a].openingAt < cutoff
    ensures a in l'.accounts && AccountStateOf(l'.accounts[a]) == AccountStateOf(l.accounts[a])
  {
    hide AccountStateOf;
    assert a in StateAt(l, cutoff).accounts;
    assert a in StateAt(l', cutoff).accounts;
  }

  lemma SameEffect(l: Ledger, l': Ledger, cutoff: Instant, a: Id, x: Id)
    requires StateAt(l', cutoff) == StateAt(l, cutoff) && RefundsClosed(l.txs, cutoff)
    requires x in l.txs && l.txs[x].occurredAt < cutoff && Effective(l.txs[x])
    ensures x in l'.txs && EffectOn(l'.txs, a)(x) == EffectOn(l.txs, a)(x)
  {
    hide StateAt;
    SameTransaction(l, l', cutoff, x);
    if l.txs[x].txType == Refund {
      SameTransaction(l, l', cutoff, l.txs[x].related.value);
    }
  }

  lemma SameRows(l: Ledger, l': Ledger, cutoff: Instant, from: Instant)
    requires StateAt(l', cutoff) == StateAt(l, cutoff)
    ensures Since(l'.txs, EffectiveBefore(l'.txs, Some(cutoff)), from)
         == Since(l.txs, EffectiveBefore(l.txs, Some(cutoff)), from)
  {
    hide StateAt;
    forall x: Id {
      SameTransaction(l, l', cutoff, x);
    }
  }

  /** The financial state fixes every balance as of its cutoff, provided no closed refund has an open
      original. */
  lemma StateFixesBalances(l: Ledger, l': Ledger, cutoff: Instant, a: Id)
    requires StateAt(l', cutoff) == StateAt(l, cutoff) && RefundsClosed(l.txs, cutoff)
    requires a in l.accounts && l.accounts[a].openingAt < cutoff
    ensures a in l'.accounts && l'.accounts[a].openingAt < cutoff
    ensures Balance(l'.txs, a, l'.accounts[a], Some(cutoff)) == Balance(l.txs, a, l.accounts[a], Some(cutoff))
  {
    hide StateAt, RefundsClosed;
    SameAccount(l, l', cutoff, a);
    SameRows(l, l', cutoff, l.accounts[a].openingAt);
    var rows := Since(l.txs, EffectiveBefore(l.txs, Some(cutoff)), l.accounts[a].openingAt);
    forall x | x in rows ensures EffectOn(l'.txs, a)(x) == EffectOn(l.txs, a)(x) {
      SameEffect(l, l', cutoff, a, x);
    }
    SumEqual(rows, EffectOn(l'.txs, a), EffectOn(l.txs, a));
  }

  /** ... hence closed balances are stable over every run. */
  lemma ClosedBalancesAreStable(l: Ledger, actions: seq<Action>, a: Id)
    requires l.closedBefore.Some? && RefundsClosed(l.txs, l.closedBefore.value)
    requires a in l.accounts && l.accounts[a].openingAt < l.closedBefore.value
    ensures var cutoff, l' := l.closedBefore.value, Run(l, actions);
      a in l'.accounts && Balance(l'.txs, a, l'.accounts[a], Some(cutoff)) == Balance(l.txs, a, l.accounts[a], Some(cutoff))
  {
    hide StateAt, Step, RefundsClosed;
    ClosedHistoryIsStable(l, actions, l.closedBefore.value);
    StateFixesBalances(l, Run(l, actions), l.closedBefore.value, a);
  }

  // ----- how an open original moves a closed balance -----

  function TypeSign(t: TxType): int {
    if t == Expense then 1 else if t == Income then -1 else 0
  }

  /** The refunds of `id` that count in the balance of `a` as of the cutoff. */
  function CountedRefunds(l: Ledger, id: Id, a: Id, cutoff: Instant): set<Id>
    requires a in l.accounts
  {
    set x | x in Since(l.txs, EffectiveBefore(l.txs, Some(cutoff)), l.accounts[a].openingAt)
      && l.txs[x].txType == Refund && l.txs[x].related == Some(id) && l.txs[x].account == a
  }

  /** An accepted update of a transaction moves a closed balance exactly by the amount of its closed
      refunds times the change of its sign: the closed balance stays if and only if the type keeps its
      sign or no closed refund of it counts there. */
  lemma UpdateMovesClosedBalance(l: Ledger, c: Action, a: Id)
    requires c.UpdateTransaction? && Accepts(l, c) && l.closedBefore.Some? && a in l.accounts
    ensures var cutoff := l.closedBefore.value;
      var before, after := Balance(l.txs, a, l.accounts[a], Some(cutoff)),
                           Balance(Step(l, c).txs, a, l.accounts[a], Some(cutoff));
      var sign := TypeSign(c.row.txType) - TypeSign(l.txs[c.id].txType);
      && after - before == sign * SumOver(CountedRefunds(l, c.id, a, cutoff), AmountOf(l.txs))
      && (after == before <==> sign == 0 || CountedRefunds(l, c.id, a, cutoff) == {})
  {
    hide Step, Accepts;
    UpdateShape(l, c);
    var cutoff, l' := l.closedBefore.value, Step(l, c);
    var rows := Since(l.txs, EffectiveBefore(l.txs, Some(cutoff)), l.accounts[a].openingAt);
    ClosedRowsStay(l.txs, l'.txs, c.id, cutoff, l.accounts[a].openingAt);
    BalanceOver(l.txs, a, l.accounts[a], cutoff, rows);
    BalanceOver(l'.txs, a, l.accounts[a], cutoff, rows);
    hide Balance, Since, EffectiveBefore, SumOver, TypeSign;
    MovedSum(l.txs, l'.txs, rows, CountedRefunds(l, c.id, a, cutoff), c.id, a);
  }

  lemma BalanceOver(txs: map<Id, Transaction>, a: Id, account: Account, cutoff: Instant, rows: set<Id>)
    requires rows == Since(txs, EffectiveBefore(txs, Some(cutoff)), account.openingAt)
    ensures Balance(txs, a, account, Some(cutoff)) == account.openingBalance + SumOver(rows, EffectOn(txs, a))
  {
  }

  lemma ClosedRowsStay(txs: map<Id, Transaction>, txs': map<Id, Transaction>, id: Id, cutoff: Instant, from: Instant)
    requires id in txs && id in txs' && txs' == txs[id := txs'[id]]
    requires cutoff <= txs[id].occurredAt && cutoff <= txs'[id].occurredAt
    ensures var rows := Since(txs, EffectiveBefore(txs, Some(cutoff)), from);
      id !in rows && rows <= txs.Keys && Since(txs', EffectiveBefore(txs', Some(cutoff)), from) == rows
  {
  }

  lemma UpdateShape(l: Ledger, c: Action)
    requires c.UpdateTransaction? && Accepts(l, c)
    ensures c.id in l.txs && !Closed(l.closedBefore, l.txs[c.id].occurredAt) && !Closed(l.closedBefore, c.row.occurredAt)
    ensures Step(l, c) == l.(txs := l.txs[c.id := c.row.(deleted := false, version := c.version + 1)])
  {
    hide WellShaped, RefundAllowed;
  }

  lemma MovedSum(txs: map<Id, Transaction>, txs': map<Id, Transaction>, rows: set<Id>, moved: set<Id>, id: Id, a: Id)
    requires id in txs && id in txs' && id !in rows && rows <= txs.Keys
    requires txs' == txs[id := txs'[id]]
    requires forall x :: x in moved <==>
      x in rows && txs[x].txType == Refund && txs[x].related == Some(id) && txs[x].account == a
    ensures var sign := TypeSign(txs'[id].txType) - TypeSign(txs[id].txType);
      var shift := SumOver(rows, EffectOn(txs', a)) - SumOver(rows, EffectOn(txs, a));
      && shift == sign * SumOver(moved, AmountOf(txs))
      && (shift == 0 <==> sign == 0 || moved == {})
  {
    hide SumOver;
    var sign := TypeSign(txs'[id].txType) - TypeSign(txs[id].txType);
    var shift := (x: Id) => EffectOn(txs', a)(x) - EffectOn(txs, a)(x);
    forall x | x in rows ensures shift(x) == if x in moved then sign * AmountOf(txs)(x) else 0 {
      ShiftOf(txs, txs', id, a, x);
    }
    SumPlus(rows, EffectOn(txs, a), shift, EffectOn(txs', a));
    SumUnion(moved, rows - moved, shift);
    assert moved + (rows - moved) == rows;
    SumZero(rows - moved, shift);
    SumScaled(moved, AmountOf(txs), shift, sign);
    hide EffectOn, TypeSign;
    if moved == {} {
      SumZero(moved, AmountOf(txs));
    } else {
      SumPositive(moved, AmountOf(txs));
      NonZeroFactor(sign, SumOver(moved, AmountOf(txs)));
    }
  }

  lemma NonZeroFactor(sign: int, sum: int)
    requires sum > 0
    ensures sign * sum == 0 <==> sign == 0
  {
  }

  lemma ShiftOf(txs: map<Id, Transaction>, txs': map<Id, Transaction>, id: Id, a: Id, x: Id)
    requires id in txs && id in txs' && x in txs && x != id && txs' == txs[id := txs'[id]]
    ensures EffectOn(txs', a)(x) - EffectOn(txs, a)(x) ==
      if txs[x].txType == Refund && txs[x].related == Some(id) && txs[x].account == a then
        (TypeSign(txs'[id].txType) - TypeSign(txs[id].txType)) * AmountOf(txs)(x)
      else 0
  {
    assert txs'[x] == txs[x];
  }

  const SAMPLE_ACCOUNT := Account("cash", "EUR", 0, 0, false, false, 1)

  function SampleOriginal(): Transaction {
    Transaction(150, Expense, 10_000, "EUR", 0, None, Some(7), None, "", "", "", TxStatus.Confirmed, None, [], 1, false)
  }

  function SampleRefund(): Transaction {
    SampleOriginal().(occurredAt := 50, txType := Refund, related := Some(1))
  }

  /** A refund booked in a closed month for an expense of an open month. */
  function SampleLedger(): Ledger {
    Ledger(map[0 := SAMPLE_ACCOUNT], map[1 := SampleOriginal(), 2 := SampleRefund()], Some(100), [])
  }

  function SampleUpdate(): Action {
    UpdateTransaction(1, 1, SampleOriginal().(txType := Income), true)
  }

  /** An accepted update that moves a closed balance but not the financial state. */
  lemma ClosedBalanceCanMove()
    ensures var l, c := SampleLedger(), SampleUpdate();
      && Accepts(l, c)
      && StateAt(Step(l, c), 100) == StateAt(l, 100)
      && Balance(Step(l, c).txs, 0, SAMPLE_ACCOUNT, Some(100)) != Balance(l.txs, 0, SAMPLE_ACCOUNT, Some(100))
  {
    hide StateAt, Balance;
    var l, c := SampleLedger(), SampleUpdate();
    StepKeepsClosed(l, c, 100);
    UpdateMovesClosedBalance(l, c, 0);
    assert 2 in CountedRefunds(l, 1, 0, 100);
  }
}
