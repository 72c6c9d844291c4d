/** How one more transaction moves every balance: which account gains, which loses, and which rows do not
    count at all. Every ledger is built by such steps from an empty one. */
module BalanceMoves {
  import opened Domain
  import opened Sums
  import opened Balances
  import opened LedgerSpec

  /** Confirmed or reconciled, not deleted, not before the opening, and before the cutoff if there is one. */
  predicate CountsFor(t: Transaction, account: Account, asOf: Option<Instant>) {
    && (t.status == TxStatus.Confirmed || t.status == TxStatus.Reconciled) && !t.deleted
    && account.openingAt <= t.occurredAt && (asOf.Some? ==> t.occurredAt < asOf.value)
  }

  /** What account `a` gains by transaction `t`: an income or an adjustment its amount, an expense costs it;
      a transfer moves it from one account to another; a refund undoes the direction of its original. */
  ghost predicate Gains(txs: map<Id, Transaction>, t: Transaction, a: Id, gain: int) {
    match t.txType
    case Income => gain == if a == t.account then t.amount else 0
    case Adjustment => gain == if a == t.account then t.amount else 0
    case Expense => if a == t.account then gain + t.amount == 0 else gain == 0
    case Transfer =>
      t.target.Some? && t.target.value != t.account ==>
        if a == t.account then gain + t.amount == 0
        else if a == t.target.value then gain == t.amount
        else gain == 0
    case Refund =>
      if a == t.account && t.related.Some? && t.related.value in txs then
        var original := txs[t.related.value].txType;
        && (original == Expense ==> gain == t.amount) && (original == Income ==> gain + t.amount == 0)
        && (original != Expense && original != Income ==> gain == 0)
      else gain == 0
  }

  lemma NoRows(account: Account, a: Id, asOf: Option<Instant>)
    ensures Balance(map[], a, account, asOf) == account.openingBalance
  {
    assert Since(map[], EffectiveBefore(map[], asOf), account.openingAt) == {};
    SumZero({}, EffectOn(map[], a));
  }

  /** The effects of the stored rows stay: no stored row refunds the new one. */
  lemma OldEffects(txs: map<Id, Transaction>, id: Id, t: Transaction, a: Id, rows: set<Id>)
    requires id !in txs && rows <= txs.Keys && forall x :: x in txs ==> txs[x].related != Some(id)
    ensures SumOver(rows, EffectOn(txs[id := t], a)) == SumOver(rows, EffectOn(txs, a))
  {
    SumEqual(rows, EffectOn(txs[id := t], a), EffectOn(txs, a));
  }

  /** A new transaction moves a balance by what its account gains if it counts there, and not at all if it
      does not. */
  lemma RowMovesBalance(txs: map<Id, Transaction>, id: Id, t: Transaction, a: Id, account: Account, asOf: Option<Instant>)
    requires id !in txs && forall x :: x in txs ==> txs[x].related != Some(id)
    ensures var gain := Balance(txs[id := t], a, account, asOf) - Balance(txs, a, account, asOf);
      if CountsFor(t, account, asOf) then Gains(txs, t, a, gain) else gain == 0
  {
    hide SumOver;
    var txs' := txs[id := t];
    var rows := Since(txs, EffectiveBefore(txs, asOf), account.openingAt);
    var rows' := Since(txs', EffectiveBefore(txs', asOf), account.openingAt);
    OldEffects(txs, id, t, a, rows);
    RowsWith(txs, id, t, account, asOf);
    if CountsFor(t, account, asOf) {
      SumInsert(rows, EffectOn(txs', a), id);
      EffectGains(txs, id, t, a);
    }
  }

  lemma RowsWith(txs: map<Id, Transaction>, id: Id, t: Transaction, account: Account, asOf: Option<Instant>)
    requires id !in txs
    ensures var txs' := txs[id := t];
      var rows := Since(txs, EffectiveBefore(txs, asOf), account.openingAt);
      && id !in rows && rows <= txs.Keys
      && Since(txs', EffectiveBefore(txs', asOf), account.openingAt)
           == if CountsFor(t, account, asOf) then rows + {id} else rows
  {
  }

  lemma EffectGains(txs: map<Id, Transaction>, id: Id, t: Transaction, a: Id)
    requires id !in txs
    ensures Gains(txs, t, a, EffectOn(txs[id := t], a)(id))
  {
  }

  /** The balance a reconciliation preview shows moves in the same way. */
  lemma RowMovesPreview(l: Ledger, id: Id, t: Transaction, q: StatementRequest)
    requires id !in l.txs && forall x :: x in l.txs ==> l.txs[x].related != Some(id)
    requires var l' := l.(txs := l.txs[id := t]); BuildPreview(l, q).Previewed? && BuildPreview(l', q).Previewed?
    ensures q.account in l.accounts
    ensures var before, after := BuildPreview(l, q), BuildPreview(l.(txs := l.txs[id := t]), q);
      var gain := after.token.balance - before.token.balance;
      && (if CountsFor(t, l.accounts[q.account], Some(q.cutoff)) then Gains(l.txs, t, q.account, gain) else gain == 0)
      && after.difference + gain == before.difference
  {
    hide Balance, Gains, CountsFor, BuildPreview;
    PreviewBalance(l, q);
    PreviewBalance(l.(txs := l.txs[id := t]), q);
    RowMovesBalance(l.txs, id, t, q.account, l.accounts[q.account], Some(q.cutoff));
  }

  /** The preview shows the balance as of its cutoff and what the statement differs from it by. */
  lemma PreviewBalance(l: Ledger, q: StatementRequest)
    requires BuildPreview(l, q).Previewed?
    ensures q.account in l.accounts && !l.accounts[q.account].deleted
    ensures var p := BuildPreview(l, q);
      && p.token.balance == Balance(l.txs, q.account, l.accounts[q.account], Some(q.cutoff))
      && p.difference + p.token.balance == q.statementBalance
  {
    hide StatementBalance, Balance, IsCandidate;
    TwoBalancesAgree(l.txs, q.account, l.accounts[q.account], q.cutoff);
  }
}
