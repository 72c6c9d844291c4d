/** When the ledger commands are accepted, condition by condition on the rows, and what a reconciliation
    leaves. */
module CommandMeanings {
  import opened Domain
  import opened Refunds
  import opened Sums
  import opened Executor
  import opened Balances
  import opened BalanceMoves
  import opened Candidates
  import opened LedgerSpec
  import opened ReconciliationLinks

  predicate OpenAt(l: Ledger, t: Instant) {
    l.closedBefore.Some? ==> l.closedBefore.value <= t
  }

  /** No other account that is live and not archived has the name. */
  predicate NameFree(l: Ledger, name: string, a: Id) {
    forall b :: b in l.accounts && b != a && !l.accounts[b].deleted && !l.accounts[b].archived ==> l.accounts[b].name != name
  }

  /** The account opens in open history, and so does everything that counts and moves money on it. */
  predicate OutsideClosed(l: Ledger, a: Id)
    requires a in l.accounts
  {
    && OpenAt(l, l.accounts[a].openingAt)
    && forall x :: x in l.txs && MovesMoneyOn(l.txs[x], a) ==> OpenAt(l, l.txs[x].occurredAt)
  }

  predicate MovesMoneyOn(t: Transaction, a: Id) {
    && !t.deleted && (t.status == TxStatus.Confirmed || t.status == TxStatus.Reconciled)
    && (t.account == a || t.target == Some(a))
  }

  /** The account commands, each by the rows alone. */
  ghost predicate AccountCommandDue(l: Ledger, c: Action)
    requires c.CreateAccount? || c.UpdateAccount? || c.DeleteAccount? || c.RestoreAccount?
  {
    match c
    case CreateAccount(a, account, ok) => ok && a !in l.accounts && OpenAt(l, account.openingAt) && NameFree(l, account.name, a)
    case DeleteAccount(a, version) =>
      a in l.accounts && !l.accounts[a].deleted && l.accounts[a].version == version && OutsideClosed(l, a)
    case RestoreAccount(a, version) =>
      && a in l.accounts && l.accounts[a].deleted && l.accounts[a].version == version && OutsideClosed(l, a)
      && (!l.accounts[a].archived ==> NameFree(l, l.accounts[a].name, a))
    case UpdateAccount(a, version, changes, ok) =>
      && ok && a in l.accounts && !l.accounts[a].deleted && l.accounts[a].version == version
      && (changes.currency.Some? && changes.currency.value != l.accounts[a].currency ==>
            forall x :: x in l.txs ==> l.txs[x].account != a && l.txs[x].target != Some(a))
      && (changes.openingBalance.Some? || changes.openingAt.Some? || changes.currency.Some? ==>
            OpenAt(l, l.accounts[a].openingAt) && (changes.openingAt.Some? ==> OpenAt(l, changes.openingAt.value)))
      && var archived := if changes.archived.Some? then changes.archived.value else l.accounts[a].archived;
      (archived || NameFree(l, if changes.name.Some? then changes.name.value else l.accounts[a].name, a))
    case _ => true
  }

  lemma AccountCommandExactly(l: Ledger, c: Action)
    requires c.CreateAccount? || c.UpdateAccount? || c.DeleteAccount? || c.RestoreAccount?
    ensures Accepts(l, c) <==> AccountCommandDue(l, c)
  {
  }

  /** An update sets the fields it gives, keeps the others, and raises the version. */
  lemma UpdateSetsFields(l: Ledger, a: Id, version: nat, changes: AccountChanges, ok: bool)
    requires Accepts(l, UpdateAccount(a, version, changes, ok))
    ensures a in l.accounts && a in Step(l, UpdateAccount(a, version, changes, ok)).accounts
    ensures var before, after := l.accounts[a], Step(l, UpdateAccount(a, version, changes, ok)).accounts[a];
      && (if changes.name.Some? then after.name == changes.name.value else after.name == before.name)
      && (if changes.currency.Some? then after.currency == changes.currency.value else after.currency == before.currency)
      && (if changes.openingBalance.Some? then after.openingBalance == changes.openingBalance.value
          else after.openingBalance == before.openingBalance)
      && (if changes.openingAt.Some? then after.openingAt == changes.openingAt.value
          else after.openingAt == before.openingAt)
      && (if changes.archived.Some? then after.archived == changes.archived.value else after.archived == before.archived)
      && !after.deleted && after.version == before.version + 1
    ensures Step(l, UpdateAccount(a, version, changes, ok))
         == l.(accounts := l.accounts[a := Step(l, UpdateAccount(a, version, changes, ok)).accounts[a]])
  {
  }

  // ----- transactions -----

  predicate AccountUsable(l: Ledger, a: Id, currency: string) {
    a in l.accounts && !l.accounts[a].deleted && !l.accounts[a].archived && l.accounts[a].currency == currency
  }

  /** The row by itself and against the accounts: only a transfer has a target, another account of the same
      currency, and it has neither category nor splits; category and splits exclude each other, an income or
      expense has one of them, and splits add up to the amount. */
  predicate RowSound(l: Ledger, row: Transaction) {
    && (row.status == Draft || row.status == TxStatus.Confirmed || row.status == Cancelled)
    && AccountUsable(l, row.account, row.currency)
    && (if row.txType == Transfer then
          row.target.Some? && row.target.value != row.account && AccountUsable(l, row.target.value, row.currency)
          && row.category == None && |row.splits| == 0
        else row.target == None)
    && (row.category == None || |row.splits| == 0)
    && (row.txType in {Income, Expense} ==> row.category.Some? || |row.splits| > 0)
    && (|row.splits| > 0 ==> SplitTotal(row.splits, |row.splits|) == row.amount)
    && (row.txType == Adjustment ==> |row.comment| > 0)
  }

  /** A refund is for a live income or expense of its account and currency, with room left for it. */
  ghost predicate RefundSound(l: Ledger, id: Id, row: Transaction) {
    row.txType == Refund ==>
      && row.related.Some? && row.related.value in l.txs
      && var original := l.txs[row.related.value];
      && !original.deleted && original.txType in {Income, Expense}
      && original.account == row.account && original.currency == row.currency
      && row.amount <= original.amount - SumOver(StandingRefunds(l.txs, row.related.value, id), AmountOf(l.txs))
  }

  /** The transaction commands, each by the rows alone. A reconciled row can be restored, but not changed. */
  ghost predicate TransactionCommandDue(l: Ledger, c: Action)
    requires c.CreateTransaction? || c.UpdateTransaction? || c.MoveTransaction?
  {
    match c
    case CreateTransaction(id, row, ok) =>
      ok && id !in l.txs && OpenAt(l, row.occurredAt) && RowSound(l, row) && RefundSound(l, id, row)
    case UpdateTransaction(id, version, row, ok) =>
      && ok && id in l.txs && !l.txs[id].deleted && l.txs[id].version == version && l.txs[id].status != TxStatus.Reconciled
      && OpenAt(l, l.txs[id].occurredAt) && OpenAt(l, row.occurredAt) && RowSound(l, row) && RefundSound(l, id, row)
    case MoveTransaction(id, version, how) =>
      && id in l.txs && l.txs[id].version == version && OpenAt(l, l.txs[id].occurredAt)
      && (how != Undelete ==> !l.txs[id].deleted && l.txs[id].status != TxStatus.Reconciled)
    case _ => true
  }

  lemma TransactionCommandExactly(l: Ledger, c: Action)
    requires c.CreateTransaction? || c.UpdateTransaction? || c.MoveTransaction?
    ensures Accepts(l, c) <==> TransactionCommandDue(l, c)
  {
    if c.CreateTransaction? || c.UpdateTransaction? {
      hide WellShaped, RowSound, RefundAllowed, RefundSound;
      SoundRow(l, c.row);
      SoundRefund(l, c.id, c.row);
    }
  }

  lemma SoundRow(l: Ledger, row: Transaction)
    ensures WellShaped(l, row) <==> RowSound(l, row)
  {
  }

  lemma SoundRefund(l: Ledger, id: Id, row: Transaction)
    ensures RefundAllowed(l, id, row) <==> RefundSound(l, id, row)
  {
    hide SumOver;
    if row.related.Some? {
      assert OtherRefunds(l.txs, row.related.value, id) == StandingRefunds(l.txs, row.related.value, id);
    }
  }

  // ----- reconciliation -----

  /** Why a preview is refused, or that nothing stands against it. */
  lemma PreviewExactly(l: Ledger, q: StatementRequest)
    ensures var p, known := BuildPreview(l, q), q.account in l.accounts && !l.accounts[q.account].deleted;
      && (p == NoPreview(AccountNotFound) <==> !known)
      && (known ==>
            var account := l.accounts[q.account];
            && (p == NoPreview(CurrencyMismatch) ==> q.currency != account.currency)
            && (p == NoPreview(AccountVersionConflict) ==> q.accountVersion != account.version)
            && (p == NoPreview(BeforeOpening) ==> q.cutoff <= account.openingAt)
            && (p == NoPreview(CurrencyConflict) ==> ForeignRow(l, q))
            && (p.Previewed? <==>
                  && q.currency == account.currency && q.accountVersion == account.version
                  && account.openingAt < q.cutoff && !ForeignRow(l, q)))
  {
    hide StatementBalance, IsCandidate;
    if q.account in l.accounts {
      forall x ensures ForeignAt(l, q, x) <==>
        x in Statement(l.txs, q.account, l.accounts[q.account], q.cutoff) && l.txs[x].currency != l.accounts[q.account].currency
      {
      }
    }
  }

  ghost predicate ForeignAt(l: Ledger, q: StatementRequest, x: Id)
    requires q.account in l.accounts
  {
    && x in l.txs && OnStatement(l.txs[x], q.account, l.accounts[q.account], q.cutoff)
    && l.txs[x].currency != l.accounts[q.account].currency
  }

  /** A transaction of the statement is in another currency than the account. */
  ghost predicate ForeignRow(l: Ledger, q: StatementRequest)
    requires q.account in l.accounts
  {
    exists x :: ForeignAt(l, q, x)
  }

  /** A confirmed reconciliation rests on a statement that equals the balance; it marks exactly its candidates
      reconciled, raises their versions and that of the account by one, and records the versions they had. */
  lemma ConfirmMeans(l: Ledger, q: StatementRequest, token: Token, key: string)
    requires Accepts(l, Confirm(q, token, key))
    ensures q.account in l.accounts && BuildPreview(l, q).Previewed? && BuildPreview(l, q).token == token
    ensures q.statementBalance == Balance(l.txs, q.account, l.accounts[q.account], Some(q.cutoff))
    ensures var l', a := Step(l, Confirm(q, token, key)), l.accounts[q.account];
      && l'.txs.Keys == l.txs.Keys && l'.closedBefore == l.closedBefore
      && (forall x :: x in l.txs ==>
            l'.txs[x] == if x in token.candidates then
                           l.txs[x].(status := TxStatus.Reconciled, version := l.txs[x].version + 1)
                         else l.txs[x])
      && l'.accounts == l.accounts[q.account := a.(version := a.version + 1)]
      && |l'.records| == |l.records| + 1 && l'.records[..|l.records|] == l.records
      && var r := l'.records[|l.records|];
      && r.request == q && r.key == key && r.items.Keys == token.candidates
      && forall x :: x in r.items ==> x in l.txs && r.items[x] == l.txs[x].version
  {
    hide BuildPreview, ConfirmStatement, Balance;
    ConfirmShape(l, q, token, key);
    PreviewBalance(l, q);
    hide Accepts;
    assert forall x :: x in token.candidates ==> x in l.txs by { CandidatesStored(l, q, token); }
  }

  lemma CandidatesStored(l: Ledger, q: StatementRequest, token: Token)
    requires BuildPreview(l, q) == Previewed(token, 0)
    ensures forall x :: x in token.candidates ==> x in l.txs
  {
    hide StatementBalance, IsCandidate;
  }

  // ----- a category-only update, modelled twice -----

  /** The ledger a database of the executor stands for. */
  function LedgerOf(db: Db): Ledger {
    Ledger(db.accounts, db.txs, db.closedBefore, [])
  }

  /** The executor's write passes exactly the checks a general update to the same row would have to pass. */
  lemma WriteIsAnUpdate(db: Db, id: Id, category: Id)
    requires id in db.txs && !db.txs[id].deleted && db.txs[id].txType != Transfer
    requires db.txs[id].category == None && db.txs[id].splits == [] && db.txs[id].status != TxStatus.Reconciled
    requires db.closedBefore.Some? ==> db.closedBefore.value <= db.txs[id].occurredAt
    ensures var row := db.txs[id].(category := Some(category));
      WriteValid(db, id) <==> Accepts(LedgerOf(db), UpdateTransaction(id, db.txs[id].version, row, true))
    ensures WriteValid(db, id) ==>
      WriteCategory(db, id, category).txs
        == Step(LedgerOf(db), UpdateTransaction(id, db.txs[id].version, db.txs[id].(category := Some(category)), true)).txs
  {
    hide OtherRefunded;
  }
}
