/** The account commands and the account reconciliation as they run. */
module LedgerService {
  import opened Domain
  import opened Ordering
  import opened Sums
  import opened BalanceMoves
  import opened Balances
  import opened LedgerSpec

  class Service {
    var accounts: map<Id, Account>
    var txs: map<Id, Transaction>
    var closedBefore: Option<Instant>
    var records: seq<Record>

    function Snapshot(): Ledger
      reads this
    {
      Ledger(accounts, txs, closedBefore, records)
    }

    constructor (l: Ledger)
      ensures Snapshot() == l
    {
      accounts, txs, closedBefore, records := l.accounts, l.txs, l.closedBefore, l.records;
    }

    /** `account_affects_closed_history`: the dates of closed history that the account touches. */
    method AffectedDates(a: Id) returns (dates: seq<Instant>)
      requires a in accounts
      ensures (exists t :: t in dates && Closed(closedBefore, t)) <==> AffectsClosed(Snapshot(), a)
    {
      dates := [];
      if closedBefore == None {
        return;
      }
      if accounts[a].openingAt < closedBefore.value {
        dates := dates + [accounts[a].openingAt];
        assert accounts[a].openingAt in dates;
      }
      ghost var opening := dates;
      var rest := txs.Keys;
      while rest != {}
        invariant rest <= txs.Keys && dates == opening
        invariant forall x :: x in txs && x !in rest ==> !TouchesClosed(x, a)
        decreases |rest|
      {
        var x :| x in rest;
        if TouchesClosed(x, a) {
          dates := dates + [txs[x].occurredAt];
          assert txs[x].occurredAt in dates;
          return;
        }
        rest := rest - {x};
      }
    }

    predicate TouchesClosed(x: Id, a: Id)
      requires x in txs && closedBefore.Some?
      reads this
    {
      Effective(txs[x]) && txs[x].occurredAt < closedBefore.value && Touches(txs[x], a)
    }

    method CreateAccount(a: Id, account: Account, ok: bool) returns (done: bool)
      requires a !in accounts
      modifies `accounts
      ensures done == Accepts(old(Snapshot()), LedgerSpec.CreateAccount(a, account, ok))
      ensures Snapshot() == Step(old(Snapshot()), LedgerSpec.CreateAccount(a, account, ok))
    {
      if closedBefore.Some? && account.openingAt < closedBefore.value {
        return false;
      }
      if NameTaken(accounts, account.name, None) || !ok {
        return false;
      }
      accounts := accounts[a := account.(deleted := false, version := 1)];
      return true;
    }

    method UpdateAccount(a: Id, version: nat, changes: AccountChanges, ok: bool) returns (done: bool)
      modifies `accounts
      ensures done == Accepts(old(Snapshot()), LedgerSpec.UpdateAccount(a, version, changes, ok))
      ensures Snapshot() == Step(old(Snapshot()), LedgerSpec.UpdateAccount(a, version, changes, ok))
    {
      if a !in accounts || accounts[a].deleted || accounts[a].version != version {
        return false;
      }
      var account := accounts[a];
      if changes.currency.Some? && changes.currency.value != account.currency && HasTransactions(txs, a) {
        return false;
      }
      if changes.openingBalance.Some? || changes.openingAt.Some? || changes.currency.Some? {
        if closedBefore.Some?
           && (account.openingAt < closedBefore.value || Or(changes.openingAt, account.openingAt) < closedBefore.value) {
          return false;
        }
      }
      if !Or(changes.archived, account.archived) && NameTaken(accounts, Or(changes.name, account.name), Some(a)) {
        return false;
      }
      if !ok {
        return false;
      }
      account := SetFields(account, changes);
      accounts := accounts[a := account.(version := account.version + 1)];
      return true;
    }

    method DeleteAccount(a: Id, version: nat) returns (done: bool)
      modifies `accounts
      ensures done == Accepts(old(Snapshot()), LedgerSpec.DeleteAccount(a, version))
      ensures Snapshot() == Step(old(Snapshot()), LedgerSpec.DeleteAccount(a, version))
    {
      if a !in accounts || accounts[a].deleted || accounts[a].version != version {
        return false;
      }
      var dates := AffectedDates(a);
      if exists t | t in dates :: Closed(closedBefore, t) {
        return false;
      }
      accounts := accounts[a := accounts[a].(deleted := true, version := accounts[a].version + 1)];
      return true;
    }

    /** Restoring an account that is not deleted answers with the account and changes nothing. */
    method RestoreAccount(a: Id, version: nat) returns (done: bool)
      modifies `accounts
      ensures Snapshot() == Step(old(Snapshot()), LedgerSpec.RestoreAccount(a, version))
      ensures done == (Accepts(old(Snapshot()), LedgerSpec.RestoreAccount(a, version))
                       || (a in old(accounts) && old(accounts)[a].version == version && !old(accounts)[a].deleted))
    {
      if a !in accounts || accounts[a].version != version {
        return false;
      }
      if !accounts[a].deleted {
        return true;
      }
      var dates := AffectedDates(a);
      if exists t | t in dates :: Closed(closedBefore, t) {
        return false;
      }
      if !accounts[a].archived && NameTaken(accounts, accounts[a].name, Some(a)) {
        return false;
      }
      accounts := accounts[a := accounts[a].(deleted := false, version := accounts[a].version + 1)];
      return true;
    }

    // ----- reconciliation -----

    method EffectiveTransactions(a: Id, account: Account, cutoff: Instant) returns (rows: seq<Id>)
      ensures Lists(rows, Statement(txs, a, account, cutoff))
    {
      var table := txs;
      rows := OrderBy(map x | x in Statement(table, a, account, cutoff) :: Key(table[x].occurredAt, 0));
    }

    /** The statement of a request that passes the checks on its account. */
    method ShowStatement(q: StatementRequest) returns (p: Preview)
      requires q.account in accounts && !accounts[q.account].deleted
      requires q.currency == accounts[q.account].currency && q.accountVersion == accounts[q.account].version
      requires accounts[q.account].openingAt < q.cutoff
      ensures p == BuildPreview(Snapshot(), q)
    {
      hide StatementBalance, IsCandidate, SumOver;
      var account := accounts[q.account];
      var rows := EffectiveTransactions(q.account, account, q.cutoff);
      var ok, effects := TransactionEffects(txs, q.account, account, rows);
      if !ok {
        return NoPreview(CurrencyConflict);
      }
      var balance := SumEffects(txs, q.account, rows, effects);
      assert Elems(rows) == Statement(txs, q.account, account, q.cutoff);
      balance := account.openingBalance + balance;
      var table, l := txs, Snapshot();
      var effective := map x | x in rows :: (table[x].version, table[x].status);
      var candidates := set x | x in rows && x in table && IsCandidate(l, q.account, x);
      assert balance == StatementBalance(txs, q.account, account, q.cutoff) by { SumsStatement(txs, q, account); }
      PreviewShown(l, q, effective, candidates, balance);
      return Previewed(Token(q, balance, effective, candidates), q.statementBalance - balance);
    }

    method Preview(q: StatementRequest) returns (p: Preview)
      ensures p == BuildPreview(Snapshot(), q)
      ensures p.Previewed? ==>
        && q.account in accounts && p.token.balance == Balance(txs, q.account, accounts[q.account], Some(q.cutoff))
        && p.difference + p.token.balance == q.statementBalance
    {
      hide StatementBalance, IsCandidate, SumOver, Balance;
      if BuildPreview(Snapshot(), q).Previewed? {
        PreviewBalance(Snapshot(), q);
      }
      if q.account !in accounts || accounts[q.account].deleted {
        return NoPreview(AccountNotFound);
      }
      var account := accounts[q.account];
      if q.currency != account.currency {
        return NoPreview(CurrencyMismatch);
      }
      if q.accountVersion != account.version {
        return NoPreview(AccountVersionConflict);
      }
      if q.cutoff <= account.openingAt {
        return NoPreview(BeforeOpening);
      }
      p := ShowStatement(q);
    }

    /** The write loop of a confirmation. */
    method Link(candidates: seq<Id>) returns (items: map<Id, nat>)
      requires forall x: Id :: x in candidates ==> x in txs
      requires forall i, j :: 0 <= i < j < |candidates| ==> candidates[i] != candidates[j]
      modifies `txs
      ensures items == VersionsOf(old(txs), Elems(candidates)) && txs == MarkedAll(old(txs), Elems(candidates))
    {
      items := map[];
      ghost var done: set<Id> := {};
      for k := 0 to |candidates|
        invariant done == Elems(candidates[..k])
        invariant items == VersionsOf(old(txs), done) && txs == MarkedAll(old(txs), done)
      {
        var x := candidates[k];
        assert x in candidates;
        assert candidates[..k + 1] == candidates[..k] + [x];
        LinkStep(old(txs), done, x);
        items := items[x := txs[x].version];
        txs := txs[x := txs[x].(status := TxStatus.Reconciled)];
        txs := txs[x := txs[x].(version := txs[x].version + 1)];
        done := done + {x};
      }
      assert candidates[..|candidates|] == candidates;
    }

    method FindKey(key: string) returns (found: Option<nat>)
      ensures found == None ==> forall i: nat :: !HasKey(records, key, i)
      ensures found.Some? ==> HasKey(records, key, found.value)
    {
      for i := 0 to |records|
        invariant forall j: nat :: j < i ==> !HasKey(records, key, j)
      {
        if records[i].key == key {
          return Some(i);
        }
      }
      return None;
    }

    /** Keys are unique (unique constraint), so the record found by key is the one the specification names. */
    method ConfirmReconciliation(q: StatementRequest, token: Token, key: string) returns (reply: ConfirmReply)
      requires forall i, j :: 0 <= i < j < |records| ==> records[i].key != records[j].key
      modifies this
      ensures (Snapshot(), reply) == ConfirmStatement(old(Snapshot()), q, token, key)
    {
      hide BuildPreview, IsCandidate, StatementBalance;
      var existing := FindKey(key);
      if existing.Some? {
        var record := records[existing.value];
        if record.request == q && record.token == token {
          return Replayed(record);
        }
        return KeyConflict;
      }
      var preview := Preview(q);
      if preview.NoPreview? {
        return PreviewFailed(preview.reason);
      }
      if preview.token != token {
        return PreviewStale;
      }
      ConfirmShown(old(Snapshot()), q, token, key);
      hide ConfirmStatement;
      if preview.difference != 0 {
        return NonZeroDifference;
      }
      var record := Write(q, token, key);
      return ConfirmReply.Confirmed(record);
    }

    method Write(q: StatementRequest, token: Token, key: string) returns (record: Record)
      requires q.account in accounts && token.candidates <= txs.Keys
      modifies this
      ensures Snapshot() == Settle(old(Snapshot()), q, token, key)
      ensures record == records[|old(records)|]
    {
      hide MarkedAll, VersionsOf;
      var table, candidates := txs, token.candidates;
      var rows := OrderBy(map x | x in candidates && x in table :: Key(table[x].occurredAt, 0));
      assert Elems(rows) == candidates;
      var items := Link(rows);
      accounts := accounts[q.account := accounts[q.account].(version := accounts[q.account].version + 1)];
      record := Record(q, token.balance, key, token, items);
      records := records + [record];
    }
  }

  lemma LinkStep(txs: map<Id, Transaction>, done: set<Id>, x: Id)
    requires x in txs && x !in done
    ensures MarkedAll(txs, done)[x] == txs[x]
    ensures MarkedAll(txs, done)[x := Marked(txs[x])] == MarkedAll(txs, done + {x})
    ensures VersionsOf(txs, done)[x := txs[x].version] == VersionsOf(txs, done + {x})
  {
  }

  /** `setattr` for every field that is present. */
  method SetFields(account: Account, changes: AccountChanges) returns (after: Account)
    ensures after == Changed(account, changes).(version := account.version)
  {
    after := account;
    if changes.name.Some? {
      after := after.(name := changes.name.value);
    }
    if changes.currency.Some? {
      after := after.(currency := changes.currency.value);
    }
    if changes.openingBalance.Some? {
      after := after.(openingBalance := changes.openingBalance.value);
    }
    if changes.openingAt.Some? {
      after := after.(openingAt := changes.openingAt.value);
    }
    if changes.archived.Some? {
      after := after.(archived := changes.archived.value);
    }
  }

  lemma SumsStatement(txs: map<Id, Transaction>, q: StatementRequest, account: Account)
    ensures StatementBalance(txs, q.account, account, q.cutoff) == account.openingBalance
      + SumOver(Statement(txs, q.account, account, q.cutoff), EffectOn(txs, q.account))
  {
  }

  lemma PreviewShown(l: Ledger, q: StatementRequest, effective: map<Id, (nat, TxStatus)>, candidates: set<Id>, balance: int)
    requires q.account in l.accounts && !l.accounts[q.account].deleted
    requires var account := l.accounts[q.account];
      && q.currency == account.currency && q.accountVersion == account.version && account.openingAt < q.cutoff
      && balance == StatementBalance(l.txs, q.account, account, q.cutoff)
      && var rows := Statement(l.txs, q.account, account, q.cutoff);
      && (forall x :: x in rows ==> l.txs[x].currency == account.currency)
      && effective == (map x | x in rows :: (l.txs[x].version, l.txs[x].status))
      && candidates == set x | x in rows && IsCandidate(l, q.account, x)
    ensures BuildPreview(l, q) == Previewed(Token(q, balance, effective, candidates), q.statementBalance - balance)
  {
  }

  lemma ConfirmShown(l: Ledger, q: StatementRequest, token: Token, key: string)
    requires BuildPreview(l, q).Previewed? && BuildPreview(l, q).token == token
    requires forall i: nat :: !HasKey(l.records, key, i)
    ensures q.account in l.accounts && token.candidates <= l.txs.Keys
    ensures BuildPreview(l, q).difference != 0 ==> ConfirmStatement(l, q, token, key) == (l, NonZeroDifference)
    ensures BuildPreview(l, q).difference == 0 ==>
      var l' := Settle(l, q, token, key);
      ConfirmStatement(l, q, token, key) == (l', ConfirmReply.Confirmed(l'.records[|l.records|]))
  {
  }

  method SumEffects(txs: map<Id, Transaction>, a: Id, rows: seq<Id>, effects: map<Id, int>) returns (total: int)
    requires forall i, j :: 0 <= i < j < |rows| ==> rows[i] != rows[j]
    requires forall x: Id :: x in rows ==> x in txs && x in effects && effects[x] == Effect(txs, a, txs[x])
    ensures total == SumOver(Elems(rows), EffectOn(txs, a))
  {
    total := 0;
    for k := 0 to |rows|
      invariant total == SumOver(Elems(rows[..k]), EffectOn(txs, a))
    {
      assert rows[k] in rows;
      assert rows[..k + 1] == rows[..k] + [rows[k]];
      assert Elems(rows[..k + 1]) == Elems(rows[..k]) + {rows[k]};
      SumInsert(Elems(rows[..k]), EffectOn(txs, a), rows[k]);
      total := total + effects[rows[k]];
    }
    assert rows[..|rows|] == rows;
  }
}
