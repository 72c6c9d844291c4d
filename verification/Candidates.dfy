/** Which transactions a reconciliation settles: exactly those of the statement that no earlier one has
    settled on the same side. */
module Candidates {
  import opened Domain
  import opened Refunds
  import opened Balances
  import opened LedgerSpec
  import opened ReconciliationLinks

  ghost predicate SettledBy(l: Ledger, x: Id, i: int) {
    0 <= i < |l.records| && x in l.records[i].items
  }

  /** Only a reconciliation makes a transaction reconciled. */
  ghost predicate ReconciledSettled(l: Ledger) {
    forall x :: x in l.txs && l.txs[x].status == TxStatus.Reconciled ==> exists i :: SettledBy(l, x, i)
  }

  lemma OthersKeepSettled(l: Ledger, c: Action)
    requires ReconciledSettled(l) && !c.Confirm?
    ensures ReconciledSettled(Step(l, c))
  {
    hide RefundAllowed, AffectsClosed, NameTaken, HasTransactions, AccountOpen, SplitTotal;
    var l' := Step(l, c);
    assert l'.records == l.records;
    forall x | x in l'.txs && l'.txs[x].status == TxStatus.Reconciled ensures exists i :: SettledBy(l', x, i) {
      assert x in l.txs && l.txs[x].status == TxStatus.Reconciled;
      var i :| SettledBy(l, x, i);
      assert SettledBy(l', x, i);
    }
  }

  lemma ConfirmKeepsSettled(l: Ledger, q: StatementRequest, token: Token, key: string)
    requires ReconciledSettled(l) && Accepts(l, Confirm(q, token, key))
    ensures ReconciledSettled(Step(l, Confirm(q, token, key)))
  {
    hide BuildPreview, ConfirmStatement;
    ConfirmShape(l, q, token, key);
    var l' := Settle(l, q, token, key);
    forall x | x in l'.txs && l'.txs[x].status == TxStatus.Reconciled ensures exists i :: SettledBy(l', x, i) {
      if x in token.candidates {
        assert SettledBy(l', x, |l.records|);
      } else {
        var i :| SettledBy(l, x, i);
        assert SettledBy(l', x, i);
      }
    }
  }

  lemma {:induction false} RunKeepsSettled(actions: seq<Action>)
    ensures ReconciledSettled(Run(EMPTY, actions))
    decreases |actions|
  {
    hide Step, Accepts;
    if actions != [] {
      var l, c := Run(EMPTY, actions[..|actions| - 1]), actions[|actions| - 1];
      RunKeepsSettled(actions[..|actions| - 1]);
      if c.Confirm? && Accepts(l, c) {
        ConfirmKeepsSettled(l, c.request, c.token, c.key);
      } else if c.Confirm? {
        Refused(l, c);
      } else {
        OthersKeepSettled(l, c);
      }
    }
  }

  lemma Refused(l: Ledger, c: Action)
    requires !Accepts(l, c)
    ensures Step(l, c) == l
  {
  }

  /** The transaction belongs to the statement: it counts, lies between opening and cutoff, and moves money
      into or out of the account. */
  predicate OnStatement(t: Transaction, a: Id, account: Account, cutoff: Instant) {
    && (t.status == TxStatus.Confirmed || t.status == TxStatus.Reconciled) && !t.deleted
    && account.openingAt <= t.occurredAt && t.occurredAt < cutoff
    && (t.account == a || t.target == Some(a))
  }

  ghost predicate SettledFor(l: Ledger, x: Id, a: Id) {
    exists i :: SettledBy(l, x, i) && l.records[i].request.account == a
  }

  ghost predicate Settled(l: Ledger, x: Id) {
    exists i :: SettledBy(l, x, i)
  }

  /** In every ledger the services have built, a preview offers exactly the transactions of the statement
      that no reconciliation has settled - for a transfer, that none has settled for this account, so that
      its second side stays open until the other account is reconciled. */
  lemma CandidatesExactly(actions: seq<Action>, q: StatementRequest, x: Id)
    requires BuildPreview(Run(EMPTY, actions), q).Previewed?
    ensures var l := Run(EMPTY, actions);
      && q.account in l.accounts
      && (x in BuildPreview(l, q).token.candidates <==>
            && x in l.txs && OnStatement(l.txs[x], q.account, l.accounts[q.account], q.cutoff)
            && (if l.txs[x].txType == Transfer then !SettledFor(l, x, q.account) else !Settled(l, x)))
  {
    hide Run, LinksOk, ShapesOk;
    var l := Run(EMPTY, actions);
    EmptyRun(actions);
    RunKeepsSettled(actions);
    CandidateOf(l, q, x);
    if x in l.txs {
      LinkedMeans(l, x, q.account);
      ConfirmedUnsettled(l, x);
    }
  }

  lemma CandidateOf(l: Ledger, q: StatementRequest, x: Id)
    requires BuildPreview(l, q).Previewed?
    ensures q.account in l.accounts
    ensures x in BuildPreview(l, q).token.candidates <==>
      && x in l.txs && OnStatement(l.txs[x], q.account, l.accounts[q.account], q.cutoff)
      && IsCandidate(l, q.account, x)
  {
    hide StatementBalance, IsCandidate;
  }

  lemma LinkedMeans(l: Ledger, x: Id, a: Id)
    ensures a in LinkedAccounts(l.records, x) <==> SettledFor(l, x, a)
    ensures LinkedAccounts(l.records, x) != {} <==> Settled(l, x)
  {
    if Settled(l, x) {
      var i :| SettledBy(l, x, i);
      assert l.records[i].request.account in LinkedAccounts(l.records, x);
    }
    if LinkedAccounts(l.records, x) != {} {
      var b :| b in LinkedAccounts(l.records, x);
      var i :| 0 <= i < |l.records| && x in l.records[i].items && l.records[i].request.account == b;
      assert SettledBy(l, x, i);
    }
    if a in LinkedAccounts(l.records, x) {
      var i :| 0 <= i < |l.records| && x in l.records[i].items && l.records[i].request.account == a;
      assert SettledBy(l, x, i);
    }
  }

  /** What is settled is reconciled, so a confirmed transaction is not settled yet. */
  lemma ConfirmedUnsettled(l: Ledger, x: Id)
    requires LinksOk(l) && x in l.txs
    ensures Settled(l, x) ==> l.txs[x].status == TxStatus.Reconciled
  {
    if i :| SettledBy(l, x, i) {
      assert RecordOk(l, l.records[i]);
      assert LinkOk(l, l.records[i], x);
    }
  }
}
