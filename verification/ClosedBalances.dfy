/** Which commands move a balance of closed history: exactly one kind, under one condition. */
module ClosedBalances {
  import opened Domain
  import opened Sums
  import opened Refunds
  import opened Balances
  import opened LedgerSpec
  import opened LedgerGuarantees
  import opened ReconciliationLinks
  import opened RefundLimit

  /** Every transaction is still there with its type. */
  predicate TypesKept(txs: map<Id, Transaction>, txs': map<Id, Transaction>) {
    forall x :: x in txs ==> x in txs' && txs'[x].txType == txs[x].txType
  }

  lemma TypedEffect(l: Ledger, l': Ledger, cutoff: Instant, a: Id, x: Id)
    requires StateAt(l', cutoff) == StateAt(l, cutoff) && TypesKept(l.txs, l'.txs) && RelatedStored(l.txs)
    requires x in l.txs && l.txs[x].occurredAt < cutoff
    ensures x in l'.txs && EffectOn(l'.txs, a)(x) == EffectOn(l.txs, a)(x)
  {
    hide StateAt;
    SameTransaction(l, l', cutoff, x);
  }

  /** As long as no transaction changes its type, an unchanged closed state means unchanged balances. */
  lemma TypesFixBalances(l: Ledger, l': Ledger, cutoff: Instant, a: Id)
    requires StateAt(l', cutoff) == StateAt(l, cutoff) && TypesKept(l.txs, l'.txs) && RelatedStored(l.txs)
    requires a in l.accounts && l.accounts[a].openingAt < cutoff
    ensures a in l'.accounts
    ensures Balance(l'.txs, a, l'.accounts[a], Some(cutoff)) == Balance(l.txs, a, l.accounts[a], Some(cutoff))
  {
    hide StateAt, TypesKept, RelatedStored;
    SameAccount(l, l', cutoff, a);
    SameRows(l, l', cutoff, l.accounts[a].openingAt);
    var rows := Since(l.txs, EffectiveBefore(l.txs, Some(cutoff)), l.accounts[a].openingAt);
    forall x | x in rows ensures EffectOn(l'.txs, a)(x) == EffectOn(l.txs, a)(x) {
      TypedEffect(l, l', cutoff, a, x);
    }
    SumEqual(rows, EffectOn(l'.txs, a), EffectOn(l.txs, a));
  }

  lemma StepKeepsTypes(l: Ledger, c: Action)
    requires !c.UpdateTransaction?
    ensures TypesKept(l.txs, Step(l, c).txs)
  {
    hide WellShaped, RefundAllowed, BuildPreview, AffectsClosed, MayUpdate, NameTaken;
    if c.Confirm? && Accepts(l, c) {
      ConfirmShape(l, c.request, c.token, c.key);
    }
  }

  /** The command changes the sign of a transaction with refunds that count in the closed balance of `a`. */
  ghost predicate TurnsRefunds(l: Ledger, c: Action, a: Id)
    requires l.closedBefore.Some? && a in l.accounts
  {
    && c.UpdateTransaction? && Accepts(l, c)
    && TypeSign(c.row.txType) != TypeSign(l.txs[c.id].txType)
    && CountedRefunds(l, c.id, a, l.closedBefore.value) != {}
  }

  /** Of all commands, exactly an accepted update that turns the sign of closed refunds moves a balance as of
      the close. */
  lemma StepMovesClosedBalance(l: Ledger, c: Action, a: Id)
    requires l.closedBefore.Some? && RelatedStored(l.txs)
    requires a in l.accounts && l.accounts[a].openingAt < l.closedBefore.value
    ensures var cutoff, l' := l.closedBefore.value, Step(l, c);
      && a in l'.accounts
      && (TurnsRefunds(l, c, a) <==>
            Balance(l'.txs, a, l'.accounts[a], Some(cutoff)) != Balance(l.txs, a, l.accounts[a], Some(cutoff)))
  {
    hide StateAt, Step, Accepts, Balance, TypesKept, CountedRefunds, TypeSign;
    if c.UpdateTransaction? && Accepts(l, c) {
      UpdateShape(l, c);
      UpdateMovesClosedBalance(l, c, a);
    } else if c.UpdateTransaction? {
      assert Step(l, c) == l by { Refused(l, c); }
    } else {
      StepKeepsClosed(l, c, l.closedBefore.value);
      StepKeepsTypes(l, c);
      TypesFixBalances(l, Step(l, c), l.closedBefore.value, a);
    }
  }

  lemma Refused(l: Ledger, c: Action)
    requires !Accepts(l, c)
    ensures Step(l, c) == l
  {
  }

  // ----- refunds name stored transactions -----

  lemma StepKeepsRelated(l: Ledger, c: Action)
    requires RelatedStored(l.txs)
    ensures RelatedStored(Step(l, c).txs)
  {
    hide WellShaped, BuildPreview, AffectsClosed, MayUpdate, NameTaken, OtherRefunded;
    if c.Confirm? && Accepts(l, c) {
      ConfirmShape(l, c.request, c.token, c.key);
    }
  }

  lemma {:induction false} RunKeepsRelated(l: Ledger, actions: seq<Action>)
    requires RelatedStored(l.txs)
    ensures RelatedStored(Run(l, actions).txs)
    decreases |actions|
  {
    hide Step, RelatedStored;
    if actions != [] {
      RunKeepsRelated(l, actions[..|actions| - 1]);
      StepKeepsRelated(Run(l, actions[..|actions| - 1]), actions[|actions| - 1]);
    }
  }

  /** ... so over every run the services can produce, each command moves a closed balance exactly then. */
  lemma ServicesMoveClosedBalance(actions: seq<Action>, c: Action, a: Id)
    requires var l := Run(EMPTY, actions);
      l.closedBefore.Some? && a in l.accounts && l.accounts[a].openingAt < l.closedBefore.value
    ensures var l := Run(EMPTY, actions);
      var cutoff, l' := l.closedBefore.value, Step(l, c);
      && a in l'.accounts
      && (TurnsRefunds(l, c, a) <==>
            Balance(l'.txs, a, l'.accounts[a], Some(cutoff)) != Balance(l.txs, a, l.accounts[a], Some(cutoff)))
  {
    hide Run, Step, Balance, TurnsRefunds;
    RunKeepsRelated(EMPTY, actions);
    StepMovesClosedBalance(Run(EMPTY, actions), c, a);
  }

  // ----- a run that moves one -----

  /** An account, an expense of an open month, its refund booked in a month that is then closed. */
  function SampleRun(): seq<Action> {
    [CreateAccount(0, SAMPLE_ACCOUNT, true), CreateTransaction(1, SampleOriginal(), true),
     CreateTransaction(2, SampleRefund(), true), CloseThrough(100)]
  }

  lemma SampleBuilt()
    ensures Run(EMPTY, SampleRun()) == SampleLedger()
  {
    hide Run, Step;
    var run := SampleRun();
    var l1 := Ledger(map[0 := SAMPLE_ACCOUNT], map[], None, []);
    var l2 := l1.(txs := map[1 := SampleOriginal()]);
    var l3 := l1.(txs := map[1 := SampleOriginal(), 2 := SampleRefund()]);
    RunFrom(EMPTY, run, 0);
    assert Step(EMPTY, run[0]) == l1 by { SampleAccount(); }
    RunFrom(EMPTY, run, 1);
    assert Step(l1, run[1]) == l2 by { SampleExpense(); }
    RunFrom(EMPTY, run, 2);
    assert Step(l2, run[2]) == l3 by { SampleRefunded(); }
    RunFrom(EMPTY, run, 3);
    assert Step(l3, run[3]) == SampleLedger() by { SampleClosed(); }
    assert run[..4] == run;
  }

  lemma SampleAccount()
    ensures Step(EMPTY, SampleRun()[0]) == Ledger(map[0 := SAMPLE_ACCOUNT], map[], None, [])
  {
  }

  lemma SampleExpense()
    ensures var l := Ledger(map[0 := SAMPLE_ACCOUNT], map[], None, []);
      Step(l, SampleRun()[1]) == l.(txs := map[1 := SampleOriginal()])
  {
  }

  lemma SampleRefunded()
    ensures var l := Ledger(map[0 := SAMPLE_ACCOUNT], map[1 := SampleOriginal()], None, []);
      Step(l, SampleRun()[2]) == l.(txs := map[1 := SampleOriginal(), 2 := SampleRefund()])
  {
    var txs := map[1 := SampleOriginal()];
    assert OtherRefunds(txs, 1, 2) == {};
    SumZero({}, AmountOf(txs));
  }

  lemma SampleClosed()
    ensures Step(SampleLedger().(closedBefore := None), SampleRun()[3]) == SampleLedger()
  {
  }

  /** The services reach it: an accepted update of the open expense moves the closed balance. */
  lemma ServicesCanMoveClosedBalance()
    ensures var l, c := Run(EMPTY, SampleRun()), SampleUpdate();
      && l.closedBefore == Some(100) && 0 in l.accounts && Accepts(l, c)
      && Balance(Step(l, c).txs, 0, l.accounts[0], Some(100)) != Balance(l.txs, 0, l.accounts[0], Some(100))
  {
    hide Run, Step, Balance, StateAt;
    SampleBuilt();
    ClosedBalanceCanMove();
  }
}
