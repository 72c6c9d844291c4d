/** Refunds never exceed their original: which commands keep that, and the two that do not check it. */
module RefundLimit {
  import opened Domain
  import opened Sums
  import opened Refunds
  import opened Balances
  import opened LedgerSpec
  import opened ReconciliationLinks
  import BudgetActuals

  /** All live refunds of a transaction together stay within its amount. */
  ghost predicate WithinLimit(txs: map<Id, Transaction>, o: Id) {
    o in txs ==> Refunded(txs, o) <= txs[o].amount
  }

  ghost predicate LimitHolds(txs: map<Id, Transaction>) {
    forall o :: WithinLimit(txs, o)
  }

  /** A refund row names a stored transaction (foreign key and service check). */
  predicate RelatedStored(txs: map<Id, Transaction>) {
    forall x :: x in txs && txs[x].txType == Refund ==> txs[x].related.Some? && txs[x].related.value in txs
  }

  function Share(t: Transaction, o: Id): int {
    if LiveRefund(t, o) then t.amount else 0
  }

  lemma PutRefunded(txs: map<Id, Transaction>, id: Id, row: Transaction, o: Id)
    ensures Refunded(txs[id := row], o) == OtherRefunded(txs, o, id) + Share(row, o)
    ensures id in txs ==> Refunded(txs, o) == OtherRefunded(txs, o, id) + Share(txs[id], o)
    ensures id !in txs ==> Refunded(txs, o) == OtherRefunded(txs, o, id)
  {
    var txs', rest := txs[id := row], RefundsOf(txs, o) - {id};
    SumEqual(rest, AmountOf(txs), AmountOf(txs'));
    if LiveRefund(row, o) {
      assert RefundsOf(txs', o) == rest + {id};
      SumInsert(rest, AmountOf(txs'), id);
    } else {
      assert RefundsOf(txs', o) == rest;
    }
    if id in RefundsOf(txs, o) {
      SumExtract(RefundsOf(txs, o), AmountOf(txs), id);
    } else {
      assert rest == RefundsOf(txs, o);
    }
  }

  /** The two ways past the limit: bringing back a deleted refund, and changing an original below what has
      already been refunded. */
  ghost predicate Overdraws(l: Ledger, c: Action) {
    Accepts(l, c) &&
    match c
    case MoveTransaction(id, _, Undelete) =>
      && l.txs[id].txType == Refund && l.txs[id].status != Cancelled && l.txs[id].deleted
      && l.txs[id].related.Some? && l.txs[id].related.value in l.txs
      && Refunded(l.txs, l.txs[id].related.value) + l.txs[id].amount > l.txs[l.txs[id].related.value].amount
    case UpdateTransaction(id, _, row, _) =>
      OtherRefunded(l.txs, id, id) + Share(row.(deleted := false), id) > row.amount
    case _ => false
  }

  lemma PutKeepsLimit(txs: map<Id, Transaction>, id: Id, row: Transaction)
    requires LimitHolds(txs)
    requires row.related.Some? && row.related.value in txs && row.related.value != id && Share(row, row.related.value) > 0 ==>
      OtherRefunded(txs, row.related.value, id) + row.amount <= txs[row.related.value].amount
    requires OtherRefunded(txs, id, id) + Share(row, id) <= row.amount
    ensures LimitHolds(txs[id := row])
  {
    var txs' := txs[id := row];
    forall o ensures WithinLimit(txs', o) {
      PutRefunded(txs, id, row, o);
      assert WithinLimit(txs, o);
    }
  }

  lemma CreateKeepsLimit(l: Ledger, c: Action)
    requires c.CreateTransaction? && Accepts(l, c) && LimitHolds(l.txs) && RelatedStored(l.txs)
    ensures LimitHolds(Step(l, c).txs) && RelatedStored(Step(l, c).txs)
  {
    var row := c.row.(deleted := false, version := 1);
    assert RefundsOf(l.txs, c.id) == {};
    PutKeepsLimit(l.txs, c.id, row);
  }

  lemma UpdateLimit(l: Ledger, c: Action)
    requires c.UpdateTransaction? && Accepts(l, c) && LimitHolds(l.txs) && RelatedStored(l.txs)
    ensures RelatedStored(Step(l, c).txs) && (LimitHolds(Step(l, c).txs) <==> !Overdraws(l, c))
  {
    hide WellShaped, Refunded, AmountOf;
    var row := c.row.(deleted := false, version := c.version + 1);
    assert Step(l, c).txs == l.txs[c.id := row];
    if Overdraws(l, c) {
      PutRefunded(l.txs, c.id, row, c.id);
      assert !WithinLimit(l.txs[c.id := row], c.id);
    } else {
      PutKeepsLimit(l.txs, c.id, row);
    }
  }

  lemma MoveLimit(l: Ledger, c: Action)
    requires c.MoveTransaction? && Accepts(l, c) && LimitHolds(l.txs) && RelatedStored(l.txs)
    ensures RelatedStored(Step(l, c).txs) && (LimitHolds(Step(l, c).txs) <==> !Overdraws(l, c))
  {
    hide WellShaped, RefundAllowed, Refunded, OtherRefunded;
    var t := l.txs[c.id];
    var row := Moved(t, c.how);
    assert Step(l, c).txs == l.txs[c.id := row];
    PutRefunded(l.txs, c.id, row, c.id);
    assert WithinLimit(l.txs, c.id);
    if t.related.Some? && t.related.value in l.txs {
      var o := t.related.value;
      PutRefunded(l.txs, c.id, row, o);
      assert WithinLimit(l.txs, o);
      if Overdraws(l, c) {
        assert !WithinLimit(l.txs[c.id := row], o);
      } else {
        PutKeepsLimit(l.txs, c.id, row);
      }
    } else {
      PutKeepsLimit(l.txs, c.id, row);
    }
  }

  lemma ConfirmKeepsLimit(l: Ledger, c: Action)
    requires c.Confirm? && Accepts(l, c) && LimitHolds(l.txs) && RelatedStored(l.txs)
    ensures LimitHolds(Step(l, c).txs) && RelatedStored(Step(l, c).txs)
  {
    hide BuildPreview;
    ConfirmShape(l, c.request, c.token, c.key);
    var l' := Settle(l, c.request, c.token, c.key);
    forall o ensures WithinLimit(l'.txs, o) {
      assert WithinLimit(l.txs, o);
      assert RefundsOf(l'.txs, o) == RefundsOf(l.txs, o);
      SumEqual(RefundsOf(l.txs, o), AmountOf(l.txs), AmountOf(l'.txs));
    }
  }

  /** From a ledger within the limit, a command breaks it exactly if it is one of the two unchecked ones and
      overdraws: `REFUND_LIMIT_EXCEEDED` is only looked at when a refund itself is written. */
  lemma LimitKeptExactly(l: Ledger, c: Action)
    requires LimitHolds(l.txs) && RelatedStored(l.txs)
    ensures RelatedStored(Step(l, c).txs)
    ensures LimitHolds(Step(l, c).txs) <==> !Overdraws(l, c)
  {
    hide LimitHolds, RelatedStored, WellShaped, RefundAllowed, BuildPreview, AffectsClosed, MayUpdate;
    if Accepts(l, c) {
      match c
      case CreateTransaction(_, _, _) => CreateKeepsLimit(l, c);
      case UpdateTransaction(_, _, _, _) => UpdateLimit(l, c);
      case MoveTransaction(_, _, _) => MoveLimit(l, c);
      case Confirm(_, _, _) => ConfirmKeepsLimit(l, c);
      case _ =>
    }
  }

  // ----- two runs past the limit -----

  const ACCOUNT := Account("cash", "EUR", 0, 0, false, false, 1)

  function Original(): Transaction {
    Transaction(10, Expense, 10, "EUR", 0, None, Some(7), None, "", "", "", TxStatus.Confirmed, None, [], 1, false)
  }

  function FullRefund(): Transaction {
    Original().(txType := Refund, related := Some(1))
  }

  /** An expense of 10 is refunded, the refund deleted, and the expense refunded again. */
  function Refunding(): seq<Action> {
    [CreateAccount(0, ACCOUNT, true), CreateTransaction(1, Original(), true), CreateTransaction(2, FullRefund(), true),
     MoveTransaction(2, 1, Delete), CreateTransaction(3, FullRefund(), true)]
  }

  function Books(txs: map<Id, Transaction>): Ledger {
    Ledger(map[0 := ACCOUNT], txs, None, [])
  }

  function DeletedRefund(): Transaction {
    FullRefund().(deleted := true, version := 2)
  }

  lemma Opened()
    ensures Step(EMPTY, Refunding()[0]) == Books(map[])
  {
  }

  lemma Bought()
    ensures Step(Books(map[]), Refunding()[1]) == Books(map[1 := Original()])
  {
  }

  lemma Returned()
    ensures Step(Books(map[1 := Original()]), Refunding()[2]) == Books(map[1 := Original(), 2 := FullRefund()])
  {
    assert OtherRefunds(map[1 := Original()], 1, 2) == {};
    SumZero({}, AmountOf(map[1 := Original()]));
  }

  lemma Withdrawn()
    ensures Step(Books(map[1 := Original(), 2 := FullRefund()]), Refunding()[3])
         == Books(map[1 := Original(), 2 := DeletedRefund()])
  {
  }

  lemma ReturnedAgain()
    ensures Step(Books(map[1 := Original(), 2 := DeletedRefund()]), Refunding()[4])
         == Books(map[1 := Original(), 2 := DeletedRefund(), 3 := FullRefund()])
  {
    var txs := map[1 := Original(), 2 := DeletedRefund()];
    assert OtherRefunds(txs, 1, 3) == {};
    SumZero({}, AmountOf(txs));
  }

  lemma RefundingBuilds()
    ensures Run(EMPTY, Refunding()[..3]) == Books(map[1 := Original(), 2 := FullRefund()])
    ensures Run(EMPTY, Refunding()) == Books(map[1 := Original(), 2 := DeletedRefund(), 3 := FullRefund()])
  {
    hide Run, Step;
    var run := Refunding();
    RunFrom(EMPTY, run, 0);
    Opened();
    RunFrom(EMPTY, run, 1);
    Bought();
    RunFrom(EMPTY, run, 2);
    Returned();
    RunFrom(EMPTY, run, 3);
    Withdrawn();
    RunFrom(EMPTY, run, 4);
    ReturnedAgain();
    assert run[..5] == run;
  }

  /** Restoring a deleted refund overdraws: 10 of 10 refunded, deleted, refunded again, restored. */
  lemma RestoreOverdraws()
    ensures var l, c := Run(EMPTY, Refunding()), MoveTransaction(2, 2, Undelete);
      LimitHolds(l.txs) && Overdraws(l, c) && !LimitHolds(Step(l, c).txs)
  {
    hide Run, Step;
    RefundingBuilds();
    hide LimitHolds, Overdraws;
    RestoreTooMuch();
    LimitKeptExactly(Run(EMPTY, Refunding()), MoveTransaction(2, 2, Undelete));
  }

  lemma RestoreTooMuch()
    ensures var txs := map[1 := Original(), 2 := DeletedRefund(), 3 := FullRefund()];
      LimitHolds(txs) && RelatedStored(txs) && Overdraws(Books(txs), MoveTransaction(2, 2, Undelete))
  {
    hide LimitHolds, Refunded;
    RefundedAgain();
  }

  lemma RefundedAgain()
    ensures var txs := map[1 := Original(), 2 := DeletedRefund(), 3 := FullRefund()];
      LimitHolds(txs) && Refunded(txs, 1) == 10
  {
    var txs := map[1 := Original(), 2 := DeletedRefund(), 3 := FullRefund()];
    assert RefundsOf(txs, 1) == {3} && RefundsOf(txs, 2) == {} && RefundsOf(txs, 3) == {};
    SumExtract({3}, AmountOf(txs), 3);
    assert {3} - {3} == {};
    forall o ensures WithinLimit(txs, o) {
    }
  }

  /** Lowering a refunded original overdraws as well: 10 of 10 refunded, then the expense is set to 5. */
  lemma LoweringOverdraws()
    ensures var l, c := Run(EMPTY, Refunding()[..3]), UpdateTransaction(1, 1, Original().(amount := 5), true);
      LimitHolds(l.txs) && Overdraws(l, c) && !LimitHolds(Step(l, c).txs)
  {
    hide Run, Step;
    RefundingBuilds();
    hide LimitHolds, Overdraws;
    LowerTooMuch();
    LimitKeptExactly(Run(EMPTY, Refunding()[..3]), UpdateTransaction(1, 1, Original().(amount := 5), true));
  }

  lemma LowerTooMuch()
    ensures var txs := map[1 := Original(), 2 := FullRefund()];
      && LimitHolds(txs) && RelatedStored(txs)
      && Overdraws(Books(txs), UpdateTransaction(1, 1, Original().(amount := 5), true))
  {
    hide LimitHolds, OtherRefunded;
    RefundedOnce();
  }

  lemma RefundedOnce()
    ensures var txs := map[1 := Original(), 2 := FullRefund()];
      LimitHolds(txs) && OtherRefunded(txs, 1, 1) == 10
  {
    var txs := map[1 := Original(), 2 := FullRefund()];
    assert RefundsOf(txs, 1) == {2} && RefundsOf(txs, 2) == {} && OtherRefunds(txs, 1, 1) == {2};
    SumExtract({2}, AmountOf(txs), 2);
    assert {2} - {2} == {};
    forall o ensures WithinLimit(txs, o) {
    }
  }

  // ----- splits -----

  /** In every ledger the services have built, any amount allocated over the splits of a transaction meets
      the error bound: half a unit per split, (n - 1) / 2 units for the last. */
  lemma StoredSharesBound(actions: seq<Action>, x: Id, amount: int, i: nat)
    requires x in Run(EMPTY, actions).txs && i < |Run(EMPTY, actions).txs[x].splits|
    ensures var t := Run(EMPTY, actions).txs[x];
      BudgetActuals.Within(t.amount, amount, t.splits[i].amount, BudgetActuals.Shares(t.splits, t.amount, amount)[i],
                           if i < |t.splits| - 1 then 1 else |t.splits| - 1)
  {
    hide Run;
    EmptyRun(actions);
    var t := Run(EMPTY, actions).txs[x];
    assert ShapeOk(Run(EMPTY, actions).accounts, t);
    BudgetActuals.ShareBound(t.splits, t.amount, amount, i);
  }
}
