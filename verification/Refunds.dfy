/** Which refunds count against an original, and how much they take. */
module Refunds {
  import opened Domain
  import opened Sums

  predicate LiveRefund(t: Transaction, original: Id) {
    t.txType == Refund && t.related == Some(original) && t.status != Cancelled && !t.deleted
  }

  function RefundsOf(txs: map<Id, Transaction>, original: Id): set<Id> {
    set x | x in txs && LiveRefund(txs[x], original)
  }

  /** The live refunds of `original` without row `except`. */
  function OtherRefunds(txs: map<Id, Transaction>, original: Id, except: Id): set<Id> {
    RefundsOf(txs, original) - {except}
  }

  function AmountOf(txs: map<Id, Transaction>): Id -> int {
    x => if x in txs then txs[x].amount else 0
  }

  ghost function Refunded(txs: map<Id, Transaction>, original: Id): int {
    SumOver(RefundsOf(txs, original), AmountOf(txs))
  }

  ghost function OtherRefunded(txs: map<Id, Transaction>, original: Id, except: Id): int {
    SumOver(OtherRefunds(txs, original, except), AmountOf(txs))
  }

  /** The refunds of `original` that are neither cancelled nor deleted, without the row at hand. */
  function StandingRefunds(txs: map<Id, Transaction>, original: Id, except: Id): set<Id> {
    set x | x in txs && x != except && txs[x].txType == Refund && txs[x].related == Some(original)
      && txs[x].status != Cancelled && !txs[x].deleted
  }

  lemma RefundsThatCount(txs: map<Id, Transaction>, original: Id, except: Id)
    ensures OtherRefunded(txs, original, except) == SumOver(StandingRefunds(txs, original, except), x => if x in txs then txs[x].amount else 0)
  {
    assert OtherRefunds(txs, original, except) == StandingRefunds(txs, original, except);
    SumEqual(StandingRefunds(txs, original, except), AmountOf(txs), x => if x in txs then txs[x].amount else 0);
  }
}
