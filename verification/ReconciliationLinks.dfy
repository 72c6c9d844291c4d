/** Account reconciliations over whole runs: what they link, how often, and what a fresh preview shows. */
module ReconciliationLinks {
  import opened Domain
  import opened Sums
  import opened Balances
  import opened LedgerSpec

  // ----- shapes -----

  predicate InCurrency(accounts: map<Id, Account>, a: Id, currency: string) {
    a in accounts && accounts[a].currency == currency
  }

  /** A stored transaction is in the currency of its accounts, and its splits add up to its amount. */
  predicate ShapeOk(accounts: map<Id, Account>, t: Transaction) {
    && InCurrency(accounts, t.account, t.currency)
    && (t.target.Some? ==> t.txType == Transfer && t.target.value != t.account && InCurrency(accounts, t.target.value, t.currency))
    && (t.splits != [] ==> SplitTotal(t.splits, |t.splits|) == t.amount)
  }

  ghost predicate ShapesOk(l: Ledger) {
    forall x :: x in l.txs ==> ShapeOk(l.accounts, l.txs[x])
  }

  lemma AccountStepKeepsShapes(l: Ledger, c: Action)
    requires ShapesOk(l) && Accepts(l, c)
    requires c.CreateAccount? || c.UpdateAccount? || c.DeleteAccount? || c.RestoreAccount?
    ensures ShapesOk(Step(l, c))
  {
    hide NameTaken, AffectsClosed, SplitTotal;
    var l' := Step(l, c);
    forall x | x in l'.txs ensures ShapeOk(l'.accounts, l'.txs[x]) {
      assert ShapeOk(l.accounts, l.txs[x]);
      if c.UpdateAccount? && Touches(l.txs[x], c.a) {
        assert HasTransactions(l.txs, c.a);
      }
    }
  }

  lemma StepKeepsShapes(l: Ledger, c: Action)
    requires ShapesOk(l)
    ensures ShapesOk(Step(l, c))
  {
    hide NameTaken, HasTransactions, RefundAllowed, AffectsClosed, MayUpdate, BuildPreview, SplitTotal;
    if Accepts(l, c) {
      if c.CreateAccount? || c.UpdateAccount? || c.DeleteAccount? || c.RestoreAccount? {
        AccountStepKeepsShapes(l, c);
      } else {
        var l' := Step(l, c);
        forall x | x in l'.txs ensures ShapeOk(l'.accounts, l'.txs[x]) {
          assert x in l.txs ==> ShapeOk(l.accounts, l.txs[x]);
        }
      }
    }
  }

  // ----- links -----

  /** A linked transaction is reconciled for good and touches the reconciled account. */
  predicate LinkOk(l: Ledger, r: Record, x: Id) {
    x in l.txs && l.txs[x].status == TxStatus.Reconciled && !l.txs[x].deleted && Touches(l.txs[x], r.request.account)
  }

  ghost predicate RecordOk(l: Ledger, r: Record) {
    && (forall x :: x in r.items ==> LinkOk(l, r, x))
    && r.request.account in l.accounts && r.request.accountVersion < l.accounts[r.request.account].version
    && r.token.request == r.request
  }

  /** Two reconciliations of one account share no transaction and rest on different account versions; two of
      different accounts share transfers only. No two have the same key. */
  ghost predicate Apart(l: Ledger, r: Record, s: Record) {
    && r.key != s.key
    && (r.request.account == s.request.account ==>
          r.items.Keys !! s.items.Keys && r.request.accountVersion < s.request.accountVersion)
    && (forall x :: x in r.items && x in s.items ==> x in l.txs && l.txs[x].txType == Transfer)
  }

  ghost predicate LinksOk(l: Ledger) {
    && (forall i :: 0 <= i < |l.records| ==> RecordOk(l, l.records[i]))
    && (forall i, j :: 0 <= i < j < |l.records| ==> Apart(l, l.records[i], l.records[j]))
  }

  /** What no accepted command but a confirmation does to a reconciled transaction or a record. */
  lemma OthersKeepLinks(l: Ledger, c: Action)
    requires LinksOk(l) && Accepts(l, c) && !c.Confirm?
    ensures LinksOk(Step(l, c))
  {
    hide NameTaken, HasTransactions, RefundAllowed, WellShaped, AffectsClosed;
    var l' := Step(l, c);
    assert l'.records == l.records;
    forall x | x in l.txs && l.txs[x].status == TxStatus.Reconciled && !l.txs[x].deleted
      ensures x in l'.txs && l'.txs[x].(version := 0) == l.txs[x].(version := 0)
    {
    }
    forall a | a in l.accounts ensures a in l'.accounts && l.accounts[a].version <= l'.accounts[a].version {
    }
    SameLinks(l, l');
  }

  lemma SameLinks(l: Ledger, l': Ledger)
    requires LinksOk(l) && l'.records == l.records
    requires forall x :: x in l.txs && l.txs[x].status == TxStatus.Reconciled && !l.txs[x].deleted ==>
      x in l'.txs && l'.txs[x].(version := 0) == l.txs[x].(version := 0)
    requires forall a :: a in l.accounts ==> a in l'.accounts && l.accounts[a].version <= l'.accounts[a].version
    ensures LinksOk(l')
  {
    forall i | 0 <= i < |l.records| ensures RecordOk(l', l.records[i]) {
      assert RecordOk(l, l.records[i]);
      forall x | x in l.records[i].items ensures LinkOk(l', l.records[i], x) {
        assert LinkOk(l, l.records[i], x);
      }
    }
    forall i, j | 0 <= i < j < |l.records| ensures Apart(l', l.records[i], l.records[j]) {
      assert Apart(l, l.records[i], l.records[j]) && RecordOk(l, l.records[i]);
      forall x | x in l.records[i].items && x in l.records[j].items
        ensures x in l'.txs && l'.txs[x].txType == Transfer
      {
        assert LinkOk(l, l.records[i], x);
      }
    }
  }

  lemma ConfirmShape(l: Ledger, q: StatementRequest, token: Token, key: string)
    requires Accepts(l, Confirm(q, token, key))
    ensures q.account in l.accounts && l.accounts[q.account].version == q.accountVersion && token.request == q
    ensures Step(l, Confirm(q, token, key)) == Settle(l, q, token, key)
    ensures forall i :: 0 <= i < |l.records| ==> l.records[i].key != key
    ensures BuildPreview(l, q) == Previewed(token, 0)
    ensures forall x :: x in token.candidates <==>
      x in Statement(l.txs, q.account, l.accounts[q.account], q.cutoff) && IsCandidate(l, q.account, x)
  {
    forall i | 0 <= i < |l.records| ensures l.records[i].key != key {
      assert !HasKey(l.records, key, i);
    }
  }

  /** An earlier record stays in order, and apart from the new one. */
  lemma SettledRecord(l: Ledger, q: StatementRequest, token: Token, key: string, i: nat)
    requires LinksOk(l) && i < |l.records| && q.account in l.accounts && l.records[i].key != key && token.request == q
    requires l.accounts[q.account].version == q.accountVersion
    requires LinksOk(Settle(l, q, token, key).(records := l.records))
    requires BuildPreview(l, q) == Previewed(token, 0)
    requires forall x :: x in token.candidates <==>
      x in Statement(l.txs, q.account, l.accounts[q.account], q.cutoff) && IsCandidate(l, q.account, x)
    ensures var l' := Settle(l, q, token, key);
      RecordOk(l', l.records[i]) && Apart(l', l.records[i], l'.records[|l.records|])
  {
    hide BuildPreview, StatementBalance;
    var l' := Settle(l, q, token, key);
    var last := l'.records[|l.records|];
    assert RecordOk(l'.(records := l.records), l.records[i]);
    assert RecordOk(l, l.records[i]);
    forall x | x in l.records[i].items ensures LinkOk(l', l.records[i], x) {
      assert LinkOk(l'.(records := l.records), l.records[i], x);
      assert LinkOk(l, l.records[i], x);
    }
    forall x | x in l.records[i].items && x in last.items
      ensures l.records[i].request.account != q.account && l'.txs[x].txType == Transfer
    {
      assert l.records[i].request.account in LinkedAccounts(l.records, x);
      assert LinkOk(l, l.records[i], x);
    }
  }

  lemma ConfirmKeepsLinks(l: Ledger, q: StatementRequest, token: Token, key: string)
    requires LinksOk(l) && Accepts(l, Confirm(q, token, key))
    ensures LinksOk(Step(l, Confirm(q, token, key)))
  {
    hide BuildPreview, StatementBalance;
    ConfirmShape(l, q, token, key);
    hide Accepts, Step;
    var l' := Settle(l, q, token, key);
    var last := l'.records[|l.records|];
    SameLinks(l, l'.(records := l.records));
    forall i | 0 <= i < |l.records| ensures RecordOk(l', l.records[i]) && Apart(l', l.records[i], last) {
      SettledRecord(l, q, token, key, i);
    }
    forall i, j | 0 <= i < j < |l'.records| ensures Apart(l', l'.records[i], l'.records[j]) {
      if j < |l.records| {
        assert Apart(l'.(records := l.records), l.records[i], l.records[j]);
      }
    }
    assert RecordOk(l', last);
  }

  /** Every run keeps the links in order and every transaction in shape. */
  lemma {:induction false} RunKeepsLinks(l: Ledger, actions: seq<Action>)
    requires LinksOk(l) && ShapesOk(l)
    ensures LinksOk(Run(l, actions)) && ShapesOk(Run(l, actions))
    decreases |actions|
  {
    hide LinksOk, ShapesOk, Step;
    if actions != [] {
      var before, c := Run(l, actions[..|actions| - 1]), actions[|actions| - 1];
      RunKeepsLinks(l, actions[..|actions| - 1]);
      StepKeepsShapes(before, c);
      StepKeepsLinks(before, c);
    }
  }

  lemma StepKeepsLinks(l: Ledger, c: Action)
    requires LinksOk(l)
    ensures LinksOk(Step(l, c))
  {
    hide LinksOk;
    if Accepts(l, c) {
      if c.Confirm? {
        ConfirmKeepsLinks(l, c.request, c.token, c.key);
      } else {
        OthersKeepLinks(l, c);
      }
    }
  }

  const EMPTY := Ledger(map[], map[], None, [])

  lemma EmptyRun(actions: seq<Action>)
    ensures LinksOk(Run(EMPTY, actions)) && ShapesOk(Run(EMPTY, actions))
  {
    hide Step;
    RunKeepsLinks(EMPTY, actions);
  }

  /** In every run: the reconciliations of one account link disjoint sets of transactions, a transaction that
      is not a transfer is linked at most once, and a preview token is confirmed at most once, whatever
      keys are used. */
  lemma LinkedOnce(actions: seq<Action>, i: nat, j: nat)
    requires i < j < |Run(EMPTY, actions).records|
    ensures var l := Run(EMPTY, actions);
      var r, s := l.records[i], l.records[j];
      && r.token != s.token && r.key != s.key
      && (r.request.account == s.request.account ==> r.items.Keys !! s.items.Keys)
      && (forall x :: x in r.items && x in s.items ==> x in l.txs && l.txs[x].txType == Transfer)
  {
    hide Run;
    EmptyRun(actions);
    var l := Run(EMPTY, actions);
    assert Apart(l, l.records[i], l.records[j]) && RecordOk(l, l.records[i]) && RecordOk(l, l.records[j]);
  }

  ghost function LinkingRecords(l: Ledger, x: Id): set<nat> {
    set i: nat | i < |l.records| && x in l.records[i].items
  }

  /** A transfer is linked at most once for each of its two sides. */
  lemma TransferLinkedPerSide(actions: seq<Action>, x: Id)
    ensures var l := Run(EMPTY, actions);
      && |LinkingRecords(l, x)| <= 2
      && (x in l.txs && l.txs[x].txType != Transfer ==> |LinkingRecords(l, x)| <= 1)
  {
    hide Run;
    EmptyRun(actions);
    var l := Run(EMPTY, actions);
    hide LinksOk, LinkingRecords;
    AtMostTwo(l, x);
  }

  lemma SidesApart(l: Ledger, x: Id, j: nat, k: nat)
    requires LinksOk(l) && j in LinkingRecords(l, x) && k in LinkingRecords(l, x) && j != k
    ensures x in l.txs && l.txs[x].txType == Transfer
    ensures l.records[j].request.account != l.records[k].request.account
    ensures Touches(l.txs[x], l.records[j].request.account) && Touches(l.txs[x], l.records[k].request.account)
  {
    assert RecordOk(l, l.records[j]) && LinkOk(l, l.records[j], x);
    assert RecordOk(l, l.records[k]) && LinkOk(l, l.records[k], x);
    assert if j < k then Apart(l, l.records[j], l.records[k]) else Apart(l, l.records[k], l.records[j]);
  }

  lemma AtMostTwo(l: Ledger, x: Id)
    requires LinksOk(l)
    ensures |LinkingRecords(l, x)| <= 2
    ensures x in l.txs && l.txs[x].txType != Transfer ==> |LinkingRecords(l, x)| <= 1
  {
    hide LinksOk;
    var linking := LinkingRecords(l, x);
    if linking != {} {
      var i :| i in linking;
      var others := linking - {i};
      assert linking == others + {i};
      if others != {} {
        var j :| j in others;
        SidesApart(l, x, i, j);
        forall k | k in others ensures k == j {
          if k != j {
            SidesApart(l, x, i, k);
            SidesApart(l, x, j, k);
          }
        }
        assert others == {j};
      }
    }
  }

  // ----- a preview after a confirmation -----

  /** Previewing the same statement again right after it was confirmed, with the new account version, shows
      no difference and nothing left to reconcile. */
  lemma RepreviewIsClean(l: Ledger, q: StatementRequest, token: Token, key: string)
    requires Accepts(l, Confirm(q, token, key))
    ensures var l' := Step(l, Confirm(q, token, key));
      var again := BuildPreview(l', q.(accountVersion := q.accountVersion + 1));
      again.Previewed? && again.difference == 0 && again.token.candidates == {} && again.token.balance == token.balance
  {
    ConfirmShape(l, q, token, key);
    hide Accepts, Step;
    var l' := Settle(l, q, token, key);
    var account, account' := l.accounts[q.account], l'.accounts[q.account];
    var rows := Statement(l.txs, q.account, account, q.cutoff);
    assert rows == Statement(l'.txs, q.account, account', q.cutoff);
    forall x | x in rows
      ensures EffectOn(l'.txs, q.account)(x) == EffectOn(l.txs, q.account)(x)
      ensures l'.txs[x].currency == l.txs[x].currency && !IsCandidate(l', q.account, x)
    {
      SettledRow(l, q, token, key, x);
    }
    SumEqual(rows, EffectOn(l'.txs, q.account), EffectOn(l.txs, q.account));
  }

  lemma SettledRow(l: Ledger, q: StatementRequest, token: Token, key: string, x: Id)
    requires q.account in l.accounts && x in l.txs
    requires x in token.candidates <==> IsCandidate(l, q.account, x)
    ensures var l' := Settle(l, q, token, key);
      && l'.txs[x].(status := l.txs[x].status, version := l.txs[x].version) == l.txs[x]
      && EffectOn(l'.txs, q.account)(x) == EffectOn(l.txs, q.account)(x)
      && !IsCandidate(l', q.account, x)
  {
    var l' := Settle(l, q, token, key);
    var n := |l.records|;
    assert l'.records[n].items.Keys == token.candidates * l.txs.Keys;
    assert l'.records == l.records + [l'.records[n]];
    LinkedAppend(l.records, l'.records[n], x);
    hide LinkedAccounts;
    SettledEffect(l.txs, token.candidates, q.account, x);
  }

  lemma SettledEffect(txs: map<Id, Transaction>, chosen: set<Id>, a: Id, x: Id)
    requires x in txs
    ensures EffectOn(MarkedAll(txs, chosen), a)(x) == EffectOn(txs, a)(x)
  {
  }

  lemma LinkedAppend(records: seq<Record>, r: Record, x: Id)
    ensures LinkedAccounts(records + [r], x)
         == LinkedAccounts(records, x) + if x in r.items then {r.request.account} else {}
  {
    var longer := records + [r];
    forall a | a in LinkedAccounts(records, x) ensures a in LinkedAccounts(longer, x) {
      var i :| 0 <= i < |records| && x in records[i].items && records[i].request.account == a;
      assert longer[i] == records[i];
    }
    if x in r.items {
      assert longer[|records|] == r;
    }
  }

  /** The currency conflict of a preview never happens on a ledger the services have built. */
  lemma NoCurrencyConflict(actions: seq<Action>, q: StatementRequest)
    ensures BuildPreview(Run(EMPTY, actions), q) != NoPreview(CurrencyConflict)
  {
    hide Run;
    EmptyRun(actions);
    var l := Run(EMPTY, actions);
    if q.account in l.accounts {
      forall x | x in Statement(l.txs, q.account, l.accounts[q.account], q.cutoff)
        ensures l.txs[x].currency == l.accounts[q.account].currency
      {
        assert ShapeOk(l.accounts, l.txs[x]);
      }
    }
  }
}
