/** The ledger commands: accounts, transactions, account reconciliation and the closed part of history. The
    end of a local day stands for the day itself: a statement date is the instant before which its
    transactions lie, and so is the close date. */
module LedgerSpec {
  import opened Domain
  import opened Refunds
  import opened Balances

  datatype StatementRequest = StatementRequest(
    account: Id,
    cutoff: Instant,
    statementBalance: int,
    currency: string,
    accountVersion: nat)

  /** The hashed payload of a preview. Its lists are in query order, so these maps and sets determine them. */
  datatype Token = Token(
    request: StatementRequest,
    balance: int,
    effective: map<Id, (nat, TxStatus)>,
    candidates: set<Id>)

  /** A confirmed reconciliation; `items` holds the version each transaction had. */
  datatype Record = Record(request: StatementRequest, balance: int, key: string, token: Token, items: map<Id, nat>)

  datatype Ledger = Ledger(
    accounts: map<Id, Account>,
    txs: map<Id, Transaction>,
    closedBefore: Option<Instant>,
    records: seq<Record>)

  // ----- account reconciliation -----

  function LinkedAccounts(records: seq<Record>, tx: Id): set<Id> {
    set i | 0 <= i < |records| && tx in records[i].items :: records[i].request.account
  }

  /** A confirmed transaction not yet linked to the account, or the second side of a reconciled transfer. */
  predicate IsCandidate(l: Ledger, a: Id, tx: Id)
    requires tx in l.txs
  {
    var linked := LinkedAccounts(l.records, tx);
    && a !in linked
    && (l.txs[tx].status == TxStatus.Confirmed
        || (l.txs[tx].status == TxStatus.Reconciled && l.txs[tx].txType == Transfer && linked != {}))
  }

  datatype PreviewRefusal = AccountNotFound | CurrencyMismatch | AccountVersionConflict | BeforeOpening | CurrencyConflict

  datatype Preview = Previewed(token: Token, difference: int) | NoPreview(reason: PreviewRefusal)

  ghost function BuildPreview(l: Ledger, q: StatementRequest): Preview {
    if q.account !in l.accounts || l.accounts[q.account].deleted then NoPreview(AccountNotFound)
    else
      var account := l.accounts[q.account];
      var rows := Statement(l.txs, q.account, account, q.cutoff);
      if q.currency != account.currency then NoPreview(CurrencyMismatch)
      else if q.accountVersion != account.version then NoPreview(AccountVersionConflict)
      else if q.cutoff <= account.openingAt then NoPreview(BeforeOpening)
      else if exists x :: x in rows && l.txs[x].currency != account.currency then NoPreview(CurrencyConflict)
      else
        var balance := StatementBalance(l.txs, q.account, account, q.cutoff);
        Previewed(Token(q, balance, map x | x in rows :: (l.txs[x].version, l.txs[x].status),
                        set x | x in rows && IsCandidate(l, q.account, x)),
                  q.statementBalance - balance)
  }

  datatype ConfirmReply =
    | Confirmed(record: Record)
    | Replayed(record: Record)
    | KeyConflict
    | PreviewFailed(reason: PreviewRefusal)
    | PreviewStale
    | NonZeroDifference

  predicate HasKey(records: seq<Record>, key: string, i: nat) {
    i < |records| && records[i].key == key
  }

  function Marked(t: Transaction): Transaction {
    t.(status := TxStatus.Reconciled, version := t.version + 1)
  }

  function MarkedAll(txs: map<Id, Transaction>, chosen: set<Id>): map<Id, Transaction> {
    map x | x in txs :: if x in chosen then Marked(txs[x]) else txs[x]
  }

  function VersionsOf(txs: map<Id, Transaction>, chosen: set<Id>): map<Id, nat> {
    map x | x in chosen && x in txs :: txs[x].version
  }

  /** What a confirmation writes: the record, `reconciled` on every candidate, and new versions. */
  function Settle(l: Ledger, q: StatementRequest, token: Token, key: string): Ledger
    requires q.account in l.accounts
  {
    l.(txs := MarkedAll(l.txs, token.candidates),
       accounts := l.accounts[q.account := l.accounts[q.account].(version := l.accounts[q.account].version + 1)],
       records := l.records + [Record(q, token.balance, key, token, VersionsOf(l.txs, token.candidates))])
  }

  ghost function ConfirmStatement(l: Ledger, q: StatementRequest, token: Token, key: string): (Ledger, ConfirmReply) {
    if exists i: nat :: HasKey(l.records, key, i) then
      var i: nat :| HasKey(l.records, key, i);
      (l, if l.records[i].request == q && l.records[i].token == token then Replayed(l.records[i]) else KeyConflict)
    else
      match BuildPreview(l, q)
      case NoPreview(reason) => (l, PreviewFailed(reason))
      case Previewed(current, difference) =>
        if current != token then (l, PreviewStale)
        else if difference != 0 then (l, NonZeroDifference)
        else
          var l' := Settle(l, q, token, key);
          (l', ConfirmReply.Confirmed(l'.records[|l.records|]))
  }

  // ----- accounts -----

  datatype AccountChanges = AccountChanges(
    name: Option<string>,
    currency: Option<string>,
    openingBalance: Option<int>,
    openingAt: Option<Instant>,
    archived: Option<bool>)

  function Or<T>(change: Option<T>, current: T): T {
    if change.Some? then change.value else current
  }

  function Changed(account: Account, c: AccountChanges): Account {
    account.(name := Or(c.name, account.name), currency := Or(c.currency, account.currency),
             openingBalance := Or(c.openingBalance, account.openingBalance),
             openingAt := Or(c.openingAt, account.openingAt), archived := Or(c.archived, account.archived),
             version := account.version + 1)
  }

  predicate NameTaken(accounts: map<Id, Account>, name: string, except: Option<Id>) {
    exists a :: a in accounts && accounts[a].name == name && !accounts[a].deleted && !accounts[a].archived
      && except != Some(a)
  }

  predicate HasTransactions(txs: map<Id, Transaction>, a: Id) {
    exists x :: x in txs && Touches(txs[x], a)
  }

  /** The account opens in closed history, or an effective transaction of closed history touches it. */
  predicate AffectsClosed(l: Ledger, a: Id)
    requires a in l.accounts
  {
    l.closedBefore.Some? &&
    (l.accounts[a].openingAt < l.closedBefore.value
     || exists x :: x in l.txs && Effective(l.txs[x]) && l.txs[x].occurredAt < l.closedBefore.value && Touches(l.txs[x], a))
  }

  predicate MayUpdate(l: Ledger, a: Id, version: nat, c: AccountChanges) {
    && a in l.accounts && !l.accounts[a].deleted && l.accounts[a].version == version
    && (c.currency.Some? && c.currency.value != l.accounts[a].currency ==> !HasTransactions(l.txs, a))
    && (c.openingBalance.Some? || c.openingAt.Some? || c.currency.Some? ==>
          !Closed(l.closedBefore, l.accounts[a].openingAt)
          && !Closed(l.closedBefore, Or(c.openingAt, l.accounts[a].openingAt)))
    && (!Or(c.archived, l.accounts[a].archived) ==> !NameTaken(l.accounts, Or(c.name, l.accounts[a].name), Some(a)))
  }

  // ----- transactions -----

  predicate AccountOpen(l: Ledger, a: Id) {
    a in l.accounts && !l.accounts[a].deleted && !l.accounts[a].archived
  }

  /** The part of the transaction checks that concerns shape: accounts, currencies, transfers and splits. */
  predicate WellShaped(l: Ledger, row: Transaction) {
    && row.status != TxStatus.Reconciled
    && AccountOpen(l, row.account) && l.accounts[row.account].currency == row.currency
    && (row.txType == Transfer ==>
          && row.target.Some? && row.target.value != row.account && AccountOpen(l, row.target.value)
          && l.accounts[row.target.value].currency == row.currency
          && row.category == None && row.splits == [])
    && (row.txType != Transfer ==> row.target == None)
    && !(row.category.Some? && row.splits != [])
    && (row.txType == Income || row.txType == Expense ==> row.category.Some? || row.splits != [])
    && (row.splits != [] ==> SplitTotal(row.splits, |row.splits|) == row.amount)
    && (row.txType == Adjustment ==> row.comment != "")
  }

  /** A refund points at an income or expense of its own account and currency, and all refunds of that
      original stay within its amount. */
  ghost predicate RefundAllowed(l: Ledger, id: Id, row: Transaction) {
    row.txType == Refund ==>
      && row.related.Some? && row.related.value in l.txs
      && var original := l.txs[row.related.value];
      && !original.deleted && (original.txType == Income || original.txType == Expense)
      && row.account == original.account && row.currency == original.currency
      && OtherRefunded(l.txs, row.related.value, id) + row.amount <= original.amount
  }

  datatype Lifecycle = Delete | Undelete | Cancel

  function Moved(t: Transaction, how: Lifecycle): Transaction {
    match how
    case Delete => t.(deleted := true, version := t.version + 1)
    case Undelete => t.(deleted := false, version := t.version + 1)
    case Cancel => t.(status := Cancelled, version := t.version + 1)
  }

  predicate MayMove(l: Ledger, id: Id, version: nat, how: Lifecycle) {
    && id in l.txs && (how == Undelete || !l.txs[id].deleted) && l.txs[id].version == version
    && (how == Undelete || l.txs[id].status != TxStatus.Reconciled)
    && !Closed(l.closedBefore, l.txs[id].occurredAt)
  }

  // ----- all commands -----

  /** `ok` is the outcome of the category, payee and credit-limit checks, which read other tables and can
      only refuse more. */
  datatype Action =
    | CreateAccount(a: Id, account: Account, ok: bool)
    | UpdateAccount(a: Id, version: nat, changes: AccountChanges, ok: bool)
    | DeleteAccount(a: Id, version: nat)
    | RestoreAccount(a: Id, version: nat)
    | CreateTransaction(id: Id, row: Transaction, ok: bool)
    | UpdateTransaction(id: Id, version: nat, row: Transaction, ok: bool)
    | MoveTransaction(id: Id, version: nat, how: Lifecycle)
    | Confirm(request: StatementRequest, token: Token, key: string)
    | CloseThrough(before: Instant)

  ghost predicate Accepts(l: Ledger, c: Action) {
    match c
    case CreateAccount(a, account, ok) =>
      a !in l.accounts && !Closed(l.closedBefore, account.openingAt) && !NameTaken(l.accounts, account.name, None) && ok
    case UpdateAccount(a, version, changes, ok) => MayUpdate(l, a, version, changes) && ok
    case DeleteAccount(a, version) =>
      a in l.accounts && !l.accounts[a].deleted && l.accounts[a].version == version && !AffectsClosed(l, a)
    case RestoreAccount(a, version) =>
      && a in l.accounts && l.accounts[a].deleted && l.accounts[a].version == version && !AffectsClosed(l, a)
      && (!l.accounts[a].archived ==> !NameTaken(l.accounts, l.accounts[a].name, Some(a)))
    case CreateTransaction(id, row, ok) =>
      id !in l.txs && !Closed(l.closedBefore, row.occurredAt) && WellShaped(l, row) && RefundAllowed(l, id, row) && ok
    case UpdateTransaction(id, version, row, ok) =>
      && id in l.txs && !l.txs[id].deleted && l.txs[id].version == version
      && l.txs[id].status != TxStatus.Reconciled
      && !Closed(l.closedBefore, l.txs[id].occurredAt) && !Closed(l.closedBefore, row.occurredAt)
      && WellShaped(l, row) && RefundAllowed(l, id, row) && ok
    case MoveTransaction(id, version, how) => MayMove(l, id, version, how)
    case Confirm(request, token, key) => ConfirmStatement(l, request, token, key).1.Confirmed?
    case CloseThrough(before) => l.closedBefore.Some? ==> l.closedBefore.value <= before
  }

  ghost function Step(l: Ledger, c: Action): Ledger {
    if !Accepts(l, c) then l
    else match c {
      case CreateAccount(a, account, _) => l.(accounts := l.accounts[a := account.(deleted := false, version := 1)])
      case UpdateAccount(a, _, changes, _) => l.(accounts := l.accounts[a := Changed(l.accounts[a], changes)])
      case DeleteAccount(a, _) =>
        l.(accounts := l.accounts[a := l.accounts[a].(deleted := true, version := l.accounts[a].version + 1)])
      case RestoreAccount(a, _) =>
        l.(accounts := l.accounts[a := l.accounts[a].(deleted := false, version := l.accounts[a].version + 1)])
      case CreateTransaction(id, row, _) => l.(txs := l.txs[id := row.(deleted := false, version := 1)])
      case UpdateTransaction(id, version, row, _) =>
        l.(txs := l.txs[id := row.(deleted := false, version := version + 1)])
      case MoveTransaction(id, _, how) => l.(txs := l.txs[id := Moved(l.txs[id], how)])
      case Confirm(request, token, key) => ConfirmStatement(l, request, token, key).0
      case CloseThrough(before) => l.(closedBefore := Some(before))
    }
  }

  ghost function Run(l: Ledger, actions: seq<Action>): Ledger
    decreases |actions|
  {
    if actions == [] then l else Step(Run(l, actions[..|actions| - 1]), actions[|actions| - 1])
  }

  lemma RunFrom(l: Ledger, actions: seq<Action>, n: nat)
    requires n < |actions|
    ensures Run(l, actions[..n + 1]) == Step(Run(l, actions[..n]), actions[n])
    ensures n == 0 ==> Run(l, actions[..n]) == l
  {
    hide Step;
    assert actions[..n + 1][..n] == actions[..n];
  }

  // ----- the financial state of a close -----

  datatype StatusClass = EffectiveClass | ExcludedClass | DraftClass

  function ClassOf(t: Transaction): StatusClass {
    if t.deleted || t.status == Cancelled then ExcludedClass
    else if t.status == TxStatus.Confirmed || t.status == TxStatus.Reconciled then EffectiveClass
    else DraftClass
  }

  datatype AccountState = AccountState(currency: string, openingBalance: int, openingAt: Instant, deleted: bool)

  datatype TxState = TxState(
    kind: StatusClass,
    occurredAt: Instant,
    txType: TxType,
    amount: int,
    currency: string,
    account: Id,
    target: Option<Id>,
    category: Option<Id>,
    related: Option<Id>,
    splits: multiset<Split>)

  function AccountStateOf(a: Account): AccountState {
    AccountState(a.currency, a.openingBalance, a.openingAt, a.deleted)
  }

  /** Splits are listed by category and amount, so only their multiset counts. */
  function TxStateOf(t: Transaction): TxState {
    TxState(ClassOf(t), t.occurredAt, t.txType, t.amount, t.currency, t.account, t.target, t.category, t.related,
            multiset(t.splits))
  }

  datatype FinancialState = FinancialState(accounts: map<Id, AccountState>, txs: map<Id, TxState>)

  /** Everything the fingerprint of a month close covers. */
  function StateAt(l: Ledger, cutoff: Instant): FinancialState {
    FinancialState(
      map a | a in l.accounts && l.accounts[a].openingAt < cutoff :: AccountStateOf(l.accounts[a]),
      map x | x in l.txs && l.txs[x].occurredAt < cutoff :: TxStateOf(l.txs[x]))
  }
}
