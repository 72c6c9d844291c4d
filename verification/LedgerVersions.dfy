/** Versions and names of the ledger rows over every run: no update is lost, no two live accounts share a
    name, and restoring an account undoes its deletion. */
module LedgerVersions {
  import opened Domain
  import opened Balances
  import opened LedgerSpec

  datatype Row = AccountRow(a: Id) | TransactionRow(tx: Id)

  /** The row a command names together with the version it expects there. */
  function Named(c: Action): Option<(Row, nat)> {
    match c
    case UpdateAccount(a, version, _, _) => Some((AccountRow(a), version))
    case DeleteAccount(a, version) => Some((AccountRow(a), version))
    case RestoreAccount(a, version) => Some((AccountRow(a), version))
    case Confirm(request, _, _) => Some((AccountRow(request.account), request.accountVersion))
    case UpdateTransaction(id, version, _, _) => Some((TransactionRow(id), version))
    case MoveTransaction(id, version, _) => Some((TransactionRow(id), version))
    case _ => None
  }

  function Current(l: Ledger, row: Row): Option<nat> {
    match row
    case AccountRow(a) => if a in l.accounts then Some(l.accounts[a].version) else None
    case TransactionRow(x) => if x in l.txs then Some(l.txs[x].version) else None
  }

  predicate AtLeast(l: Ledger, row: Row, version: nat) {
    Current(l, row).Some? && version <= Current(l, row).value
  }

  lemma ConfirmSettles(l: Ledger, c: Action)
    requires c.Confirm? && Accepts(l, c)
    ensures c.request.account in l.accounts && l.accounts[c.request.account].version == c.request.accountVersion
    ensures Step(l, c) == Settle(l, c.request, c.token, c.key)
  {
  }

  /** An accepted command finds the version it names and leaves the next one. */
  lemma AcceptedRaises(l: Ledger, c: Action)
    requires Accepts(l, c) && Named(c).Some?
    ensures Current(l, Named(c).value.0) == Some(Named(c).value.1)
    ensures Current(Step(l, c), Named(c).value.0) == Some(Named(c).value.1 + 1)
  {
    hide WellShaped, RefundAllowed, NameTaken, HasTransactions, AffectsClosed, ConfirmStatement;
    if c.Confirm? {
      ConfirmSettles(l, c);
    }
  }

  lemma StepRaises(l: Ledger, c: Action, row: Row, version: nat)
    requires AtLeast(l, row, version)
    ensures AtLeast(Step(l, c), row, version)
  {
    hide WellShaped, RefundAllowed, NameTaken, HasTransactions, AffectsClosed, ConfirmStatement;
    if c.Confirm? && Accepts(l, c) {
      ConfirmSettles(l, c);
    }
  }

  lemma {:induction false} RunRaises(l: Ledger, actions: seq<Action>, row: Row, version: nat)
    requires AtLeast(l, row, version)
    ensures AtLeast(Run(l, actions), row, version)
    decreases |actions|
  {
    hide Step, AtLeast;
    if actions != [] {
      RunRaises(l, actions[..|actions| - 1], row, version);
      StepRaises(Run(l, actions[..|actions| - 1]), actions[|actions| - 1], row, version);
    }
  }

  /** No lost update: of all commands that name one version of one row, a reconciliation of the account
      included, at most one is ever accepted. */
  lemma VersionWrittenOnce(l: Ledger, c: Action, actions: seq<Action>, d: Action)
    requires Accepts(l, c) && Named(c).Some? && Named(d) == Named(c)
    ensures !Accepts(Run(Step(l, c), actions), d)
  {
    hide Step, Accepts;
    AcceptedRaises(l, c);
    RunRaises(Step(l, c), actions, Named(c).value.0, Named(c).value.1 + 1);
    if Accepts(Run(Step(l, c), actions), d) {
      AcceptedRaises(Run(Step(l, c), actions), d);
    }
  }

  predicate Shown(accounts: map<Id, Account>, a: Id) {
    a in accounts && !accounts[a].deleted && !accounts[a].archived
  }

  ghost predicate UniqueNames(accounts: map<Id, Account>) {
    forall a, b :: Shown(accounts, a) && Shown(accounts, b) && a != b ==> accounts[a].name != accounts[b].name
  }

  /** Placing a row keeps the names unique if no other shown account has its name. */
  lemma PlacedNames(accounts: map<Id, Account>, a: Id, row: Account)
    requires UniqueNames(accounts)
    requires !row.deleted && !row.archived ==> !NameTaken(accounts, row.name, Some(a))
    ensures UniqueNames(accounts[a := row])
  {
    var placed := accounts[a := row];
    forall b, c | Shown(placed, b) && Shown(placed, c) && b != c ensures placed[b].name != placed[c].name {
      assert b != a ==> Shown(accounts, b);
      assert c != a ==> Shown(accounts, c);
    }
  }

  lemma StepKeepsNames(l: Ledger, c: Action)
    requires UniqueNames(l.accounts)
    ensures UniqueNames(Step(l, c).accounts)
  {
    hide WellShaped, RefundAllowed, HasTransactions, AffectsClosed, ConfirmStatement, UniqueNames;
    if Accepts(l, c) {
      match c
      case CreateAccount(a, _, _) => PlacedNames(l.accounts, a, Step(l, c).accounts[a]);
      case UpdateAccount(a, _, _, _) => PlacedNames(l.accounts, a, Step(l, c).accounts[a]);
      case DeleteAccount(a, _) => PlacedNames(l.accounts, a, Step(l, c).accounts[a]);
      case RestoreAccount(a, _) => PlacedNames(l.accounts, a, Step(l, c).accounts[a]);
      case Confirm(request, _, _) =>
        ConfirmSettles(l, c);
        SettledNames(l.accounts, request.account);
      case _ =>
    }
  }

  lemma SettledNames(accounts: map<Id, Account>, a: Id)
    requires UniqueNames(accounts) && a in accounts
    ensures UniqueNames(accounts[a := accounts[a].(version := accounts[a].version + 1)])
  {
    if Shown(accounts, a) {
      assert forall b :: b != a && Shown(accounts, b) ==> accounts[b].name != accounts[a].name;
    }
    PlacedNames(accounts, a, accounts[a].(version := accounts[a].version + 1));
  }

  /** Over every run no two live unarchived accounts have the same name. */
  lemma {:induction false} RunKeepsNames(l: Ledger, actions: seq<Action>)
    requires UniqueNames(l.accounts)
    ensures UniqueNames(Run(l, actions).accounts)
    decreases |actions|
  {
    hide Step, UniqueNames;
    if actions != [] {
      RunKeepsNames(l, actions[..|actions| - 1]);
      StepKeepsNames(Run(l, actions[..|actions| - 1]), actions[|actions| - 1]);
    }
  }

  /** Restoring right after a delete is always accepted and gives the account back, two versions later. */
  lemma RestoreUndoesDelete(l: Ledger, a: Id, version: nat)
    requires UniqueNames(l.accounts) && Accepts(l, DeleteAccount(a, version))
    ensures var l' := Step(l, DeleteAccount(a, version));
      && Accepts(l', RestoreAccount(a, version + 1))
      && Step(l', RestoreAccount(a, version + 1))
           == l.(accounts := l.accounts[a := l.accounts[a].(version := version + 2)])
  {
    var l' := Step(l, DeleteAccount(a, version));
    if !l.accounts[a].archived {
      assert Shown(l.accounts, a);
      forall b | b in l'.accounts && b != a && !l'.accounts[b].deleted && !l'.accounts[b].archived
        ensures l'.accounts[b].name != l.accounts[a].name
      {
        assert Shown(l.accounts, b);
      }
    }
  }
}
