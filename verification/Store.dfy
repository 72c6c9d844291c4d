/** The services as they run: rule commands, rule-set preparation, the matcher loop, the transaction
    write and the executor, over the rows of one workspace. */
module Store {
  import opened Domain
  import opened Ordering
  import opened RuleSet
  import opened Executor
  import opened Sums
  import opened Refunds

  datatype PreparedRule = PreparedRule(id: Id, content: RuleContent, categoryType: CategoryType)

  datatype WriteResult = Written | VersionConflict | ReconciledImmutable | MonthClosed | Rejected

  /** `prepared` lists exactly the current rules whose target category is usable, in rule order. */
  ghost predicate IsPrepared(rules: map<Id, Rule>, categories: map<Id, Category>, prepared: seq<PreparedRule>) {
    && (forall i :: 0 <= i < |prepared| ==> PreparedFrom(rules, categories, prepared[i]))
    && (forall i, j :: 0 <= i < j < |prepared| ==> Before(RuleKeys(rules), prepared[i].id, prepared[j].id))
    && (forall id :: id in rules && Current(rules[id]) && Usable(categories, rules[id].content.category) ==>
          exists i :: 0 <= i < |prepared| && prepared[i].id == id)
  }

  predicate Usable(categories: map<Id, Category>, category: Id) {
    category in categories && !categories[category].archived
  }

  predicate PreparedFrom(rules: map<Id, Rule>, categories: map<Id, Category>, p: PreparedRule) {
    && p.id in rules && Current(rules[p.id]) && p.content == rules[p.id].content
    && Usable(categories, p.content.category)
    && p.categoryType == categories[p.content.category].categoryType
  }

  /** `prepared` is what the first rules of the order, `done`, have yielded. */
  ghost predicate PreparedPart(rules: map<Id, Rule>, categories: map<Id, Category>, done: seq<Id>,
                               prepared: seq<PreparedRule>) {
    && (forall i :: 0 <= i < |prepared| ==>
          PreparedFrom(rules, categories, prepared[i]) && prepared[i].id in done)
    && (forall i, j :: 0 <= i < j < |prepared| ==> Before(RuleKeys(rules), prepared[i].id, prepared[j].id))
    && (forall id :: id in done && id in rules && Usable(categories, rules[id].content.category) ==>
          exists i :: 0 <= i < |prepared| && prepared[i].id == id)
  }

  lemma SameOrder(current: map<Id, Key>, rules: map<Id, Rule>, x: Id, y: Id)
    requires x in current && y in current && x in rules && y in rules
    requires current[x] == RuleKeys(rules)[x] && current[y] == RuleKeys(rules)[y]
    ensures Before(current, x, y) <==> Before(RuleKeys(rules), x, y)
  {
  }

  lemma PreparedStep(rules: map<Id, Rule>, categories: map<Id, Category>, current: map<Id, Key>, order: seq<Id>,
                     k: nat, prepared: seq<PreparedRule>)
    requires k < |order|
    requires forall x :: x in current <==> x in rules && Current(rules[x])
    requires forall x :: x in current ==> current[x] == RuleKeys(rules)[x]
    requires forall x :: x in order ==> x in current
    requires Ordered(current, order)
    requires PreparedPart(rules, categories, order[..k], prepared)
    ensures order[k] in rules && Current(rules[order[k]])
    ensures !Usable(categories, rules[order[k]].content.category) ==>
      PreparedPart(rules, categories, order[..k + 1], prepared)
    ensures Usable(categories, rules[order[k]].content.category) ==>
      var content := rules[order[k]].content;
      PreparedPart(rules, categories, order[..k + 1],
                   prepared + [PreparedRule(order[k], content, categories[content.category].categoryType)])
  {
    hide Before, RuleKeys;
    assert order[k] in order;
    var content := rules[order[k]].content;
    assert order[..k + 1] == order[..k] + [order[k]];
    if Usable(categories, content.category) {
      var last := PreparedRule(order[k], content, categories[content.category].categoryType);
      var longer := prepared + [last];
      assert longer[|prepared|].id == order[k];
      forall i | 0 <= i < |prepared|
        ensures Before(RuleKeys(rules), prepared[i].id, order[k])
      {
        var m :| 0 <= m < k && order[..k][m] == prepared[i].id;
        assert Before(current, order[m], order[k]);
        SameOrder(current, rules, order[m], order[k]);
      }
      forall id | id in order[..k + 1] && id in rules && Usable(categories, rules[id].content.category)
        ensures exists i :: 0 <= i < |longer| && longer[i].id == id
      {
        if id != order[k] {
          var i :| 0 <= i < |prepared| && prepared[i].id == id;
          assert longer[i].id == id;
        }
      }
    }
  }

  class Workspace {
    var ruleSet: nat
    var rules: map<Id, Rule>
    var categories: map<Id, Category>
    var accounts: map<Id, Account>
    var txs: map<Id, Transaction>
    var closedBefore: Option<Instant>

    ghost function Snapshot(): Db
      reads this
    {
      Db(ruleSet, rules, categories, accounts, txs, closedBefore)
    }

    constructor (db: Db)
      ensures Snapshot() == db
    {
      ruleSet, rules, categories, accounts, txs, closedBefore :=
        db.ruleSet, db.rules, db.categories, db.accounts, db.txs, db.closedBefore;
    }

    method CreateRule(id: Id, content: RuleContent, now: Instant, payeeOk: bool) returns (ok: bool)
      requires id !in rules && HasMatcher(content)
      modifies this
      ensures ok == Accepts(old(rules), old(categories), old(accounts), Create(id, content, now, payeeOk))
      ensures Snapshot() == RuleStep(old(Snapshot()), Create(id, content, now, payeeOk))
    {
      if !ReferencesValid(categories, accounts, content, payeeOk) {
        return false;
      }
      rules := rules[id := Rule(content, now, false, 1)];
      ruleSet := ruleSet + 1;
      return true;
    }

    method UpdateRule(id: Id, version: nat, content: RuleContent, payeeOk: bool) returns (ok: bool)
      modifies this
      ensures ok == Accepts(old(rules), old(categories), old(accounts), Update(id, version, content, payeeOk))
      ensures Snapshot() == RuleStep(old(Snapshot()), Update(id, version, content, payeeOk))
    {
      if id !in rules || rules[id].deleted || rules[id].version != version {
        return false;
      }
      if !HasMatcher(content) || !ReferencesValid(categories, accounts, content, payeeOk) {
        return false;
      }
      var before := Semantics(rules[id]);
      rules := rules[id := rules[id].(content := content)];
      rules := rules[id := rules[id].(version := rules[id].version + 1)];
      if Semantics(rules[id]) != before {
        ruleSet := ruleSet + 1;
      }
      return true;
    }

    method DeleteRule(id: Id, version: nat) returns (ok: bool)
      modifies this
      ensures ok == Accepts(old(rules), old(categories), old(accounts), Delete(id, version))
      ensures Snapshot() == RuleStep(old(Snapshot()), Delete(id, version))
    {
      if id !in rules || rules[id].deleted || rules[id].version != version {
        return false;
      }
      rules := rules[id := rules[id].(deleted := true, version := rules[id].version + 1)];
      ruleSet := ruleSet + 1;
      return true;
    }

    /** Restoring a rule that is not deleted answers with the rule and changes nothing. */
    method RestoreRule(id: Id, version: nat, payeeOk: bool) returns (ok: bool)
      modifies this
      ensures Snapshot() == RuleStep(old(Snapshot()), Restore(id, version, payeeOk))
      ensures ok == (Accepts(old(rules), old(categories), old(accounts), Restore(id, version, payeeOk))
                     || (id in old(rules) && old(rules)[id].version == version && !old(rules)[id].deleted))
    {
      if id !in rules || rules[id].version != version {
        return false;
      }
      if !rules[id].deleted {
        return true;
      }
      if !ReferencesValid(categories, accounts, rules[id].content, payeeOk) {
        return false;
      }
      rules := rules[id := rules[id].(deleted := false, version := rules[id].version + 1)];
      ruleSet := ruleSet + 1;
      return true;
    }

    method PrepareRuleSet() returns (prepared: seq<PreparedRule>)
      ensures IsPrepared(rules, categories, prepared)
    {
      var rows, usable := rules, categories;
      var current := map id | id in rows && Current(rows[id]) ::
        Key(rows[id].content.priority, rows[id].createdAt);
      var order := OrderBy(current);
      prepared := [];
      for k := 0 to |order|
        invariant PreparedPart(rows, usable, order[..k], prepared)
      {
        PreparedStep(rows, usable, current, order, k, prepared);
        var rule := rows[order[k]].content;
        if rule.category in usable && !usable[rule.category].archived {
          prepared := prepared + [PreparedRule(order[k], rule, usable[rule.category].categoryType)];
        }
      }
      assert order[..|order|] == order;
    }

    /** The matcher loop finds the first valid match of the declarative order, or proves there is none. */
    method Match(t: Transaction, prepared: seq<PreparedRule>) returns (found: Option<Id>)
      requires IsPrepared(rules, categories, prepared)
      ensures found == FirstMatch(rules, categories, t)
      ensures FirstToFit(rules, categories, t, found)
    {
      FirstMatchMeans(rules, categories, t);
      hide FirstToFit;
      for k := 0 to |prepared|
        invariant forall i :: 0 <= i < k ==> !Eligible(rules, categories, t, prepared[i].id)
      {
        var p := prepared[k];
        if Matches(p.content, t) && Compatible(t.txType, p.categoryType) {
          forall other | Eligible(rules, categories, t, other) && other != p.id
            ensures Before(RuleKeys(rules), p.id, other)
          {
            var i :| 0 <= i < |prepared| && prepared[i].id == other;
          }
          FirstMatchUnique(rules, categories, t, p.id);
          return Some(p.id);
        }
      }
      assert forall id :: Eligible(rules, categories, t, id) ==> Usable(categories, rules[id].content.category);
      return None;
    }

    method RefundedTotal(original: Id, except: Id) returns (total: int)
      ensures total == OtherRefunded(txs, original, except)
    {
      total := 0;
      var rest := OtherRefunds(txs, original, except);
      ghost var amounts := AmountOf(txs);
      while rest != {}
        invariant rest <= OtherRefunds(txs, original, except)
        invariant total + SumOver(rest, amounts) == OtherRefunded(txs, original, except)
        decreases |rest|
      {
        var id :| id in rest;
        SumExtract(rest, amounts, id);
        total := total + txs[id].amount;
        rest := rest - {id};
      }
    }

    method ValidateTransaction(id: Id) returns (valid: bool)
      requires id in txs
      ensures valid == WriteValid(Snapshot(), id)
    {
      var t := txs[id];
      if !(t.account in accounts) || accounts[t.account].deleted || accounts[t.account].archived {
        return false;
      }
      if accounts[t.account].currency != t.currency || t.target.Some? {
        return false;
      }
      if t.txType == Refund {
        if t.related == None || t.related.value !in txs {
          return false;
        }
        var original := txs[t.related.value];
        if original.deleted || (original.txType != Income && original.txType != Expense) {
          return false;
        }
        if t.account != original.account || t.currency != original.currency {
          return false;
        }
        var refunded := RefundedTotal(t.related.value, id);
        if refunded + t.amount > original.amount {
          return false;
        }
      }
      return t.txType == Adjustment ==> t.comment != "";
    }

    /** A category-only update through the transaction service. */
    method UpdateTransaction(id: Id, version: nat, category: Id) returns (r: WriteResult)
      requires id in txs && !txs[id].deleted
      modifies `txs
      ensures r.Written? <==>
        && old(txs)[id].version == version && old(txs)[id].status != Reconciled
        && !Closed(closedBefore, old(txs)[id].occurredAt)
        && WriteValid(old(Snapshot()), id)
      ensures Snapshot() == if r.Written? then WriteCategory(old(Snapshot()), id, category) else old(Snapshot())
      ensures r.VersionConflict? <==> old(txs)[id].version != version
      ensures r.ReconciledImmutable? <==> old(txs)[id].version == version && old(txs)[id].status == Reconciled
      ensures r.MonthClosed? <==>
        && old(txs)[id].version == version && old(txs)[id].status != Reconciled
        && Closed(closedBefore, old(txs)[id].occurredAt)
    {
      var t := txs[id];
      if t.version != version {
        return VersionConflict;
      }
      if t.status == Reconciled {
        return ReconciledImmutable;
      }
      if closedBefore.Some? && t.occurredAt < closedBefore.value {
        return MonthClosed;
      }
      var valid := ValidateTransaction(id);
      if !valid {
        return Rejected;
      }
      txs := txs[id := t.(category := Some(category), version := t.version + 1)];
      return Written;
    }

    /** The last part of the executor, once rows and target are proved: the re-match and the write. */
    method RematchAndWrite(e: Expectation) returns (outcome: Outcome)
      requires e.tx in txs && !txs[e.tx].deleted && txs[e.tx].version == e.txVersion && Untouched(txs[e.tx])
      requires e.ruleSet.Some? ==> e.ruleSet.value == ruleSet
      requires ProposedRuleHolds(Snapshot(), e) && TargetHolds(Snapshot(), e, txs[e.tx])
      modifies `txs
      ensures outcome == Decide(old(Snapshot()), categories, e)
      ensures Snapshot() == Execute(old(Snapshot()), categories, e)
    {
      hide FirstToFit, TargetHolds, WriteValid;
      var t := txs[e.tx];
      var prepared := PrepareRuleSet();
      var confirmed := Match(t, prepared);
      assert confirmed == Some(e.rule) ==> IsFirstMatch(rules, categories, t, e.rule);
      if confirmed == None {
        return Terminal(NoMatch, None, None);
      }
      if confirmed.value != e.rule || rules[confirmed.value].version != e.ruleVersion
         || rules[confirmed.value].content.category != e.category {
        return Terminal(RuleChanged, None, None);
      }
      FirstMatchUnique(rules, categories, t, e.rule);
      var written := UpdateTransaction(e.tx, e.txVersion, e.category);
      match written {
        case MonthClosed => outcome := Terminal(ClosedPeriod, None, None);
        case ReconciledImmutable => outcome := Terminal(IsReconciled, None, None);
        case VersionConflict => outcome := Terminal(TransactionChanged, Some(e.txVersion), Some(t.version));
        case Rejected => outcome := Raised;
        case Written => outcome := Terminal(Applied, Some(e.txVersion), Some(txs[e.tx].version));
      }
    }

    /** The executor in the order the source takes its steps, with every early return. */
    method ExecuteApply(e: Expectation) returns (outcome: Outcome)
      modifies `txs
      ensures outcome == Decide(old(Snapshot()), categories, e)
      ensures Snapshot() == Execute(old(Snapshot()), categories, e)
      ensures outcome.Terminal? && outcome.status == Applied <==> WriteIsDue(old(Snapshot()), categories, e)
    {
      AppliedExactly(Snapshot(), categories, e);
      hide WriteIsDue, FirstToFit;
      var ruleSetChanged := e.ruleSet.Some? && ruleSet != e.ruleSet.value;
      if e.tx !in txs || txs[e.tx].deleted {
        return Terminal(NotFound, None, None);
      }
      var t := txs[e.tx];
      if t.version != e.txVersion {
        return Terminal(TransactionChanged, Some(e.txVersion), Some(t.version));
      }
      if t.txType == Transfer {
        return Terminal(IsTransfer, None, None);
      }
      if t.category.Some? {
        return Terminal(AlreadyCategorized, None, None);
      }
      if t.splits != [] {
        return Terminal(HasSplits, None, None);
      }
      if t.status == Reconciled {
        return Terminal(IsReconciled, None, None);
      }
      if ruleSetChanged {
        return Terminal(RuleChanged, None, None);
      }
      if !ProposedRuleHolds(Db(ruleSet, rules, categories, accounts, txs, closedBefore), e) {
        return Terminal(RuleChanged, None, None);
      }
      if e.category !in categories {
        return Terminal(CategoryChanged, None, None);
      }
      var category := categories[e.category];
      if category.deleted || category.archived || !Compatible(t.txType, category.categoryType)
         || (e.categoryVersion.Some? && category.version != e.categoryVersion.value) {
        return Terminal(CategoryChanged, None, None);
      }
      outcome := RematchAndWrite(e);
    }
  }
}
