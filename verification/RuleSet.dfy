/** Categorization rules: which rule matches a transaction first, and the commands that change the
    rule set together with its revision number. */
module RuleSet {
  import opened Domain
  import opened Ordering

  /** Everything a PATCH may replace. */
  datatype RuleContent = RuleContent(
    name: string,
    priority: int,
    active: bool,
    txType: Option<TxType>,
    account: Option<Id>,
    payee: Option<Id>,
    counterparty: Option<string>,
    description: Option<string>,
    category: Id)

  datatype Rule = Rule(content: RuleContent, createdAt: Instant, deleted: bool, version: nat)

  predicate OccursAt(text: string, needle: string, i: nat) {
    i + |needle| <= |text| && text[i..i + |needle|] == needle
  }

  predicate Contains(text: string, needle: string) {
    exists i: nat | i <= |text| :: OccursAt(text, needle, i)
  }

  predicate Compatible(txType: TxType, categoryType: CategoryType) {
    match txType
    case Income => categoryType != ExpenseOnly
    case Expense => categoryType != IncomeOnly
    case Transfer => false
    case _ => true
  }

  predicate Matches(r: RuleContent, t: Transaction) {
    && t.txType != Transfer
    && (r.txType.Some? ==> r.txType.value == t.txType)
    && (r.account.Some? ==> r.account.value == t.account)
    && (r.payee.Some? ==> r.payee == t.payee)
    && (r.counterparty.Some? ==> Contains(t.counterparty, r.counterparty.value))
    && (r.description.Some? ==> Contains(t.description, r.description.value))
  }

  predicate Current(rule: Rule) {
    rule.content.active && !rule.deleted
  }

  /** The rule survives preparation and its target accepts the transaction. A deleted target category
      is not filtered here, exactly as in the source; the executor rejects it on its own. */
  predicate Eligible(rules: map<Id, Rule>, categories: map<Id, Category>, t: Transaction, id: Id) {
    && id in rules
    && Current(rules[id])
    && rules[id].content.category in categories
    && !categories[rules[id].content.category].archived
    && Matches(rules[id].content, t)
    && Compatible(t.txType, categories[rules[id].content.category].categoryType)
  }

  function RuleKeys(rules: map<Id, Rule>): (keys: map<Id, Key>)
    ensures keys.Keys == rules.Keys
  {
    map id | id in rules :: Key(rules[id].content.priority, rules[id].createdAt)
  }

  /** `id` is the first valid match: eligible, and before every other eligible rule in
      (priority, created_at, id) order. */
  ghost predicate IsFirstMatch(rules: map<Id, Rule>, categories: map<Id, Category>, t: Transaction, id: Id) {
    && Eligible(rules, categories, t, id)
    && forall other :: Eligible(rules, categories, t, other) && other != id ==> Before(RuleKeys(rules), id, other)
  }

  ghost function FirstMatch(rules: map<Id, Rule>, categories: map<Id, Category>, t: Transaction): Option<Id> {
    if exists id :: IsFirstMatch(rules, categories, t, id) then
      var id :| IsFirstMatch(rules, categories, t, id);
      Some(id)
    else
      None
  }

  lemma FirstMatchUnique(rules: map<Id, Rule>, categories: map<Id, Category>, t: Transaction, id: Id)
    requires IsFirstMatch(rules, categories, t, id)
    ensures FirstMatch(rules, categories, t) == Some(id)
  {
  }

  lemma {:induction false} LeastExists(keys: map<Id, Key>, s: set<Id>) returns (least: Id)
    requires s != {} && s <= keys.Keys
    ensures least in s && forall x :: x in s && x != least ==> Before(keys, least, x)
    decreases |s|
  {
    var x :| x in s;
    least := x;
    var others := s - {x};
    if others != {} {
      var rest := LeastExists(keys, others);
      if Before(keys, rest, x) {
        least := rest;
      }
    }
    assert forall y :: y in s && y != x ==> y in others;
  }

  /** There is a first match exactly if any rule is eligible. */
  lemma FirstMatchExists(rules: map<Id, Rule>, categories: map<Id, Category>, t: Transaction)
    ensures FirstMatch(rules, categories, t) == None <==> forall id :: !Eligible(rules, categories, t, id)
  {
    var eligible := set id | id in rules && Eligible(rules, categories, t, id);
    assert forall id :: Eligible(rules, categories, t, id) ==> id in eligible;
    if eligible != {} {
      var id := LeastExists(RuleKeys(rules), eligible);
      assert IsFirstMatch(rules, categories, t, id);
    }
  }

  // ----- the first match in plain terms -----

  /** The needle stands somewhere in the text. */
  ghost predicate StandsIn(needle: string, text: string) {
    exists before, after :: text == before + needle + after
  }

  lemma ContainsExactly(text: string, needle: string)
    ensures Contains(text, needle) <==> StandsIn(needle, text)
  {
    if Contains(text, needle) {
      var i: nat :| i <= |text| && OccursAt(text, needle, i);
      assert text == text[..i] + needle + text[i + |needle|..];
    }
    if StandsIn(needle, text) {
      var before, after :| text == before + needle + after;
      assert text[|before|..|before| + |needle|] == needle;
      assert OccursAt(text, needle, |before|);
    }
  }

  /** An income goes on an income category or one for both, an expense on an expense category or one for
      both, a refund or an adjustment on any, and a transfer on none. */
  predicate Suits(t: TxType, c: CategoryType) {
    || (t == Income && (c == IncomeOnly || c == Both))
    || (t == Expense && (c == ExpenseOnly || c == Both))
    || t == Refund || t == Adjustment
  }

  /** Every field the rule gives is that of the transaction, and every text it gives stands in its own field. */
  ghost predicate FieldsFit(r: RuleContent, t: Transaction) {
    && (r.txType == None || r.txType == Some(t.txType))
    && (r.account == None || r.account == Some(t.account))
    && (r.payee == None || r.payee == t.payee)
    && (r.counterparty == None || StandsIn(r.counterparty.value, t.counterparty))
    && (r.description == None || StandsIn(r.description.value, t.description))
  }

  /** An active rule that is not deleted, over a stored category that is not archived, which fits. */
  ghost predicate Fits(rules: map<Id, Rule>, categories: map<Id, Category>, t: Transaction, id: Id) {
    && id in rules && rules[id].content.active && !rules[id].deleted
    && var r := rules[id].content;
    && r.category in categories && !categories[r.category].archived
    && FieldsFit(r, t) && Suits(t.txType, categories[r.category].categoryType)
  }

  /** Lower priority number, or created earlier at the same priority, or of lower id if that is equal too. */
  predicate ComesFirst(rules: map<Id, Rule>, x: Id, y: Id)
    requires x in rules && y in rules
  {
    var p, q := rules[x], rules[y];
    if p.content.priority != q.content.priority then p.content.priority < q.content.priority
    else if p.createdAt != q.createdAt then p.createdAt < q.createdAt
    else x < y
  }

  lemma EligibleExactly(rules: map<Id, Rule>, categories: map<Id, Category>, t: Transaction, id: Id)
    ensures Eligible(rules, categories, t, id) <==> Fits(rules, categories, t, id)
  {
    hide StandsIn, Contains;
    if id in rules {
      var r := rules[id].content;
      if r.counterparty.Some? {
        ContainsExactly(t.counterparty, r.counterparty.value);
      }
      if r.description.Some? {
        ContainsExactly(t.description, r.description.value);
      }
    }
  }

  /** The first match is the one fitting rule that comes before every other; there is none only if no rule
      fits. */
  ghost predicate FirstToFit(rules: map<Id, Rule>, categories: map<Id, Category>, t: Transaction, found: Option<Id>) {
    match found
    case None => forall id :: !Fits(rules, categories, t, id)
    case Some(id) =>
      && Fits(rules, categories, t, id)
      && forall other :: Fits(rules, categories, t, other) && other != id ==> ComesFirst(rules, id, other)
  }

  lemma FirstMatchMeans(rules: map<Id, Rule>, categories: map<Id, Category>, t: Transaction)
    ensures FirstToFit(rules, categories, t, FirstMatch(rules, categories, t))
  {
    hide Eligible, Fits;
    FirstMatchExists(rules, categories, t);
    forall id ensures Eligible(rules, categories, t, id) <==> Fits(rules, categories, t, id) {
      EligibleExactly(rules, categories, t, id);
    }
    var found := FirstMatch(rules, categories, t);
    if found.Some? {
      forall other | Fits(rules, categories, t, other) && other != found.value
        ensures other in rules && found.value in rules && ComesFirst(rules, found.value, other)
      {
        FitsStored(rules, categories, t, other);
        FitsStored(rules, categories, t, found.value);
        assert Before(RuleKeys(rules), found.value, other);
      }
    }
  }

  lemma FitsStored(rules: map<Id, Rule>, categories: map<Id, Category>, t: Transaction, id: Id)
    requires Fits(rules, categories, t, id)
    ensures id in rules
  {
  }

  // ----- commands -----

  datatype Command =
    | Create(id: Id, content: RuleContent, now: Instant, payeeOk: bool)
    | Update(id: Id, version: nat, content: RuleContent, payeeOk: bool)
    | Delete(id: Id, version: nat)
    | Restore(id: Id, version: nat, payeeOk: bool)

  predicate HasMatcher(c: RuleContent) {
    c.txType.Some? || c.account.Some? || c.payee.Some? || c.counterparty.Some? || c.description.Some?
  }

  predicate ReferencesValid(categories: map<Id, Category>, accounts: map<Id, Account>, c: RuleContent, payeeOk: bool) {
    && c.category in categories && !categories[c.category].deleted && !categories[c.category].archived
    && (c.account.Some? ==>
          c.account.value in accounts && !accounts[c.account.value].deleted && !accounts[c.account.value].archived)
    && (c.payee.Some? ==> payeeOk)
    && (c.txType.Some? ==> Compatible(c.txType.value, categories[c.category].categoryType))
  }

  /** What can affect matching or order: everything but the name. */
  function Semantics(r: Rule): (RuleContent, bool) {
    (r.content.(name := ""), r.deleted)
  }

  predicate Accepts(rules: map<Id, Rule>, categories: map<Id, Category>, accounts: map<Id, Account>, c: Command) {
    match c
    case Create(id, content, _, payeeOk) =>
      id !in rules && HasMatcher(content) && ReferencesValid(categories, accounts, content, payeeOk)
    case Update(id, version, content, payeeOk) =>
      && id in rules && !rules[id].deleted && rules[id].version == version
      && HasMatcher(content) && ReferencesValid(categories, accounts, content, payeeOk)
    case Delete(id, version) =>
      id in rules && !rules[id].deleted && rules[id].version == version
    case Restore(id, version, payeeOk) =>
      && id in rules && rules[id].version == version && rules[id].deleted
      && ReferencesValid(categories, accounts, rules[id].content, payeeOk)
  }

  /** The row an accepted command leaves behind. */
  function NewRow(rules: map<Id, Rule>, c: Command): Rule
    requires !c.Create? ==> c.id in rules
  {
    match c
    case Create(_, content, now, _) => Rule(content, now, false, 1)
    case Update(id, _, content, _) => rules[id].(content := content, version := rules[id].version + 1)
    case Delete(id, _) => rules[id].(deleted := true, version := rules[id].version + 1)
    case Restore(id, _, _) => rules[id].(deleted := false, version := rules[id].version + 1)
  }

  predicate Bumps(rules: map<Id, Rule>, c: Command)
    requires !c.Create? ==> c.id in rules
  {
    c.Create? || Semantics(NewRow(rules, c)) != Semantics(rules[c.id])
  }

  /** What the matcher reads of the rule set: the current rules with their order and matching fields. */
  function View(rules: map<Id, Rule>): map<Id, (RuleContent, Instant)> {
    map id | id in rules && Current(rules[id]) :: (rules[id].content.(name := ""), rules[id].createdAt)
  }

  /** The matcher cannot tell two rule sets with the same view apart, provided the categories agree on
      what it reads of them. */
  lemma FirstMatchByView(rules: map<Id, Rule>, rules': map<Id, Rule>,
                         categories: map<Id, Category>, categories': map<Id, Category>, t: Transaction, id: Id)
    requires View(rules) == View(rules')
    requires forall c :: c in categories <==> c in categories'
    requires forall c :: c in categories ==>
      categories[c].archived == categories'[c].archived && categories[c].categoryType == categories'[c].categoryType
    ensures IsFirstMatch(rules, categories, t, id) <==> IsFirstMatch(rules', categories', t, id)
  {
    var v, v' := View(rules), View(rules');
    forall x
      ensures Eligible(rules, categories, t, x) <==> Eligible(rules', categories', t, x)
      ensures Eligible(rules, categories, t, x) ==>
        RuleKeys(rules)[x] == RuleKeys(rules')[x]
    {
      assert (x in rules && Current(rules[x])) <==> x in v;
      assert (x in rules' && Current(rules'[x])) <==> x in v';
      if x in v {
        assert v[x] == v'[x];
        assert rules[x].content.(name := "") == rules'[x].content.(name := "");
      }
    }
  }
}
