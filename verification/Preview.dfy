/** Persisted previews: how a transaction is classified, and the canonical form of an apply request. */
module Preview {
  import opened Domain
  import opened RuleSet
  import opened Executor

  datatype PreviewStatus =
    | PreviewNotFound | PreviewTransfer | PreviewCategorized | PreviewSplit | PreviewReconciled
    | PreviewClosed | PreviewMatched | PreviewNoMatch

  datatype Proposal = Proposal(rule: Id, ruleVersion: nat, category: Id, categoryVersion: nat)

  datatype Item = Item(tx: Id, txVersion: Option<nat>, status: PreviewStatus, proposal: Option<Proposal>)

  /** A preview and its items are immutable once committed. */
  datatype PreviewRow = PreviewRow(ruleSet: nat, expiresAt: Instant, items: map<Id, Item>)

  /** The fixed precedence of `_classify`; `matched` carries the first valid match. */
  ghost function Classify(db: Db, t: Transaction): (r: (PreviewStatus, Option<Id>))
    ensures r.0 == PreviewMatched <==> r.1.Some?
    ensures r.0 == PreviewMatched ==>
      && Untouched(t) && !Closed(db.closedBefore, t.occurredAt)
      && IsFirstMatch(db.rules, db.categories, t, r.1.value)
  {
    if t.txType == Transfer then (PreviewTransfer, None)
    else if t.category.Some? then (PreviewCategorized, None)
    else if t.splits != [] then (PreviewSplit, None)
    else if t.status == Reconciled then (PreviewReconciled, None)
    else if Closed(db.closedBefore, t.occurredAt) then (PreviewClosed, None)
    else
      var first := FirstMatch(db.rules, db.categories, t);
      if first == None then (PreviewNoMatch, None) else (PreviewMatched, first)
  }

  ghost function MakeItem(db: Db, tx: Id): Item {
    if tx !in db.txs || db.txs[tx].deleted then
      Item(tx, None, PreviewNotFound, None)
    else
      var (status, match') := Classify(db, db.txs[tx]);
      Item(tx, Some(db.txs[tx].version), status,
           if match' == None then None else
             var rule := db.rules[match'.value];
             Some(Proposal(match'.value, rule.version, rule.content.category,
                           db.categories[rule.content.category].version)))
  }

  /** The expectation a bulk apply carries for a matched item. */
  function Expect(item: Item, ruleSet: nat): Expectation
    requires item.proposal.Some? && item.txVersion.Some?
  {
    var p := item.proposal.value;
    Expectation(item.tx, item.txVersion.value, p.rule, p.ruleVersion, p.category, Some(p.categoryVersion),
                Some(ruleSet))
  }

  /** Nothing the proposal rests on has moved: the rule-set revision and with it the matching fields, the
      proposed rule's version, the transaction, what the matcher reads of the categories, the target
      category's row, and the closed period. */
  ghost predicate SameEvidence(db: Db, db': Db, item: Item)
    requires item.proposal.Some?
  {
    && db'.ruleSet == db.ruleSet
    && View(db'.rules) == View(db.rules)
    && item.proposal.value.rule in db'.rules
    && db'.rules[item.proposal.value.rule].version == item.proposal.value.ruleVersion
    && item.tx in db.txs && item.tx in db'.txs && db'.txs[item.tx] == db.txs[item.tx]
    && db'.categories.Keys == db.categories.Keys
    && (forall c :: c in db.categories ==>
          && db'.categories[c].archived == db.categories[c].archived
          && db'.categories[c].categoryType == db.categories[c].categoryType)
    && Lookup(db'.categories, Some(item.proposal.value.category))
       == Lookup(db.categories, Some(item.proposal.value.category))
    && db'.closedBefore == db.closedBefore
  }

  /** Preview to apply is complete: an item previewed as matched is applied under the same evidence
      exactly when its category is not deleted and the transaction service accepts the write. */
  lemma MatchedIsApplied(db: Db, db': Db, tx: Id)
    requires MakeItem(db, tx).status == PreviewMatched
    requires SameEvidence(db, db', MakeItem(db, tx))
    ensures
      var item := MakeItem(db, tx);
      var outcome := Decide(db', db'.categories, Expect(item, db.ruleSet));
      (outcome.Terminal? && outcome.status == Applied)
        <==> !db.categories[item.proposal.value.category].deleted && WriteValid(db', tx)
  {
    var item := MakeItem(db, tx);
    var p := item.proposal.value;
    var t := db.txs[tx];
    assert IsFirstMatch(db.rules, db.categories, t, p.rule);
    FirstMatchByView(db.rules, db'.rules, db.categories, db'.categories, t, p.rule);
    assert View(db.rules)[p.rule] == View(db'.rules)[p.rule];
    ExecutorSound(db', db'.categories, Expect(item, db.ruleSet));
  }

  /** The statuses of a preview that describe the transaction itself, and the outcome that says the same. */
  function SameReason(s: PreviewStatus): Option<ApplyStatus> {
    match s
    case PreviewNotFound => Some(NotFound)
    case PreviewTransfer => Some(IsTransfer)
    case PreviewCategorized => Some(AlreadyCategorized)
    case PreviewSplit => Some(HasSplits)
    case PreviewReconciled => Some(IsReconciled)
    case _ => None
  }

  /** Preview and executor look at a transaction in the same order: where the preview says that the
      transaction itself is in the way, the executor gives the same reason to any proposal for it. */
  lemma GuardsAgree(db: Db, seen: map<Id, Category>, e: Expectation)
    requires SameReason(MakeItem(db, e.tx).status).Some?
    requires MakeItem(db, e.tx).txVersion.Some? ==> MakeItem(db, e.tx).txVersion.value == e.txVersion
    ensures Decide(db, seen, e) == Terminal(SameReason(MakeItem(db, e.tx).status).value, None, None)
  {
    if e.tx in db.txs && !db.txs[e.tx].deleted {
      assert MakeItem(db, e.tx).status == Classify(db, db.txs[e.tx]).0;
    }
  }

  // ----- the canonical request -----

  predicate StrictlySorted(s: seq<Id>) {
    forall i, j :: 0 <= i < j < |s| ==> s[i] < s[j]
  }

  function Insert(x: Id, s: seq<Id>): seq<Id> {
    if s == [] || x <= s[0] then [x] + s else [s[0]] + Insert(x, s[1..])
  }

  /** `sorted(item_ids, key=str)`: the text order of canonical UUIDs is the order of their integers. */
  function Canonical(items: seq<Id>): seq<Id> {
    if items == [] then [] else Insert(items[0], Canonical(items[1..]))
  }

  lemma {:induction false} InsertSorted(x: Id, s: seq<Id>)
    requires StrictlySorted(s) && x !in s
    ensures StrictlySorted(Insert(x, s)) && |Insert(x, s)| == |s| + 1
    ensures forall y :: y in Insert(x, s) <==> y == x || y in s
  {
    if s != [] && x > s[0] {
      InsertSorted(x, s[1..]);
      var r := Insert(x, s[1..]);
      assert s == [s[0]] + s[1..];
      forall k | 0 <= k < |r| ensures s[0] < r[k] {
        assert r[k] in r;
        assert r[k] == x || r[k] in s[1..];
      }
    }
  }

  lemma {:induction false} CanonicalSorted(items: seq<Id>)
    requires Distinct(items)
    ensures StrictlySorted(Canonical(items)) && |Canonical(items)| == |items|
    ensures forall y :: y in Canonical(items) <==> y in items
  {
    if items != [] {
      CanonicalSorted(items[1..]);
      InsertSorted(items[0], Canonical(items[1..]));
      assert items == [items[0]] + items[1..];
    }
  }

  lemma {:induction false} SortedUnique(s: seq<Id>, t: seq<Id>)
    requires StrictlySorted(s) && StrictlySorted(t)
    requires forall y :: y in s <==> y in t
    ensures s == t
  {
    var y := if t == [] then 0 else t[0];
    assert y in t <==> t != [];
    if s != [] {
      assert s[0] in t;
      assert t[0] in s;
      assert s[0] == t[0];
      assert forall y :: y in s[1..] <==> y in s && y != s[0];
      assert forall y :: y in t[1..] <==> y in t && y != t[0];
      SortedUnique(s[1..], t[1..]);
      assert s == [s[0]] + s[1..] && t == [t[0]] + t[1..];
    }
  }

  /** Two requests are the same logical request exactly when they name the same set of items: the hash
      ignores the submitted order and nothing else. */
  lemma CanonicalIdentity(items: seq<Id>, items': seq<Id>)
    requires Distinct(items) && Distinct(items')
    ensures Canonical(items) == Canonical(items') <==> (forall y :: y in items <==> y in items')
  {
    CanonicalSorted(items);
    CanonicalSorted(items');
    if forall y :: y in items <==> y in items' {
      SortedUnique(Canonical(items), Canonical(items'));
    }
  }
}
