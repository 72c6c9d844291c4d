/** What a run of rule commands keeps, and what deleting and restoring a rule does to matching. */
module RuleRuns {
  import opened Domain
  import opened RuleSet
  import opened Executor

  function NamedVersion(c: Command): Option<nat> {
    match c
    case Create(_, _, _, _) => None
    case Update(_, version, _, _) => Some(version)
    case Delete(_, version) => Some(version)
    case Restore(_, version, _) => Some(version)
  }

  function Run(db: Db, commands: seq<Command>): Db
    decreases |commands|
  {
    if commands == [] then db else RuleStep(Run(db, commands[..|commands| - 1]), commands[|commands| - 1])
  }

  predicate AtLeast(db: Db, id: Id, version: nat) {
    id in db.rules && version <= db.rules[id].version
  }

  predicate Accepted(db: Db, c: Command) {
    Accepts(db.rules, db.categories, db.accounts, c)
  }

  lemma AcceptedRaises(db: Db, c: Command)
    requires Accepted(db, c) && NamedVersion(c).Some?
    ensures c.id in db.rules && db.rules[c.id].version == NamedVersion(c).value
    ensures AtLeast(RuleStep(db, c), c.id, NamedVersion(c).value + 1)
  {
    hide ReferencesValid, HasMatcher, Bumps;
  }

  lemma StepRaises(db: Db, c: Command, id: Id, version: nat)
    requires AtLeast(db, id, version)
    ensures AtLeast(RuleStep(db, c), id, version)
  {
    hide ReferencesValid, HasMatcher, Bumps;
  }

  lemma {:induction false} RunRaises(db: Db, commands: seq<Command>, id: Id, version: nat)
    requires AtLeast(db, id, version)
    ensures AtLeast(Run(db, commands), id, version)
    decreases |commands|
  {
    hide RuleStep, AtLeast;
    if commands != [] {
      RunRaises(db, commands[..|commands| - 1], id, version);
      StepRaises(Run(db, commands[..|commands| - 1]), commands[|commands| - 1], id, version);
    }
  }

  /** No lost update: of all commands that name one version of a rule, at most one is ever accepted. */
  lemma VersionWrittenOnce(db: Db, c: Command, commands: seq<Command>, d: Command)
    requires Accepted(db, c) && NamedVersion(c).Some? && d.id == c.id && NamedVersion(d) == NamedVersion(c)
    ensures !Accepted(Run(RuleStep(db, c), commands), d)
  {
    hide RuleStep, Accepted;
    AcceptedRaises(db, c);
    RunRaises(RuleStep(db, c), commands, c.id, NamedVersion(c).value + 1);
    if Accepted(Run(RuleStep(db, c), commands), d) {
      AcceptedRaises(Run(RuleStep(db, c), commands), d);
    }
  }

  /** A deleted rule fits nothing, and every other rule fits what it fitted before. */
  lemma DeletedFitsNothing(db: Db, id: Id, version: nat, t: Transaction, x: Id)
    requires Accepted(db, Delete(id, version))
    ensures var rules := RuleStep(db, Delete(id, version)).rules;
      Fits(rules, db.categories, t, x) <==> x != id && Fits(db.rules, db.categories, t, x)
  {
    hide FieldsFit;
  }

  /** Restoring a deleted rule is accepted exactly while what it refers to can be used, and gives it back two
      versions later; the revision has moved twice, so that no proposal made before survives. */
  lemma RestoreUndoesDelete(db: Db, id: Id, version: nat, payeeOk: bool)
    requires Accepted(db, Delete(id, version))
    ensures var gone := RuleStep(db, Delete(id, version));
      var rule := db.rules[id];
      var back := RuleStep(gone, Restore(id, version + 1, payeeOk));
      && Accepted(gone, Restore(id, version + 1, payeeOk)) == ReferencesValid(db.categories, db.accounts, rule.content, payeeOk)
      && (ReferencesValid(db.categories, db.accounts, rule.content, payeeOk) ==>
            && back.rules == db.rules[id := rule.(version := version + 2)] && back.ruleSet == db.ruleSet + 2)
  {
    hide ReferencesValid;
  }

  /** An accepted update shows the new content, keeps place and creation time, and moves the revision exactly
      if anything but the name changed. */
  lemma UpdateShows(db: Db, id: Id, version: nat, content: RuleContent, payeeOk: bool)
    requires Accepted(db, Update(id, version, content, payeeOk))
    ensures var db', before := RuleStep(db, Update(id, version, content, payeeOk)), db.rules[id];
      && db'.rules == db.rules[id := Rule(content, before.createdAt, false, version + 1)]
      && db'.ruleSet == db.ruleSet + (if content.(name := before.content.name) == before.content then 0 else 1)
  {
    hide ReferencesValid, HasMatcher;
  }

  // ----- when a command is accepted -----

  /** The content refers to a live, unarchived category that suits the type it asks for, to a live, unarchived
      account if to any, and asks for something besides. */
  predicate ContentUsable(db: Db, c: RuleContent, payeeOk: bool) {
    && c.category in db.categories
    && !db.categories[c.category].deleted && !db.categories[c.category].archived
    && (c.txType.Some? ==> Suits(c.txType.value, db.categories[c.category].categoryType))
    && (c.account.Some? ==>
          c.account.value in db.accounts
          && !db.accounts[c.account.value].deleted && !db.accounts[c.account.value].archived)
    && (c.payee.Some? ==> payeeOk)
  }

  predicate AsksSomething(c: RuleContent) {
    c.txType != None || c.account != None || c.payee != None || c.counterparty != None || c.description != None
  }

  /** The rule commands by the rows alone; the references of a restored rule are checked again. */
  predicate CommandDue(db: Db, c: Command) {
    match c
    case Create(id, content, _, ok) => id !in db.rules && AsksSomething(content) && ContentUsable(db, content, ok)
    case Update(id, version, content, ok) =>
      && id in db.rules && !db.rules[id].deleted && db.rules[id].version == version
      && AsksSomething(content) && ContentUsable(db, content, ok)
    case Delete(id, version) => id in db.rules && !db.rules[id].deleted && db.rules[id].version == version
    case Restore(id, version, ok) =>
      && id in db.rules && db.rules[id].deleted && db.rules[id].version == version
      && ContentUsable(db, db.rules[id].content, ok)
  }

  lemma AcceptedExactly(db: Db, c: Command)
    ensures Accepted(db, c) <==> CommandDue(db, c)
  {
  }
}
