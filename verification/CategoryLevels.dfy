/** What every run of category commands keeps besides acyclicity: one name per level, no lost update; and
    restoring undoes a deletion. */
module CategoryLevels {
  import opened Domain
  import opened CategoryForest

  /** No two live categories below the same parent, or at the top, share a name. */
  ghost predicate UniqueLevels(t: Table) {
    forall x, y :: Live(t, x) && Live(t, y) && x != y ==> t[x].parent != t[y].parent || t[x].name != t[y].name
  }

  lemma PlacedLevel(t: Table, c: Id, row: Category)
    requires UniqueLevels(t) && (!row.deleted ==> !LevelTaken(t, row.parent, row.name, Some(c)))
    ensures UniqueLevels(t[c := row])
  {
    var u := t[c := row];
    forall x, y | Live(u, x) && Live(u, y) && x != y ensures u[x].parent != u[y].parent || u[x].name != u[y].name {
      assert x != c ==> Live(t, x);
      assert y != c ==> Live(t, y);
    }
  }

  lemma StepKeepsLevels(t: Table, d: Command)
    requires UniqueLevels(t)
    ensures UniqueLevels(Step(t, d))
  {
    hide UniqueLevels, ParentAllowed;
    if Accepts(t, d) {
      PlacedLevel(t, d.c, After(t, d));
    }
  }

  /** Over every run, restores included, a name occurs once per level. */
  lemma {:induction false} RunKeepsLevels(t: Table, commands: seq<Command>)
    requires UniqueLevels(t)
    ensures UniqueLevels(Run(t, commands))
    decreases |commands|
  {
    hide UniqueLevels, Step;
    if commands != [] {
      RunKeepsLevels(t, commands[..|commands| - 1]);
      StepKeepsLevels(Run(t, commands[..|commands| - 1]), commands[|commands| - 1]);
    }
  }

  /** The version a command names for its row. */
  function NamedVersion(d: Command): Option<nat> {
    match d
    case Create(_, _) => None
    case Update(_, version, _) => Some(version)
    case Delete(_, version) => Some(version)
    case Restore(_, version) => Some(version)
  }

  predicate AtLeast(t: Table, c: Id, version: nat) {
    c in t && version <= t[c].version
  }

  lemma AcceptedRaises(t: Table, d: Command)
    requires Accepts(t, d) && NamedVersion(d).Some?
    ensures d.c in t && t[d.c].version == NamedVersion(d).value
    ensures d.c in Step(t, d) && Step(t, d)[d.c].version == NamedVersion(d).value + 1
  {
    hide ParentAllowed, LevelTaken;
  }

  lemma StepRaises(t: Table, d: Command, c: Id, version: nat)
    requires AtLeast(t, c, version)
    ensures AtLeast(Step(t, d), c, version)
  {
    hide ParentAllowed, LevelTaken;
  }

  lemma {:induction false} RunRaises(t: Table, commands: seq<Command>, c: Id, version: nat)
    requires AtLeast(t, c, version)
    ensures AtLeast(Run(t, commands), c, version)
    decreases |commands|
  {
    hide Step, AtLeast;
    if commands != [] {
      RunRaises(t, commands[..|commands| - 1], c, version);
      StepRaises(Run(t, commands[..|commands| - 1]), commands[|commands| - 1], c, version);
    }
  }

  /** No lost update: of all commands that name one version of a category, at most one is ever accepted. */
  lemma VersionWrittenOnce(t: Table, d: Command, commands: seq<Command>, e: Command)
    requires Accepts(t, d) && NamedVersion(d).Some? && e.c == d.c && NamedVersion(e) == NamedVersion(d)
    ensures !Accepts(Run(Step(t, d), commands), e)
  {
    hide Step, Accepts;
    AcceptedRaises(t, d);
    RunRaises(Step(t, d), commands, d.c, NamedVersion(d).value + 1);
    if Accepts(Run(Step(t, d), commands), e) {
      AcceptedRaises(Run(Step(t, d), commands), e);
    }
  }

  /** Restoring right after a delete is always accepted and gives the category back as it was, two versions
      later. */
  lemma RestoreUndoesDelete(t: Table, c: Id, version: nat)
    requires UniqueLevels(t) && Accepts(t, Delete(c, version))
    ensures var u := Step(t, Delete(c, version));
      && !Live(u, c) && Accepts(u, Restore(c, version + 1))
      && Step(u, Restore(c, version + 1)) == t[c := t[c].(version := version + 2)]
  {
    var u := Step(t, Delete(c, version));
    forall x | Live(u, x) && x != c ensures u[x].parent != t[c].parent || u[x].name != t[c].name {
      assert Live(t, x) && Live(t, c);
    }
  }

  // ----- when a command is accepted -----

  /** No other live category below the same parent has the name. */
  predicate NameFree(t: Table, c: Id, parent: Option<Id>, name: string) {
    forall x :: x in t && x != c && !t[x].deleted && t[x].parent == parent ==> t[x].name != name
  }

  /** Top level, or below a stored live category. */
  predicate ParentLive(t: Table, parent: Option<Id>) {
    parent.Some? ==> parent.value in t && !t[parent.value].deleted
  }

  /** The way up from `p` does not come to `c`. */
  ghost predicate NeverAbove(t: Table, p: Id, c: Id) {
    forall n: nat :: Climb(t, p, n) != Some(c)
  }

  /** A move needs a live parent that is not the category itself and does not lie below it. */
  ghost predicate CommandDue(t: Table, d: Command) {
    match d
    case Create(c, row) => c !in t && ParentLive(t, row.parent) && NameFree(t, c, row.parent, row.name)
    case Update(c, version, row) =>
      && c in t && !t[c].deleted && t[c].version == version && ParentLive(t, row.parent)
      && (row.parent.Some? ==> NeverAbove(t, row.parent.value, c))
      && NameFree(t, c, row.parent, row.name)
    case Delete(c, version) => c in t && !t[c].deleted && t[c].version == version
    case Restore(c, version) =>
      c in t && t[c].deleted && t[c].version == version && NameFree(t, c, t[c].parent, t[c].name)
  }

  /** In an acyclic tree the category commands are accepted by the rows alone. */
  lemma AcceptedExactly(t: Table, d: Command)
    requires Acyclic(t)
    ensures Accepts(t, d) <==> CommandDue(t, d)
  {
    hide Acyclic, ParentAllowed, LevelTaken, NameFree, ParentLive, NeverAbove;
    match d
    case Create(c, row) =>
      ParentMeans(t, row.parent, c);
      LevelMeans(t, c, row.parent, row.name);
    case Update(c, _, row) =>
      ParentMeans(t, row.parent, c);
      LevelMeans(t, c, row.parent, row.name);
    case Delete(_, _) =>
    case Restore(c, _) =>
      if c in t {
        LevelMeans(t, c, t[c].parent, t[c].name);
      }
  }

  lemma LevelMeans(t: Table, c: Id, parent: Option<Id>, name: string)
    ensures !LevelTaken(t, parent, name, Some(c)) <==> NameFree(t, c, parent, name)
    ensures c !in t ==> LevelTaken(t, parent, name, Some(c)) == LevelTaken(t, parent, name, None)
  {
  }

  lemma ParentMeans(t: Table, parent: Option<Id>, c: Id)
    requires Acyclic(t)
    ensures ParentAllowed(t, parent, None) <==> ParentLive(t, parent)
    ensures Live(t, c) ==> (ParentAllowed(t, parent, Some(c)) <==>
      ParentLive(t, parent) && (parent.Some? ==> NeverAbove(t, parent.value, c)))
  {
    hide Acyclic, Climb, Ends;
    if parent.Some? && Live(t, parent.value) {
      Walkable(t, parent.value);
      if Live(t, c) {
        ClearMeans(t, parent.value, c);
      }
    }
  }

  lemma ClearMeans(t: Table, p: Id, c: Id)
    requires Live(t, p) && Live(t, c)
    ensures p != c && ClearOf(t, p, c) <==> NeverAbove(t, p, c)
  {
    if p != c && ClearOf(t, p, c) {
      forall n: nat ensures Climb(t, p, n) != Some(c) {
        NotReached(t, p, c, n);
      }
    }
    if NeverAbove(t, p, c) {
      assert Climb(t, p, 0) == Some(p);
      forall n: nat ensures Climb(t, p, n).Some? ==> Climb(t, p, n).value in t && t[Climb(t, p, n).value].parent != Some(c) {
        var next := n + 1;
        assert Climb(t, p, next) != Some(c);
        NotAbove(t, p, c, n);
      }
    }
  }

  lemma NotAbove(t: Table, p: Id, c: Id, n: nat)
    requires Live(t, c) && Climb(t, p, n + 1) != Some(c)
    ensures Climb(t, p, n).Some? ==> Climb(t, p, n).value in t && t[Climb(t, p, n).value].parent != Some(c)
  {
    if Climb(t, p, n).Some? {
      ClimbLive(t, p, n);
    }
  }

  lemma NotReached(t: Table, p: Id, c: Id, n: nat)
    requires p != c && ClearOf(t, p, c)
    ensures Climb(t, p, n) != Some(c)
  {
    if n > 0 && Climb(t, p, n - 1).Some? {
      ClimbLive(t, p, n - 1);
    }
  }
}
