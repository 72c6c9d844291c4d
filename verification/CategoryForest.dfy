/** The category hierarchy: parent pointers of live categories, the check that guards them, and what each
    command does to acyclicity. */
module CategoryForest {
  import opened Domain

  type Table = map<Id, Category>

  predicate Live(t: Table, c: Id) {
    c in t && !t[c].deleted
  }

  /** The live parent of a live category. */
  function Up(t: Table, c: Id): Option<Id> {
    if Live(t, c) && t[c].parent.Some? && Live(t, t[c].parent.value) then t[c].parent else None
  }

  /** The n-th ancestor of a live category. */
  function Climb(t: Table, c: Id, n: nat): Option<Id> {
    if !Live(t, c) then None
    else if n == 0 then Some(c)
    else
      var below := Climb(t, c, n - 1);
      if below == None then None else Up(t, below.value)
  }

  ghost predicate Acyclic(t: Table) {
    forall c: Id, n: nat :: n > 0 ==> Climb(t, c, n) != Some(c)
  }

  /** No category on the way up from `p` points at `c`, whether `c` is live or not. */
  ghost predicate ClearOf(t: Table, p: Id, c: Id) {
    forall n: nat :: Climb(t, p, n).Some? ==> t[Climb(t, p, n).value].parent != Some(c)
  }

  ghost predicate Ends(t: Table, p: Id) {
    exists n: nat :: Climb(t, p, n) == None
  }

  /** What `_validate_parent` accepts. */
  ghost predicate ParentAllowed(t: Table, parent: Option<Id>, c: Option<Id>) {
    parent == None ||
    (Live(t, parent.value) && parent != c && (c.Some? ==> ClearOf(t, parent.value, c.value)) && Ends(t, parent.value))
  }

  // ----- walking -----

  lemma {:induction false} ClimbAdd(t: Table, c: Id, m: nat, n: nat)
    requires Climb(t, c, m).Some?
    ensures Climb(t, c, m + n) == Climb(t, Climb(t, c, m).value, n)
  {
    if n == 0 {
      ClimbLive(t, c, m);
    } else {
      ClimbAdd(t, c, m, n - 1);
      ClimbLive(t, c, m);
    }
  }

  lemma {:induction false} ClimbLive(t: Table, c: Id, n: nat)
    requires Climb(t, c, n).Some?
    ensures Live(t, Climb(t, c, n).value)
    ensures forall m: nat :: m <= n ==> Climb(t, c, m).Some?
  {
    if n > 0 {
      ClimbLive(t, c, n - 1);
    }
  }

  /** After `n` steps the walk stands on `current`, has visited what lies below, and none of that points at
      `c`. */
  ghost predicate WalkAt(t: Table, p: Id, c: Option<Id>, n: nat, current: Id, visited: set<Id>) {
    && Climb(t, p, n) == Some(current)
    && visited <= t.Keys
    && (forall x :: x in visited <==> exists m: nat :: Visits(t, p, n, m, x))
    && (forall m: nat :: m < n ==> Passed(t, p, c, m))
  }

  ghost predicate Visits(t: Table, p: Id, n: nat, m: nat, x: Id) {
    m < n && Climb(t, p, m) == Some(x)
  }

  /** The m-th category on the way up does not point at `c`. */
  ghost predicate Passed(t: Table, p: Id, c: Option<Id>, m: nat) {
    Climb(t, p, m).Some? && (c.Some? ==> t[Climb(t, p, m).value].parent != c)
  }

  lemma ClimbNext(t: Table, c: Id, n: nat)
    requires Climb(t, c, n).Some?
    ensures Live(t, Climb(t, c, n).value) && Climb(t, c, n + 1) == Up(t, Climb(t, c, n).value)
  {
    ClimbLive(t, c, n);
  }

  lemma WalkStep(t: Table, p: Id, c: Option<Id>, n: nat, current: Id, visited: set<Id>)
    requires Live(t, current) && WalkAt(t, p, c, n, current, visited)
    requires t[current].parent.Some? && t[current].parent != c
    ensures Climb(t, p, n + 1) == Up(t, current)
    ensures Up(t, current).Some? ==> WalkAt(t, p, c, n + 1, Up(t, current).value, visited + {current})
    ensures Up(t, current) == None ==> Ends(t, p) && (c.Some? ==> ClearOf(t, p, c.value))
  {
    hide Climb;
    ClimbNext(t, p, n);
    assert Passed(t, p, c, n);
    if Up(t, current) == None {
      WalkEnded(t, p, n + 1, c);
    } else {
      VisitsMore(t, p, n, n + 1, current, visited);
    }
  }

  lemma VisitsMore(t: Table, p: Id, n: nat, n': nat, current: Id, visited: set<Id>)
    requires n' == n + 1 && Climb(t, p, n) == Some(current)
    requires forall x :: x in visited <==> exists m: nat :: Visits(t, p, n, m, x)
    ensures forall x :: x in visited + {current} <==> exists m: nat :: Visits(t, p, n', m, x)
  {
    hide Climb;
    forall x ensures x in visited + {current} <==> exists m: nat :: Visits(t, p, n', m, x) {
      if x in visited {
        var m: nat :| Visits(t, p, n, m, x);
        assert Visits(t, p, n', m, x);
      }
      assert x == current ==> Visits(t, p, n', n, x);
      if exists m: nat :: Visits(t, p, n', m, x) {
        var m: nat :| Visits(t, p, n', m, x);
        assert m < n ==> Visits(t, p, n, m, x);
      }
    }
  }

  lemma WalkBlocked(t: Table, p: Id, c: Option<Id>, n: nat, current: Id, visited: set<Id>)
    requires Live(t, current) && WalkAt(t, p, c, n, current, visited) && t[current].parent.Some?
    requires current in visited || t[current].parent == c
    ensures !ParentAllowed(t, Some(p), c)
  {
    if current in visited {
      var m: nat :| Visits(t, p, n, m, current);
      NeverEnds(t, p, m, n);
    } else {
      assert Climb(t, p, n).Some?;
    }
  }

  /** The walk up from the new parent as the source takes it. It stops on every parent map, acyclic or not,
      because it never visits a category twice. */
  method ValidateParent(t: Table, parent: Option<Id>, c: Option<Id>) returns (ok: bool)
    ensures ok <==> ParentAllowed(t, parent, c)
  {
    hide WalkAt, ClearOf, Ends, Climb;
    if parent == None {
      return true;
    }
    if c == parent {
      return false;
    }
    if parent.value !in t || t[parent.value].deleted {
      return false;
    }
    var current := parent.value;
    var visited: set<Id> := {};
    ghost var n: nat := 0;
    WalkBegins(t, parent.value, c);
    while t[current].parent.Some?
      invariant Live(t, current) && visited <= t.Keys && WalkAt(t, parent.value, c, n, current, visited)
      decreases |t.Keys - visited|
    {
      if current in visited || t[current].parent == c {
        WalkBlocked(t, parent.value, c, n, current, visited);
        return false;
      }
      WalkStep(t, parent.value, c, n, current, visited);
      visited := visited + {current};
      var above := t[current].parent.value;
      if above !in t || t[above].deleted {
        return true;
      }
      current := above;
      n := n + 1;
    }
    RootReached(t, parent.value, c, n, current, visited);
    return true;
  }

  lemma WalkBegins(t: Table, p: Id, c: Option<Id>)
    requires Live(t, p)
    ensures WalkAt(t, p, c, 0, p, {})
  {
  }

  lemma RootReached(t: Table, p: Id, c: Option<Id>, n: nat, current: Id, visited: set<Id>)
    requires Live(t, current) && WalkAt(t, p, c, n, current, visited) && t[current].parent == None
    ensures Ends(t, p) && (c.Some? ==> ClearOf(t, p, c.value))
  {
    hide Climb;
    ClimbNext(t, p, n);
    assert Passed(t, p, c, n);
    WalkEnded(t, p, n + 1, c);
  }

  /** A walk that has come back to where it was never ends. */
  lemma NeverEnds(t: Table, p: Id, m: nat, n: nat)
    requires m < n && Climb(t, p, m).Some? && Climb(t, p, m) == Climb(t, p, n)
    ensures !Ends(t, p)
  {
    forall k: nat ensures Climb(t, p, k).Some? {
      StillWalking(t, p, m, n, k);
    }
  }

  lemma {:induction false} StillWalking(t: Table, p: Id, m: nat, n: nat, k: nat)
    requires m < n && Climb(t, p, m).Some? && Climb(t, p, m) == Climb(t, p, n)
    ensures Climb(t, p, k).Some?
    decreases k
  {
    if k <= n {
      ClimbLive(t, p, n);
    } else {
      StillWalking(t, p, m, n, m + (k - n));
      ClimbAdd(t, p, m, k - n);
      ClimbAdd(t, p, n, k - n);
    }
  }

  lemma WalkEnded(t: Table, p: Id, n: nat, c: Option<Id>)
    requires n > 0 && Climb(t, p, n - 1).Some? && Climb(t, p, n) == None
    requires forall m: nat :: m < n ==> Passed(t, p, c, m)
    ensures Ends(t, p) && (c.Some? ==> ClearOf(t, p, c.value))
  {
    hide Climb;
    forall k: nat | Climb(t, p, k).Some? ensures k < n && Passed(t, p, c, k) {
      if k >= n {
        ClimbLive(t, p, k);
      }
    }
  }

  // ----- one row changes -----

  /** The tables agree on everything but row `c`. */
  ghost predicate AgreeBut(t: Table, u: Table, c: Id) {
    forall x :: x != c ==> (x in t <==> x in u) && (x in t ==> t[x] == u[x])
  }

  /** Two tables that only differ in the parent of a live `c` agree on every walk up to `c`. */
  lemma {:induction false} Follow(t: Table, u: Table, p: Id, c: Id, n: nat) returns (k: nat)
    requires AgreeBut(t, u, c) && Live(t, c) && Live(u, c)
    ensures Climb(t, p, n) == Climb(u, p, n) || Climb(t, p, k) == Climb(u, p, k) == Some(c)
  {
    k := n;
    if n > 0 {
      k := Follow(t, u, p, c, n - 1);
      if Climb(t, p, n - 1) == Climb(u, p, n - 1) == Some(c) {
        k := n - 1;
      }
    }
  }

  lemma {:induction false} LiveStart(t: Table, c: Id, n: nat)
    requires Climb(t, c, n).Some?
    ensures Live(t, c)
  {
    if n > 0 {
      LiveStart(t, c, n - 1);
    }
  }

  lemma ClimbOne(t: Table, c: Id)
    ensures Climb(t, c, 1) == Up(t, c)
    ensures Climb(t, c, 0) == if Live(t, c) then Some(c) else None
  {
    assert Live(t, c) ==> Climb(t, c, 0) == Some(c);
  }

  /** Giving a root `c` of an acyclic forest the parent `p` closes a cycle exactly if `p` leads up to `c`. */
  lemma AddEdge(t: Table, u: Table, c: Id, p: Id)
    requires Acyclic(t) && AgreeBut(t, u, c) && Live(t, c) && Live(u, c)
    requires t[c].parent == None && u[c].parent == Some(p)
    ensures Acyclic(u) <==> forall n: nat :: Climb(t, p, n) != Some(c)
  {
    if n: nat :| Climb(t, p, n) == Some(c) {
      EdgeCloses(t, u, c, p, n);
    } else {
      forall x: Id, n: nat | n > 0 ensures Climb(u, x, n) != Some(x) {
        if Climb(u, x, n) == Some(x) {
          CycleMeetsEdge(t, u, c, p, x, n);
        }
      }
    }
  }

  lemma EdgeCloses(t: Table, u: Table, c: Id, p: Id, n: nat)
    requires AgreeBut(t, u, c) && Live(t, c) && Live(u, c) && u[c].parent == Some(p)
    requires Climb(t, p, n) == Some(c)
    ensures !Acyclic(u)
  {
    var k := Follow(t, u, p, c, n);
    if Climb(t, p, n) == Climb(u, p, n) {
      k := n;
    }
    LiveStart(u, p, k);
    ClimbOne(u, c);
    ClimbAdd(u, c, 1, k);
  }

  lemma CycleMeetsEdge(t: Table, u: Table, c: Id, p: Id, x: Id, n: nat)
    requires Acyclic(t) && AgreeBut(t, u, c) && Live(t, c) && Live(u, c)
    requires t[c].parent == None && u[c].parent == Some(p)
    requires n > 0 && Climb(u, x, n) == Some(x)
    ensures exists k: nat :: Climb(t, p, k) == Some(c)
  {
    hide Climb;
    var k := Follow(t, u, x, c, n);
    assert Climb(t, x, n) != Some(x);
    hide Acyclic;
    Rotate(u, x, c, n, k);
    ClimbAdd(u, c, 1, n - 1);
    var j := Follow(t, u, p, c, n - 1);
    assert Climb(t, p, n - 1) == Some(c) || Climb(t, p, j) == Some(c);
  }

  /** A cycle through `x` that meets `c` is a cycle through `c`, and leaves `c` by its parent. */
  lemma Rotate(u: Table, x: Id, c: Id, n: nat, k: nat)
    requires n > 0 && Climb(u, x, n) == Some(x) && Climb(u, x, k) == Some(c)
    ensures Climb(u, c, n) == Some(c)
    ensures c in u && u[c].parent.Some? && Climb(u, c, 1) == u[c].parent
  {
    hide Climb;
    ClimbAdd(u, x, k, n);
    ClimbAdd(u, x, n, k);
    assert Climb(u, x, k + n) == Climb(u, x, n + k);
    ClimbLive(u, c, n);
    ClimbOne(u, c);
  }

  /** Detaching `c`, and bringing it to life if need be, closes no cycle. */
  lemma Detached(t: Table, u: Table, c: Id)
    requires Acyclic(t) && AgreeBut(t, u, c) && Live(u, c) && u[c].parent == None
    ensures Acyclic(u)
  {
    forall x: Id, n: nat | n > 0 ensures Climb(u, x, n) != Some(x) {
      if Climb(u, x, n) == Some(x) {
        if m: nat :| m <= n && Climb(u, x, m) == Some(c) {
          RootEnds(u, x, c, m, n);
          assert x == c;
          assert Climb(u, c, 1) == None;
          ClimbLive(u, c, n);
        } else {
          Elsewhere(t, u, x, c, n);
        }
      }
    }
  }

  lemma RootEnds(u: Table, x: Id, c: Id, m: nat, n: nat)
    requires Live(u, c) && u[c].parent == None && m <= n && Climb(u, x, m) == Some(c) && Climb(u, x, n) == Some(x)
    ensures x == c
  {
    assert Climb(u, x, m + 1) == None;
    ClimbLive(u, x, n);
  }

  lemma {:induction false} Elsewhere(t: Table, u: Table, x: Id, c: Id, n: nat)
    requires AgreeBut(t, u, c) && forall m: nat :: m <= n ==> Climb(u, x, m) != Some(c)
    requires Climb(u, x, n).Some?
    ensures Climb(t, x, n) == Climb(u, x, n)
  {
    ClimbLive(u, x, n);
    assert Climb(u, x, 0) == Some(x);
    if n > 0 {
      Elsewhere(t, u, x, c, n - 1);
    }
  }

  // ----- the parent check says the same -----

  /** Walks clear of `c` are the same whatever row `c` holds, and never arrive there. */
  lemma {:induction false} Avoids(t: Table, u: Table, p: Id, c: Id, n: nat)
    requires AgreeBut(t, u, c) && ClearOf(t, p, c) && p != c
    ensures Climb(u, p, n) == Climb(t, p, n) && Climb(u, p, n) != Some(c)
  {
    if n > 0 {
      Avoids(t, u, p, c, n - 1);
    }
  }

  lemma {:induction false} Arrives(t: Table, u: Table, p: Id, c: Id, n: nat)
    requires AgreeBut(t, u, c) && Live(u, c) && p != c
    requires Climb(t, p, n).Some? && t[Climb(t, p, n).value].parent == Some(c)
    ensures exists k: nat :: Climb(u, p, k) == Some(c)
    decreases n
  {
    if m: nat :| m < n && Climb(t, p, m).Some? && t[Climb(t, p, m).value].parent == Some(c) {
      Arrives(t, u, p, c, m);
    } else {
      Untouched(t, u, p, c, n);
      var y := Climb(t, p, n).value;
      ClimbLive(u, p, n);
      assert Climb(u, p, n + 1) == Some(c);
    }
  }

  lemma {:induction false} Untouched(t: Table, u: Table, p: Id, c: Id, n: nat)
    requires AgreeBut(t, u, c) && p != c && Climb(t, p, n).Some?
    requires forall m: nat :: m < n && Climb(t, p, m).Some? ==> t[Climb(t, p, m).value].parent != Some(c)
    ensures Climb(u, p, n) == Climb(t, p, n) && Climb(t, p, n) != Some(c)
  {
    ClimbLive(t, p, n);
    if n > 0 {
      Untouched(t, u, p, c, n - 1);
    }
  }

  /** Putting a live row `c` into an acyclic table keeps it acyclic exactly if its parent is missing, not
      live, or clear of `c`. */
  lemma PutRow(t: Table, c: Id, row: Category)
    requires Acyclic(t) && !row.deleted
    ensures Acyclic(t[c := row]) <==>
      row.parent == None || (row.parent.value != c && (Live(t, row.parent.value) ==> ClearOf(t, row.parent.value, c)))
  {
    hide Acyclic, ClearOf, Climb;
    var u, base := t[c := row], t[c := row.(parent := None)];
    Detached(t, base, c);
    if row.parent.Some? {
      var p := row.parent.value;
      AddEdge(base, u, c, p);
      PathToRow(t, base, c, p);
    } else {
      assert u == base;
    }
  }

  lemma PathToRow(t: Table, base: Table, c: Id, p: Id)
    requires AgreeBut(t, base, c) && Live(base, c)
    ensures (forall n: nat :: Climb(base, p, n) != Some(c)) <==> p != c && (Live(t, p) ==> ClearOf(t, p, c))
  {
    if p == c {
      assert Climb(base, p, 0) == Some(c);
    } else if !Live(t, p) {
      assert forall n: nat :: Climb(base, p, n) == None;
    } else if ClearOf(t, p, c) {
      forall n: nat ensures Climb(base, p, n) != Some(c) {
        Avoids(t, base, p, c, n);
      }
    } else {
      var n: nat :| Climb(t, p, n).Some? && t[Climb(t, p, n).value].parent == Some(c);
      Arrives(t, base, p, c, n);
    }
  }

  /** Removing a live row closes no cycle. */
  lemma DropRow(t: Table, c: Id)
    requires Acyclic(t) && c in t
    ensures Acyclic(t[c := t[c].(deleted := true, version := t[c].version + 1)])
  {
    var u := t[c := t[c].(deleted := true, version := t[c].version + 1)];
    forall x: Id, n: nat | n > 0 ensures Climb(u, x, n) != Some(x) {
      if Climb(u, x, n) == Some(x) {
        Truncated(t, u, c, x, n);
      }
    }
  }

  lemma {:induction false} Truncated(t: Table, u: Table, c: Id, x: Id, n: nat)
    requires AgreeBut(t, u, c) && c in t && c in u && u[c].deleted && Climb(u, x, n).Some?
    ensures Climb(t, x, n) == Climb(u, x, n)
  {
    ClimbLive(u, x, n);
    if n > 0 {
      Truncated(t, u, c, x, n - 1);
    }
  }

  // ----- commands -----

  predicate LevelTaken(t: Table, parent: Option<Id>, name: string, except: Option<Id>) {
    exists x :: x in t && !t[x].deleted && t[x].parent == parent && t[x].name == name && except != Some(x)
  }

  datatype Command =
    | Create(c: Id, row: Category)
    | Update(c: Id, version: nat, row: Category)
    | Delete(c: Id, version: nat)
    | Restore(c: Id, version: nat)

  ghost predicate Accepts(t: Table, d: Command) {
    match d
    case Create(c, row) =>
      c !in t && ParentAllowed(t, row.parent, None) && !LevelTaken(t, row.parent, row.name, None)
    case Update(c, version, row) =>
      && Live(t, c) && t[c].version == version
      && ParentAllowed(t, row.parent, Some(c)) && !LevelTaken(t, row.parent, row.name, Some(c))
    case Delete(c, version) => Live(t, c) && t[c].version == version
    case Restore(c, version) =>
      && c in t && t[c].deleted && t[c].version == version
      && !LevelTaken(t, t[c].parent, t[c].name, Some(c))
  }

  /** The row a command leaves. */
  function After(t: Table, d: Command): Category
    requires !d.Create? ==> d.c in t
  {
    match d
    case Create(_, row) => row.(deleted := false, version := 1)
    case Update(c, _, row) => row.(deleted := false, version := t[c].version + 1)
    case Delete(c, _) => t[c].(deleted := true, version := t[c].version + 1)
    case Restore(c, _) => t[c].(deleted := false, version := t[c].version + 1)
  }

  ghost function Step(t: Table, d: Command): Table {
    if Accepts(t, d) then t[d.c := After(t, d)] else t
  }

  ghost function Run(t: Table, commands: seq<Command>): Table
    decreases |commands|
  {
    if commands == [] then t else Step(Run(t, commands[..|commands| - 1]), commands[|commands| - 1])
  }

  /** Foreign key: a parent is a stored category. */
  ghost predicate ParentsStored(t: Table) {
    forall x :: x in t && t[x].parent.Some? ==> t[x].parent.value in t
  }

  lemma NobodyPointsAt(t: Table, p: Id, c: Id)
    requires ParentsStored(t) && c !in t
    ensures ClearOf(t, p, c)
  {
    forall n: nat | Climb(t, p, n).Some? ensures t[Climb(t, p, n).value].parent != Some(c) {
      ClimbLive(t, p, n);
    }
  }

  /** Creating, updating and deleting keep the forest acyclic. */
  lemma StepKeepsForest(t: Table, d: Command)
    requires Acyclic(t) && ParentsStored(t) && !d.Restore?
    ensures Acyclic(Step(t, d)) && ParentsStored(Step(t, d))
  {
    hide Acyclic, ClearOf, Ends, LevelTaken;
    if Accepts(t, d) {
      if d.Delete? {
        DropRow(t, d.c);
      } else {
        var row := After(t, d);
        if d.Create? && row.parent.Some? {
          NobodyPointsAt(t, row.parent.value, d.c);
        }
        PutRow(t, d.c, row);
      }
    }
  }

  /** From no categories, every run without restores has an acyclic forest. */
  lemma {:induction false} RunKeepsForest(commands: seq<Command>)
    requires forall i :: 0 <= i < |commands| ==> !commands[i].Restore?
    ensures Acyclic(Run(map[], commands)) && ParentsStored(Run(map[], commands))
    decreases |commands|
  {
    hide Acyclic, ParentsStored, Step;
    if commands == [] {
      NoCategories();
    } else {
      RunKeepsForest(commands[..|commands| - 1]);
      StepKeepsForest(Run(map[], commands[..|commands| - 1]), commands[|commands| - 1]);
    }
  }

  lemma NoCategories()
    ensures Acyclic(map[]) && ParentsStored(map[])
  {
  }

  lemma {:induction false} WalkFinishes(t: Table, p: Id, n: nat, visited: set<Id>)
    requires Acyclic(t) && Climb(t, p, n).Some? && visited <= t.Keys
    requires forall x :: x in visited <==> exists m: nat :: Visits(t, p, n, m, x)
    ensures Ends(t, p)
    decreases |t.Keys - visited|
  {
    hide Climb;
    var current := Climb(t, p, n).value;
    ClimbNext(t, p, n);
    if Climb(t, p, n + 1).Some? {
      if current in visited {
        var m: nat :| Visits(t, p, n, m, current);
        assert Climb(t, current, n - m) != Some(current);
        ClimbAdd(t, p, m, n - m);
      }
      VisitsMore(t, p, n, n + 1, current, visited);
      WalkFinishes(t, p, n + 1, visited + {current});
    }
  }

  /** Restoring a category brings its old edges back without looking: the forest stays acyclic exactly if
      its parent is missing, deleted, or would pass the parent check. */
  lemma RestoreExactly(t: Table, d: Command)
    requires Acyclic(t) && d.Restore? && Accepts(t, d)
    ensures Acyclic(Step(t, d)) <==>
      (t[d.c].parent.Some? && Live(t, t[d.c].parent.value) ==> ParentAllowed(t, t[d.c].parent, Some(d.c)))
      && t[d.c].parent != Some(d.c)
  {
    hide Acyclic, ClearOf, Climb;
    var row := After(t, d);
    PutRow(t, d.c, row);
    if row.parent.Some? && Live(t, row.parent.value) {
      assert Ends(t, row.parent.value) by { Walkable(t, row.parent.value); }
    }
  }

  lemma Walkable(t: Table, p: Id)
    requires Acyclic(t) && Live(t, p)
    ensures Ends(t, p)
  {
    WalkFinishes(t, p, 0, {});
  }

  lemma {:induction false} RankFalls(t: Table, rank: Id -> nat, c: Id, n: nat)
    requires forall x: Id :: Up(t, x).Some? ==> rank(Up(t, x).value) < rank(x)
    requires Climb(t, c, n).Some?
    ensures rank(Climb(t, c, n).value) + n <= rank(c)
  {
    if n > 0 {
      RankFalls(t, rank, c, n - 1);
    }
  }

  function Named(name: string, parent: Option<Id>): Category {
    Category(name, Both, parent, false, false, 1)
  }

  /** It can fail: A below B and D below A; delete A, move B below D, restore A. */
  lemma RestoreClosesCycle()
    ensures var t := map[1 := Named("B", None), 2 := Named("A", Some(1)), 3 := Named("D", Some(2))];
      var commands := [Delete(2, 1), Update(1, 1, Named("B", Some(3))), Restore(2, 2)];
      Acyclic(t) && !Acyclic(Run(t, commands))
  {
    var t := map[1 := Named("B", None), 2 := Named("A", Some(1)), 3 := Named("D", Some(2))];
    var t1 := t[2 := t[2].(deleted := true, version := 2)];
    var t2 := t1[1 := Named("B", Some(3)).(version := 2)];
    var t3 := t2[2 := t2[2].(deleted := false, version := 3)];
    var commands := [Delete(2, 1), Update(1, 1, Named("B", Some(3))), Restore(2, 2)];
    forall c: Id, n: nat | n > 0 ensures Climb(t, c, n) != Some(c) {
      if Climb(t, c, n) == Some(c) {
        RankFalls(t, x => x, c, n);
      }
    }
    assert ParentAllowed(t1, Some(3), Some(1)) by { OneStepUp(t1, 3, 1); }
    assert commands[..3] == commands && commands[..2][..1] == [Delete(2, 1)] && [Delete(2, 1)][..0] == [];
    assert Run(t, []) == t;
    assert Run(t, [Delete(2, 1)]) == t1;
    assert Run(t, commands[..2]) == t2;
    assert Run(t, commands) == t3;
    ClimbOne(t3, 2);
    assert Climb(t3, 2, 3) == Some(2);
  }

  lemma OneStepUp(t: Table, p: Id, c: Id)
    requires Live(t, p) && Up(t, p) == None && t[p].parent != Some(c)
    ensures Ends(t, p) && ClearOf(t, p, c)
  {
    ClimbOne(t, p);
    forall n: nat | Climb(t, p, n).Some? ensures n == 0 {
      ClimbLive(t, p, n);
    }
  }
}
