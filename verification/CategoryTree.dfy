/** The category commands as they run, and the tree built for the listing. */
module CategoryTree {
  import opened Domain
  import opened CategoryForest

  class CategoryService {
    var categories: Table

    constructor (t: Table)
      ensures categories == t
    {
      categories := t;
    }

    method CreateCategory(c: Id, row: Category) returns (done: bool)
      requires c !in categories
      modifies this
      ensures done == Accepts(old(categories), Create(c, row)) && categories == Step(old(categories), Create(c, row))
    {
      hide ParentAllowed;
      var ok := ValidateParent(categories, row.parent, None);
      if !ok || LevelTaken(categories, row.parent, row.name, None) {
        return false;
      }
      categories := categories[c := row.(deleted := false, version := 1)];
      return true;
    }

    method UpdateCategory(c: Id, version: nat, row: Category) returns (done: bool)
      modifies this
      ensures done == Accepts(old(categories), Update(c, version, row))
      ensures categories == Step(old(categories), Update(c, version, row))
    {
      hide ParentAllowed;
      if c !in categories || categories[c].deleted || categories[c].version != version {
        return false;
      }
      var ok := ValidateParent(categories, row.parent, Some(c));
      if !ok || LevelTaken(categories, row.parent, row.name, Some(c)) {
        return false;
      }
      categories := categories[c := row.(deleted := false, version := categories[c].version + 1)];
      return true;
    }

    method DeleteCategory(c: Id, version: nat) returns (done: bool)
      modifies this
      ensures done == Accepts(old(categories), Delete(c, version)) && categories == Step(old(categories), Delete(c, version))
    {
      if c !in categories || categories[c].deleted || categories[c].version != version {
        return false;
      }
      categories := categories[c := categories[c].(deleted := true, version := categories[c].version + 1)];
      return true;
    }

    /** Restoring a category that is not deleted answers with it and changes nothing. The parent is not
        validated. */
    method RestoreCategory(c: Id, version: nat) returns (done: bool)
      modifies this
      ensures categories == Step(old(categories), Restore(c, version))
      ensures done == (Accepts(old(categories), Restore(c, version))
                       || (Live(old(categories), c) && old(categories)[c].version == version))
    {
      if c !in categories || categories[c].version != version {
        return false;
      }
      if !categories[c].deleted {
        return true;
      }
      if LevelTaken(categories, categories[c].parent, categories[c].name, Some(c)) {
        return false;
      }
      categories := categories[c := categories[c].(deleted := false, version := categories[c].version + 1)];
      return true;
    }
  }

  // ----- build_tree -----

  predicate AllIn(t: Table, items: seq<Id>) {
    forall i :: 0 <= i < |items| ==> items[i] in t
  }

  /** A listing of stored categories, each once. */
  predicate Listing(t: Table, items: seq<Id>) {
    AllIn(t, items) && Distinct(items)
  }

  predicate Hangs(t: Table, nodes: set<Id>, x: Id, p: Id)
    requires x in t
  {
    t[x].parent == Some(p) && p in nodes
  }

  /** The items below `p`, in listing order. */
  function ChildrenOf(t: Table, nodes: set<Id>, items: seq<Id>, p: Id): seq<Id>
    requires AllIn(t, items)
  {
    if items == [] then []
    else
      var last := items[|items| - 1];
      ChildrenOf(t, nodes, items[..|items| - 1], p) + if Hangs(t, nodes, last, p) then [last] else []
  }

  predicate IsRoot(t: Table, nodes: set<Id>, x: Id)
    requires x in t
  {
    t[x].parent == None || t[x].parent.value !in nodes
  }

  function RootsOf(t: Table, nodes: set<Id>, items: seq<Id>): seq<Id>
    requires AllIn(t, items)
  {
    if items == [] then []
    else
      var last := items[|items| - 1];
      RootsOf(t, nodes, items[..|items| - 1]) + if IsRoot(t, nodes, last) then [last] else []
  }

  function Nodes(items: seq<Id>): set<Id> {
    set x | x in items
  }

  method BuildTree(t: Table, items: seq<Id>) returns (roots: seq<Id>, children: map<Id, seq<Id>>)
    requires AllIn(t, items)
    ensures roots == RootsOf(t, Nodes(items), items)
    ensures children.Keys == Nodes(items)
    ensures forall p :: p in children ==> children[p] == ChildrenOf(t, Nodes(items), items, p)
  {
    var nodes := Nodes(items);
    children := map x | x in nodes :: [];
    roots := [];
    for k := 0 to |items|
      invariant children.Keys == nodes
      invariant roots == RootsOf(t, nodes, items[..k])
      invariant forall p :: p in children ==> children[p] == ChildrenOf(t, nodes, items[..k], p)
    {
      var item := items[k];
      assert item in items;
      assert items[..k + 1][..k] == items[..k];
      var parent := t[item].parent;
      if parent.Some? && parent.value in nodes {
        children := children[parent.value := children[parent.value] + [item]];
      } else {
        roots := roots + [item];
      }
    }
    assert items[..|items|] == items;
  }

  // ----- what the tree reaches -----

  lemma AppendDistinct(s: seq<Id>, x: Id)
    requires Distinct(s) && x !in s
    ensures Distinct(s + [x])
  {
    forall i | 0 <= i < |s| ensures (s + [x])[i] != x {
      assert s[i] in s;
    }
  }

  lemma MemberOfPrefix(items: seq<Id>, n: nat)
    requires n == |items| - 1 && Distinct(items)
    ensures forall x: Id :: x in items <==> x in items[..n] || x == items[n]
    ensures items[n] !in items[..n]
  {
    assert items == items[..n] + [items[n]];
  }

  lemma {:induction false} ChildrenMembers(t: Table, nodes: set<Id>, items: seq<Id>, p: Id)
    requires Listing(t, items)
    ensures forall x: Id :: x in ChildrenOf(t, nodes, items, p) <==> x in items && Hangs(t, nodes, x, p)
    ensures Distinct(ChildrenOf(t, nodes, items, p))
    decreases |items|
  {
    if items != [] {
      var n := |items| - 1;
      ChildrenMembers(t, nodes, items[..n], p);
      MemberOfPrefix(items, n);
      AppendDistinct(ChildrenOf(t, nodes, items[..n], p), items[n]);
    }
  }

  lemma {:induction false} RootsMembers(t: Table, nodes: set<Id>, items: seq<Id>)
    requires Listing(t, items)
    ensures forall x: Id :: x in RootsOf(t, nodes, items) <==> x in items && IsRoot(t, nodes, x)
    ensures Distinct(RootsOf(t, nodes, items))
    decreases |items|
  {
    if items != [] {
      var n := |items| - 1;
      RootsMembers(t, nodes, items[..n]);
      MemberOfPrefix(items, n);
      AppendDistinct(RootsOf(t, nodes, items[..n]), items[n]);
    }
  }

  /** A way down the built tree from a root to its last category. */
  ghost predicate Path(t: Table, items: seq<Id>, path: seq<Id>)
    requires AllIn(t, items)
  {
    && path != [] && path[0] in RootsOf(t, Nodes(items), items)
    && forall i :: 0 <= i < |path| - 1 ==> path[i + 1] in ChildrenOf(t, Nodes(items), items, path[i])
  }

  /** The listed categories on their own, where the missing ones are no parents. */
  function Listed(t: Table, items: seq<Id>): Table
    requires AllIn(t, items)
  {
    map x | x in items :: t[x].(deleted := false)
  }

  lemma LinksUp(t: Table, items: seq<Id>, x: Id)
    requires Listing(t, items)
    requires x in items
    ensures x in RootsOf(t, Nodes(items), items) <==> Up(Listed(t, items), x) == None
    ensures forall p: Id :: x in ChildrenOf(t, Nodes(items), items, p) <==> Up(Listed(t, items), x) == Some(p)
  {
    RootsMembers(t, Nodes(items), items);
    forall p: Id ensures x in ChildrenOf(t, Nodes(items), items, p) <==> Up(Listed(t, items), x) == Some(p) {
      ChildrenMembers(t, Nodes(items), items, p);
    }
  }

  lemma {:induction false} PathItems(t: Table, items: seq<Id>, path: seq<Id>, i: nat)
    requires Listing(t, items)
    requires Path(t, items, path) && i < |path|
    ensures path[i] in items
  {
    RootsMembers(t, Nodes(items), items);
    if i > 0 {
      ChildrenMembers(t, Nodes(items), items, path[i - 1]);
      assert path[i - 1 + 1] in ChildrenOf(t, Nodes(items), items, path[i - 1]);
    }
  }

  /** The tree holds no category twice: two ways down to the same category are the same way. */
  lemma {:induction false} ReachedAtMostOnce(t: Table, items: seq<Id>, a: seq<Id>, b: seq<Id>)
    requires Listing(t, items)
    requires Path(t, items, a) && Path(t, items, b) && a[|a| - 1] == b[|b| - 1]
    ensures a == b
    decreases |a|
  {
    hide RootsOf, ChildrenOf, Listed, Up;
    var m, n := |a| - 1, |b| - 1;
    PathItems(t, items, a, m);
    LinksUp(t, items, a[m]);
    if m > 0 {
      assert a[m - 1 + 1] in ChildrenOf(t, Nodes(items), items, a[m - 1]);
    }
    if n > 0 {
      assert b[n - 1 + 1] in ChildrenOf(t, Nodes(items), items, b[n - 1]);
    }
    assert m > 0 <==> n > 0;
    if m > 0 {
      ReachedAtMostOnce(t, items, a[..m], b[..n]);
      assert a == a[..m] + [a[m]] && b == b[..n] + [b[n]];
    }
  }

  lemma UpListed(t: Table, items: seq<Id>, x: Id)
    requires AllIn(t, items) && Up(Listed(t, items), x).Some?
    ensures Up(Listed(t, items), x).value in items
  {
  }

  lemma {:induction false} PathDown(t: Table, items: seq<Id>, x: Id, n: nat) returns (path: seq<Id>)
    requires Listing(t, items)
    requires x in items && Climb(Listed(t, items), x, n) == None
    ensures Path(t, items, path) && path[|path| - 1] == x
    decreases n
  {
    hide Climb, Up, RootsOf, ChildrenOf;
    var u := Listed(t, items);
    LinksUp(t, items, x);
    ClimbOne(u, x);
    assert Live(u, x);
    if Up(u, x) == None {
      path := [x];
    } else {
      var p := Up(u, x).value;
      assert p in items by { UpListed(t, items, x); }
      ClimbAdd(u, x, 1, n - 1);
      var above := PathDown(t, items, p, n - 1);
      path := above + [x];
    }
  }

  /** A path down is a walk up that ends. */
  lemma {:induction false} PathEnds(t: Table, items: seq<Id>, path: seq<Id>)
    requires Listing(t, items)
    requires Path(t, items, path)
    ensures Climb(Listed(t, items), path[|path| - 1], |path|) == None
    decreases |path|
  {
    hide RootsOf, ChildrenOf, Climb, Up, Listed;
    var u, n := Listed(t, items), |path| - 1;
    PathItems(t, items, path, n);
    LinksUp(t, items, path[n]);
    ClimbOne(u, path[n]);
    if n > 0 {
      assert path[n - 1 + 1] in ChildrenOf(t, Nodes(items), items, path[n - 1]);
      PathEnds(t, items, path[..n]);
      ClimbAdd(u, path[n], 1, n);
    }
  }

  /** A listed category is reached from the roots exactly if the walk up from it ends; then it is reached by
      one way only. */
  lemma ReachedExactly(t: Table, items: seq<Id>, x: Id)
    requires Listing(t, items)
    requires x in items
    ensures (exists path :: Path(t, items, path) && path[|path| - 1] == x) <==> Ends(Listed(t, items), x)
  {
    if path :| Path(t, items, path) && path[|path| - 1] == x {
      PathEnds(t, items, path);
    }
    if Ends(Listed(t, items), x) {
      var n: nat :| Climb(Listed(t, items), x, n) == None;
      var path := PathDown(t, items, x, n);
    }
  }

  /** On an acyclic table of live categories the tree reaches every category exactly once. */
  lemma AcyclicReachesAll(t: Table, items: seq<Id>, x: Id) returns (path: seq<Id>)
    requires Listing(t, items) && forall x: Id :: x in items ==> Live(t, x)
    requires Acyclic(t) && x in items
    ensures Path(t, items, path) && path[|path| - 1] == x
    ensures forall other :: Path(t, items, other) && other[|other| - 1] == x ==> other == path
  {
    var u := Listed(t, items);
    forall c: Id, n: nat | n > 0 ensures Climb(u, c, n) != Some(c) {
      if Climb(u, c, n) == Some(c) {
        FewerEdges(t, items, c, n);
      }
    }
    assert Live(u, x);
    Walkable(u, x);
    var n: nat :| Climb(u, x, n) == None;
    path := PathDown(t, items, x, n);
    forall other | Path(t, items, other) && other[|other| - 1] == x ensures other == path {
      ReachedAtMostOnce(t, items, other, path);
    }
  }

  lemma {:induction false} FewerEdges(t: Table, items: seq<Id>, c: Id, n: nat)
    requires AllIn(t, items) && forall x: Id :: x in items ==> Live(t, x)
    requires Climb(Listed(t, items), c, n).Some?
    ensures Climb(t, c, n) == Climb(Listed(t, items), c, n)
  {
    if n > 0 {
      FewerEdges(t, items, c, n - 1);
    }
    ClimbLive(Listed(t, items), c, n);
  }
}
