/** The parent entries of an audio endpoint report as a graph: which endpoint lists
    which as its child, and what a walk down the child lists visits. */
module AudioGraph {
  import opened Bytes

  /** A parent entry whose two endpoints both exist, in wire order. */
  datatype Edge = Edge(child: nat, parent: nat)

  function Children(es: seq<Edge>, p: nat): seq<nat> {
    if es == [] then []
    else
      var e := es[|es| - 1];
      Children(es[..|es| - 1], p) + if e.parent == p then [e.child] else []
  }

  /** The parent named by the last entry of c. */
  function Parent(es: seq<Edge>, c: nat): Option<nat> {
    if es == [] then None
    else if es[|es| - 1].child == c then Some(es[|es| - 1].parent)
    else Parent(es[..|es| - 1], c)
  }

  predicate AtMostOneParent(es: seq<Edge>) {
    forall i, j :: 0 <= i < j < |es| ==> es[i].child != es[j].child
  }

  /** parent and children are exact inverses: an endpoint is listed once by its
      parent and not at all by any other. */
  ghost predicate Inverse(es: seq<Edge>) {
    forall c: nat, p: nat :: TimesListed(es, c, p) == if Parent(es, c) == Some(p) then 1 else 0
  }

  function TimesListed(es: seq<Edge>, c: nat, p: nat): nat { multiset(Children(es, p))[c] }

  lemma {:induction false} ParentHasEntry(es: seq<Edge>, c: nat)
    requires Parent(es, c).Some?
    ensures exists i :: 0 <= i < |es| && es[i].child == c
  {
    var n := |es| - 1;
    if es[n].child != c {
      ParentHasEntry(es[..n], c);
      var i :| 0 <= i < n && es[..n][i].child == c;
      assert es[i].child == c;
    }
  }

  lemma {:induction false} OneParentInverse(es: seq<Edge>)
    requires AtMostOneParent(es)
    ensures Inverse(es)
  {
    if es != [] {
      var front, e := es[..|es| - 1], es[|es| - 1];
      OneParentInverse(front);
      if Parent(front, e.child).Some? {
        ParentHasEntry(front, e.child);
      }
      assert front + [e] == es;
      forall c: nat, p: nat
        ensures TimesListed(es, c, p) == if Parent(es, c) == Some(p) then 1 else 0
      {
        Appended(front, e, c, p);
        assert TimesListed(front, c, p) == if Parent(front, c) == Some(p) then 1 else 0;
      }
    }
  }

  lemma Appended(es: seq<Edge>, e: Edge, c: nat, p: nat)
    ensures Children(es + [e], p) == Children(es, p) + if e.parent == p then [e.child] else []
    ensures TimesListed(es + [e], c, p) == TimesListed(es, c, p) + if e == Edge(c, p) then 1 else 0
    ensures Parent(es + [e], c) == if e.child == c then Some(e.parent) else Parent(es, c)
  {
    assert (es + [e])[..|es|] == es;
  }

  lemma {:induction false} ListedPerEntry(es: seq<Edge>, i: nat, j: nat)
    requires i <= j < |es| && es[i] == es[j]
    ensures TimesListed(es, es[i].child, es[i].parent) >= if i == j then 1 else 2
  {
    var front := es[..|es| - 1];
    if j < |es| - 1 {
      ListedPerEntry(front, i, j);
    } else if i < j {
      ListedPerEntry(front, i, i);
    }
  }

  /** The two kinds of pointer agree exactly when no endpoint has two parent entries. */
  lemma InverseIffOneParent(es: seq<Edge>)
    ensures Inverse(es) <==> AtMostOneParent(es)
  {
    if AtMostOneParent(es) {
      OneParentInverse(es);
    } else {
      var i: nat, j: nat :| i < j < |es| && es[i].child == es[j].child;
      var c, p, q := es[i].child, es[i].parent, es[j].parent;
      ListedPerEntry(es, i, i);
      ListedPerEntry(es, j, j);
      assert TimesListed(es, c, p) >= 1 && TimesListed(es, c, q) >= 1;
      if p == q {
        assert es[i] == es[j];
        ListedPerEntry(es, i, j);
      }
    }
  }

  // ---- walking down the child lists ----

  /** A recursion over the child lists from e returns within the given depth. */
  predicate Finishes(es: seq<Edge>, e: nat, depth: nat)
    decreases depth
  {
    depth > 0 && forall c :: c in Children(es, e) ==> Finishes(es, c, depth - 1)
  }

  ghost predicate Returns(es: seq<Edge>, e: nat) { exists depth: nat :: Finishes(es, e, depth) }

  /** x is n levels below e. */
  predicate Below(es: seq<Edge>, e: nat, x: nat, n: nat)
    decreases n
  {
    if n == 0 then x == e else exists c :: c in Children(es, e) && Below(es, c, x, n - 1)
  }

  ghost predicate Descendant(es: seq<Edge>, e: nat, x: nat) { exists n: nat :: Below(es, e, x, n) }

  lemma {:induction false} BelowThen(es: seq<Edge>, a: nat, b: nat, n: nat, c: nat)
    requires Below(es, a, b, n) && c in Children(es, b)
    ensures Below(es, a, c, n + 1)
    decreases n
  {
    if n == 0 {
      assert Below(es, c, c, 0);
    } else {
      var d :| d in Children(es, a) && Below(es, d, b, n - 1);
      BelowThen(es, d, b, n - 1, c);
    }
  }

  lemma {:induction false} LastStep(es: seq<Edge>, a: nat, b: nat, n: nat) returns (y: nat)
    requires n > 0 && Below(es, a, b, n)
    ensures Below(es, a, y, n - 1) && b in Children(es, y)
    decreases n
  {
    var c :| c in Children(es, a) && Below(es, c, b, n - 1);
    if n == 1 {
      y := a;
    } else {
      y := LastStep(es, c, b, n - 1);
      assert Below(es, a, y, n - 1);
    }
  }

  lemma DescendantSplits(es: seq<Edge>, e: nat, x: nat)
    ensures Descendant(es, e, x)
       <==> x == e || exists k :: 0 <= k < |Children(es, e)| && Descendant(es, Children(es, e)[k], x)
  {
    if Descendant(es, e, x) {
      var n: nat :| Below(es, e, x, n);
      if n > 0 {
        var c :| c in Children(es, e) && Below(es, c, x, n - 1);
        var k :| 0 <= k < |Children(es, e)| && Children(es, e)[k] == c;
        assert Descendant(es, Children(es, e)[k], x);
      }
    }
    if x == e {
      assert Below(es, e, x, 0);
    }
    forall k | 0 <= k < |Children(es, e)| && Descendant(es, Children(es, e)[k], x)
      ensures Descendant(es, e, x)
    {
      var c := Children(es, e)[k];
      var n: nat :| Below(es, c, x, n);
      assert c in Children(es, e);
      assert Below(es, e, x, n + 1);
    }
  }

  lemma {:induction false} FinishesBelow(es: seq<Edge>, e: nat, depth: nat, x: nat, n: nat)
    requires Finishes(es, e, depth) && Below(es, e, x, n)
    ensures n < depth && Finishes(es, x, depth - n)
    decreases n
  {
    if n > 0 {
      var c :| c in Children(es, e) && Below(es, c, x, n - 1);
      FinishesBelow(es, c, depth - 1, x, n - 1);
    }
  }

  lemma {:induction false} NoFinishOnCycle(es: seq<Edge>, x: nat, n: nat, depth: nat)
    requires n > 0 && Below(es, x, x, n)
    ensures !Finishes(es, x, depth)
  {
    if Finishes(es, x, depth) {
      FinishesBelow(es, x, depth, x, n);
      NoFinishOnCycle(es, x, n, depth - n);
    }
  }

  /** Nothing below e lies on a cycle of the child lists. */
  ghost predicate AcyclicFrom(es: seq<Edge>, e: nat) {
    forall x: nat, n: nat :: Descendant(es, e, x) && n > 0 ==> !Below(es, x, x, n)
  }

  function Listed(es: seq<Edge>): set<nat> { set e | e in es :: e.child }

  lemma {:induction false} ChildrenListed(es: seq<Edge>, p: nat)
    ensures forall c :: c in Children(es, p) ==> c in Listed(es) && Edge(c, p) in es
  {
    if es != [] {
      ChildrenListed(es[..|es| - 1], p);
      assert forall e :: e in es[..|es| - 1] ==> e in es;
    }
  }

  /** Every endpoint in seen lies strictly above x. */
  ghost predicate Above(es: seq<Edge>, seen: set<nat>, x: nat) {
    forall v :: v in seen ==> StrictlyBelow(es, v, x)
  }

  ghost predicate StrictlyBelow(es: seq<Edge>, v: nat, x: nat) { exists m: nat :: m > 0 && Below(es, v, x, m) }

  lemma AboveStep(es: seq<Edge>, seen: set<nat>, x: nat, c: nat)
    requires Above(es, seen, x) && c in Children(es, x)
    ensures Above(es, seen + {x}, c)
  {
    forall v | v in seen + {x}
      ensures StrictlyBelow(es, v, c)
    {
      if v == x {
        BelowThen(es, x, x, 0, c);
      } else {
        assert StrictlyBelow(es, v, x);
        var m: nat :| m > 0 && Below(es, v, x, m);
        BelowThen(es, v, x, m, c);
      }
    }
  }

  lemma NotAboveItself(es: seq<Edge>, e: nat, x: nat, n: nat, seen: set<nat>)
    requires AcyclicFrom(es, e) && Below(es, e, x, n) && Above(es, seen, x)
    ensures x !in seen
  {
    if x in seen {
      assert StrictlyBelow(es, x, x);
      assert Descendant(es, e, x);
    }
  }

  lemma OneLess(all: set<nat>, seen: set<nat>, x: nat)
    requires x in all && x !in seen
    ensures |all - seen| == |all - (seen + {x})| + 1
  {
    assert all - seen == (all - (seen + {x})) + {x};
  }

  // seen holds the endpoints on the way from e down to x.
  lemma {:induction false} AcyclicFinishes(es: seq<Edge>, e: nat, x: nat, n: nat, all: set<nat>, seen: set<nat>)
    requires AcyclicFrom(es, e) && Below(es, e, x, n)
    requires Listed(es) <= all && x in all && seen <= all && Above(es, seen, x)
    ensures Finishes(es, x, |all - seen|)
    decreases |all - seen|
  {
    hide AcyclicFrom;
    hide Above;
    hide Below;
    hide Children;
    NotAboveItself(es, e, x, n, seen);
    OneLess(all, seen, x);
    ChildrenListed(es, x);
    forall c | c in Children(es, x)
      ensures Finishes(es, c, |all - seen| - 1)
    {
      BelowThen(es, e, x, n, c);
      AboveStep(es, seen, x, c);
      AcyclicFinishes(es, e, c, n + 1, all, seen + {x});
    }
  }

  lemma FinishingIsAcyclic(es: seq<Edge>, e: nat, depth: nat)
    requires Finishes(es, e, depth)
    ensures AcyclicFrom(es, e)
  {
    forall x: nat, n: nat | Descendant(es, e, x) && n > 0
      ensures !Below(es, x, x, n)
    {
      var m: nat :| Below(es, e, x, m);
      FinishesBelow(es, e, depth, x, m);
      if Below(es, x, x, n) {
        NoFinishOnCycle(es, x, n, depth - m);
      }
    }
  }

  /** The walk from e returns exactly when nothing below e lies on a cycle. */
  lemma FinishesIffAcyclic(es: seq<Edge>, e: nat)
    ensures Returns(es, e) <==> AcyclicFrom(es, e)
    ensures AcyclicFrom(es, e) ==> Finishes(es, e, |Listed(es) + {e}|)
  {
    if AcyclicFrom(es, e) {
      assert Below(es, e, e, 0);
      AcyclicFinishes(es, e, e, 0, Listed(es) + {e}, {});
      assert (Listed(es) + {e}) - {} == Listed(es) + {e};
    }
    if Returns(es, e) {
      var depth: nat :| Finishes(es, e, depth);
      FinishingIsAcyclic(es, e, depth);
    }
  }

  // ---- below a parentless endpoint ----

  lemma OnlyParent(es: seq<Edge>, c: nat, p: nat)
    requires AtMostOneParent(es) && c in Children(es, p)
    ensures Parent(es, c) == Some(p)
  {
    OneParentInverse(es);
    assert c in multiset(Children(es, p));
    assert TimesListed(es, c, p) > 0;
  }

  lemma {:induction false} NoCycleUnderRoot(es: seq<Edge>, root: nat, x: nat, k: nat, n: nat)
    requires AtMostOneParent(es) && Parent(es, root).None?
    requires Below(es, root, x, k) && n > 0
    ensures !Below(es, x, x, n)
    decreases k
  {
    if Below(es, x, x, n) {
      var z := LastStep(es, x, x, n);
      OnlyParent(es, x, z);
      if k > 0 {
        var y := LastStep(es, root, x, k);
        OnlyParent(es, x, y);
        assert Below(es, y, y, n);
        NoCycleUnderRoot(es, root, y, k - 1, n);
      }
    }
  }

  lemma {:induction false} OneDepth(es: seq<Edge>, root: nat, x: nat, m: nat, n: nat)
    requires AtMostOneParent(es) && Parent(es, root).None?
    requires Below(es, root, x, m) && Below(es, root, x, n)
    ensures m == n
    decreases m
  {
    if m > 0 {
      var y := LastStep(es, root, x, m);
      OnlyParent(es, x, y);
    }
    if n > 0 {
      var z := LastStep(es, root, x, n);
      OnlyParent(es, x, z);
    }
    if m > 0 && n > 0 {
      OneDepth(es, root, Parent(es, x).value, m - 1, n - 1);
    }
  }

  /** With at most one parent entry each, what lies below a parentless endpoint is a
      finite tree, whatever cycles there are elsewhere: the walk down returns, each
      endpoint is met at one depth only, and its parent is met one level above it. */
  lemma TreeUnderRoot(es: seq<Edge>, root: nat)
    requires AtMostOneParent(es) && Parent(es, root).None?
    ensures AcyclicFrom(es, root) && Finishes(es, root, |Listed(es) + {root}|)
    ensures forall x: nat, m: nat, n: nat :: Below(es, root, x, m) && Below(es, root, x, n) ==> m == n
    ensures forall x: nat, n: nat :: n > 0 && Below(es, root, x, n) ==>
              Parent(es, x).Some? && Below(es, root, Parent(es, x).value, n - 1)
  {
    forall x: nat, n: nat | Descendant(es, root, x) && n > 0
      ensures !Below(es, x, x, n)
    {
      var k: nat :| Below(es, root, x, k);
      NoCycleUnderRoot(es, root, x, k, n);
    }
    FinishesIffAcyclic(es, root);
    forall x: nat, m: nat, n: nat | Below(es, root, x, m) && Below(es, root, x, n)
      ensures m == n
    {
      OneDepth(es, root, x, m, n);
    }
    forall x: nat, n: nat | n > 0 && Below(es, root, x, n)
      ensures Parent(es, x).Some? && Below(es, root, Parent(es, x).value, n - 1)
    {
      var y := LastStep(es, root, x, n);
      OnlyParent(es, x, y);
    }
  }

  lemma OneRootAbove(es: seq<Edge>, a: nat, b: nat, x: nat, m: nat, n: nat)
    requires AtMostOneParent(es) && Parent(es, a).None? && Parent(es, b).None?
    requires Below(es, a, x, m) && Below(es, b, x, n)
    ensures a == b
    decreases m
  {
    if m > 0 {
      var y := LastStep(es, a, x, m);
      OnlyParent(es, x, y);
    }
    if n > 0 {
      var z := LastStep(es, b, x, n);
      OnlyParent(es, x, z);
    }
    if m > 0 && n > 0 {
      OneRootAbove(es, a, b, Parent(es, x).value, m - 1, n - 1);
    }
  }

  /** With at most one parent entry each, the trees of two parentless endpoints have no
      endpoint in common. */
  lemma TreesApart(es: seq<Edge>, a: nat, b: nat, x: nat)
    requires AtMostOneParent(es) && Parent(es, a).None? && Parent(es, b).None? && a != b
    ensures !(Descendant(es, a, x) && Descendant(es, b, x))
  {
    if Descendant(es, a, x) && Descendant(es, b, x) {
      var m: nat :| Below(es, a, x, m);
      var n: nat :| Below(es, b, x, n);
      OneRootAbove(es, a, b, x, m, n);
    }
  }

  /** A second parent entry can close a cycle under a parentless endpoint, from which
      the walk down never returns: endpoint 2 is put under 1 and then under itself. */
  lemma TwoParentsCanLoop()
    ensures var es := [Edge(2, 1), Edge(2, 2)];
            Parent(es, 1).None? && !Returns(es, 1)
  {
    var es := [Edge(2, 1), Edge(2, 2)];
    var first := [Edge(2, 1)];
    assert es[..1] == first && first[..0] == [];
    assert Children(first, 1) == Children([], 1) + [2] == [2];
    assert Children(first, 2) == Children([], 2) + [] == [];
    assert Children(es, 1) == [2] && Children(es, 2) == [2];
    assert Below(es, 2, 2, 0) && 2 in Children(es, 2);
    assert Below(es, 2, 2, 1);
    assert 2 in Children(es, 1) && Below(es, 1, 2, 1);
    assert Descendant(es, 1, 2);
    FinishesIffAcyclic(es, 1);
  }

  /** An endpoint that names itself as its parent: one parent entry, and a cycle that only
      a walk started on it meets. */
  lemma SelfParentLoops(e: nat)
    ensures var es := [Edge(e, e)]; AtMostOneParent(es) && !Returns(es, e)
  {
    var es := [Edge(e, e)];
    assert es[..0] == [];
    assert Children(es, e) == [e];
    assert Below(es, e, e, 0) && e in Children(es, e);
    assert Below(es, e, e, 1);
    assert Descendant(es, e, e);
    FinishesIffAcyclic(es, e);
  }
}
