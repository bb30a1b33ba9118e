/** The audio endpoint tree of a device: the two-pass parser that links endpoints to
    each other, and the recursion that hands an endpoint's whole subtree to a bay. */
module AudioTree {
  import opened Bytes
  import opened Frames
  import opened AudioGraph

  const FEATURE_INPUT: nat := 1
  const FEATURE_OUTPUT: nat := 2

  const AUDIO_OP_FEATURES: nat := 0

  const ENTRY_ENDPOINT: byte := 1
  const ENTRY_PARENT: byte := 5

  // ---- the entries of a report ----

  function EntryBase(x: nat): nat { 36 + x * 16 }

  function EntryCount(f: RawFrame): nat { if f.U16At(28).None? then 0 else f.U16At(28).value }

  predicate HasType(f: RawFrame, x: nat, kind: byte) {
    f.U8At(EntryBase(x)).Some? && f.U8At(EntryBase(x) + 1) == Some(kind)
  }

  function EntryId(f: RawFrame, x: nat): nat
    requires f.U8At(EntryBase(x)).Some?
  {
    f.U8At(EntryBase(x)).value
  }

  function EntryFeatures(f: RawFrame, x: nat): nat {
    var v := f.U32At(EntryBase(x) + 8);
    if v.None? then 0 else v.value
  }

  /** The endpoints named by the first n entries, with the features of the last entry
      naming each. */
  function FeaturesOf(f: RawFrame, n: nat): map<nat, nat> {
    if n == 0 then map[]
    else if HasType(f, n - 1, ENTRY_ENDPOINT)
    then FeaturesOf(f, n - 1)[EntryId(f, n - 1) := EntryFeatures(f, n - 1)]
    else FeaturesOf(f, n - 1)
  }

  /** The same endpoints in the order they first appear. */
  function OrderOf(f: RawFrame, n: nat): seq<nat> {
    if n == 0 then []
    else if HasType(f, n - 1, ENTRY_ENDPOINT) && EntryId(f, n - 1) !in FeaturesOf(f, n - 1)
    then OrderOf(f, n - 1) + [EntryId(f, n - 1)]
    else OrderOf(f, n - 1)
  }

  /** The parent entries among the first n whose two endpoints both exist. */
  function EdgesOf(f: RawFrame, ids: set<nat>, n: nat): seq<Edge> {
    if n == 0 then []
    else EdgesOf(f, ids, n - 1) + if NamesParent(f, ids, n - 1) then [EdgeAt(f, n - 1)] else []
  }

  predicate NamesParent(f: RawFrame, ids: set<nat>, x: nat) { NamesAny(f, ids, x) && f.U8At(EntryBase(x) + 8).value in ids }

  /** A parent entry of an endpoint there is, whether or not its parent is. */
  predicate NamesAny(f: RawFrame, ids: set<nat>, x: nat) {
    HasType(f, x, ENTRY_PARENT) && EntryId(f, x) in ids && f.U8At(EntryBase(x) + 8).Some?
  }

  /** The parent each endpoint was last said to have by the first n entries. */
  function NamedBy(f: RawFrame, ids: set<nat>, n: nat): map<nat, Option<nat>> {
    if n == 0 then map i | i in ids :: None
    else if NamesAny(f, ids, n - 1)
    then NamedBy(f, ids, n - 1)[EntryId(f, n - 1) := Some(f.U8At(EntryBase(n - 1) + 8).value)]
    else NamedBy(f, ids, n - 1)
  }

  function EdgeAt(f: RawFrame, x: nat): Edge
    requires f.U8At(EntryBase(x)).Some? && f.U8At(EntryBase(x) + 8).Some?
  {
    Edge(EntryId(f, x), f.U8At(EntryBase(x) + 8).value)
  }

  /** The tree a whole report describes. */
  function Ids(f: RawFrame): set<nat> { FeaturesOf(f, EntryCount(f)).Keys }

  function TreeEdges(f: RawFrame): seq<Edge> { EdgesOf(f, Ids(f), EntryCount(f)) }

  function TreeFeatures(f: RawFrame): map<nat, nat> { FeaturesOf(f, EntryCount(f)) }

  function TreeParents(f: RawFrame): map<nat, Option<nat>> { NamedBy(f, Ids(f), EntryCount(f)) }

  function TreeOrder(f: RawFrame): seq<nat> { OrderOf(f, EntryCount(f)) }

  lemma {:induction false} OrderListed(f: RawFrame, n: nat)
    ensures forall k :: 0 <= k < |OrderOf(f, n)| ==> OrderOf(f, n)[k] in FeaturesOf(f, n)
    ensures forall i :: i in FeaturesOf(f, n) ==> i in OrderOf(f, n)
  {
    if n > 0 {
      OrderListed(f, n - 1);
    }
  }

  lemma {:induction false} PastTheEnd(f: RawFrame, ids: set<nat>, x: nat, n: nat)
    requires x <= n && f.U8At(EntryBase(x)).None?
    ensures FeaturesOf(f, n) == FeaturesOf(f, x) && OrderOf(f, n) == OrderOf(f, x) && EdgesOf(f, ids, n) == EdgesOf(f, ids, x)
    ensures NamedBy(f, ids, n) == NamedBy(f, ids, x)
  {
    if x < n {
      PastTheEnd(f, ids, x, n - 1);
      assert f.U8At(EntryBase(n - 1)).None?;
    }
  }

  lemma {:induction false} EdgesInside(f: RawFrame, ids: set<nat>, n: nat)
    ensures forall i :: 0 <= i < |EdgesOf(f, ids, n)| ==>
              EdgesOf(f, ids, n)[i].child in ids && EdgesOf(f, ids, n)[i].parent in ids
  {
    if n > 0 {
      EdgesInside(f, ids, n - 1);
    }
  }

  /** An entry that names the endpoint. */
  ghost predicate Names(f: RawFrame, x: nat, id: nat) {
    id < 256 && f.U8At(36 + 16 * x) == Some(id) && f.U8At(37 + 16 * x) == Some(1)
  }

  lemma NamesMeans(f: RawFrame, x: nat, id: nat)
    ensures HasType(f, x, ENTRY_ENDPOINT) && EntryId(f, x) == id <==> Names(f, x, id)
  {
  }

  lemma FeaturesStep(f: RawFrame, n: nat, id: nat)
    ensures Names(f, n, id) ==>
              id in FeaturesOf(f, n + 1)
              && FeaturesOf(f, n + 1)[id] == if f.U32At(44 + 16 * n).Some? then f.U32At(44 + 16 * n).value else 0
    ensures !Names(f, n, id) ==>
              && (id in FeaturesOf(f, n + 1) <==> id in FeaturesOf(f, n))
              && (id in FeaturesOf(f, n) ==> FeaturesOf(f, n + 1)[id] == FeaturesOf(f, n)[id])
  {
    hide RawFrame.U8At;
    hide RawFrame.U32At;
    NamesMeans(f, n, id);
    hide Names;
  }

  /** An endpoint of a report is one an entry of kind 1 names. */
  lemma {:induction false} EndpointNamed(f: RawFrame, n: nat, id: nat)
    requires id in FeaturesOf(f, n)
    ensures exists x: nat :: x < n && Names(f, x, id)
  {
    hide FeaturesOf;
    hide Names;
    if n == 0 {
      NoEndpoints(f);
    } else {
      FeaturesStep(f, n - 1, id);
      if !Names(f, n - 1, id) {
        EndpointNamed(f, n - 1, id);
      }
    }
  }

  lemma NoEndpoints(f: RawFrame)
    ensures FeaturesOf(f, 0) == map[]
  {
  }

  /** It has the features of the last entry that does. */
  lemma {:induction false} LastEntryCounts(f: RawFrame, n: nat, id: nat, x: nat)
    requires x < n && Names(f, x, id) && forall y: nat :: x < y < n ==> !Names(f, y, id)
    ensures id in FeaturesOf(f, n)
    ensures FeaturesOf(f, n)[id] == if f.U32At(44 + 16 * x).Some? then f.U32At(44 + 16 * x).value else 0
  {
    hide FeaturesOf;
    hide Names;
    hide RawFrame.U32At;
    FeaturesStep(f, n - 1, id);
    if x < n - 1 {
      LastEntryCounts(f, n - 1, id, x);
    }
  }

  /** The edges are those its entries of kind 5 give, between endpoints there are. */
  lemma {:induction false} EdgesAreEntries(f: RawFrame, ids: set<nat>, n: nat, e: Edge)
    ensures e in EdgesOf(f, ids, n) <==>
              e.child in ids && e.parent in ids
              && exists x: nat :: x < n && Puts(f, x, e)
  {
    hide RawFrame.U8At;
    if n > 0 {
      EdgesAreEntries(f, ids, n - 1, e);
      assert NamesParent(f, ids, n - 1) && EdgeAt(f, n - 1) == e <==> e.child in ids && e.parent in ids && Puts(f, n - 1, e);
    }
  }

  ghost predicate Puts(f: RawFrame, x: nat, e: Edge) {
    && e.child < 256 && e.parent < 256
    && f.U8At(36 + 16 * x) == Some(e.child) && f.U8At(37 + 16 * x) == Some(5) && f.U8At(44 + 16 * x) == Some(e.parent)
  }

  // ---- the objects ----

  class AudioEndpoint {
    const id: nat
    const features: nat
    var parentId: Option<nat>
    var children: seq<AudioEndpoint>
    var parent: AudioEndpoint?
    var bay: Option<BayId>

    constructor (id: nat, features: nat)
      ensures this.id == id && this.features == features
      ensures parentId == None && children == [] && parent == null && bay == None
    {
      this.id, this.features := id, features;
      parentId, children, parent, bay := None, [], null, None;
    }

    /** Hands this endpoint and everything below it to a bay. The recursion needs the
        walk down to return at all; depth bounds it. */
    method SetBay(b: BayId, ghost eps: AudioEndpoints, ghost es: seq<Edge>, ghost depth: nat)
      requires eps.Linked(es) && id in eps.endpoints && eps.endpoints[id] == this
      requires Finishes(es, id, depth)
      modifies eps.endpoints.Values`bay
      ensures eps.Bays() == Handed(old(eps.Bays()), es, id, b)
      decreases depth, 1
    {
      bay := Some(b);
      ghost var was := old(eps.Bays());
      NoneHanded(was, es, id, b);
      for k := 0 to |children|
        invariant eps.Bays() == PartlyHanded(was, es, id, k, b)
      {
        eps.StaysLinked(es);
        SetChildBay(k, b, eps, es, depth, was);
      }
      AllHanded(was, es, id, b);
    }

    /** One round of that recursion. */
    method SetChildBay(k: nat, b: BayId, ghost eps: AudioEndpoints, ghost es: seq<Edge>, ghost depth: nat, ghost was: BayMap)
      requires eps.Linked(es) && id in eps.endpoints && eps.endpoints[id] == this
      requires Finishes(es, id, depth) && k < |children|
      requires eps.Bays() == PartlyHanded(was, es, id, k, b)
      modifies eps.endpoints.Values`bay
      ensures eps.Bays() == PartlyHanded(was, es, id, k + 1, b)
      decreases depth, 0
    {
      ghost var child := Children(es, id)[k];
      assert child in Children(es, id) && children[k] == eps.endpoints[child];
      children[k].SetBay(b, eps, es, depth - 1);
      PartlyHandedStep(was, es, id, k, b);
    }
  }

  type BayMap = map<nat, Option<BayId>>

  /** The bays with b set on e and everything below it. */
  ghost function Handed(bays: BayMap, es: seq<Edge>, e: nat, b: BayId): BayMap {
    map i | i in bays :: if Descendant(es, e, i) then Some(b) else bays[i]
  }

  /** The bays with b set on e and below its first k children. */
  ghost function PartlyHanded(bays: BayMap, es: seq<Edge>, e: nat, k: nat, b: BayId): BayMap {
    map i | i in bays :: if i == e || UnderChild(es, e, k, i) then Some(b) else bays[i]
  }

  /** i lies below one of the first k children of e. */
  ghost predicate UnderChild(es: seq<Edge>, e: nat, k: nat, i: nat) {
    exists j :: 0 <= j < k && j < |Children(es, e)| && Descendant(es, Children(es, e)[j], i)
  }

  lemma PartlyHandedStep(bays: BayMap, es: seq<Edge>, e: nat, k: nat, b: BayId)
    requires k < |Children(es, e)|
    ensures Handed(PartlyHanded(bays, es, e, k, b), es, Children(es, e)[k], b) == PartlyHanded(bays, es, e, k + 1, b)
  {
    forall i: nat
      ensures UnderChild(es, e, k + 1, i) <==> UnderChild(es, e, k, i) || Descendant(es, Children(es, e)[k], i)
    {
    }
  }

  lemma NoneHanded(bays: BayMap, es: seq<Edge>, e: nat, b: BayId)
    ensures e in bays ==> PartlyHanded(bays, es, e, 0, b) == bays[e := Some(b)]
  {
  }

  lemma AllHanded(bays: BayMap, es: seq<Edge>, e: nat, b: BayId)
    ensures PartlyHanded(bays, es, e, |Children(es, e)|, b) == Handed(bays, es, e, b)
  {
    forall i: nat
      ensures Descendant(es, e, i) <==> i == e || UnderChild(es, e, |Children(es, e)|, i)
    {
      DescendantSplits(es, e, i);
    }
  }

  function FirstWith(eps: seq<AudioEndpoint>, feature: nat): (ep: AudioEndpoint?)
    requires feature > 0
    ensures ep != null ==> ep in eps && Has(ep.features, feature)
  {
    if eps == [] then null else if Has(eps[0].features, feature) then eps[0] else FirstWith(eps[1..], feature)
  }

  lemma FirstWithSnoc(eps: seq<AudioEndpoint>, ep: AudioEndpoint, feature: nat)
    requires feature > 0
    ensures FirstWith(eps + [ep], feature)
         == if FirstWith(eps, feature) != null then FirstWith(eps, feature) else if Has(ep.features, feature) then ep else null
  {
    if eps == [] {
    } else {
      FirstWithSnoc(eps[1..], ep, feature);
      assert (eps + [ep])[1..] == eps[1..] + [ep];
    }
  }

  /** The first of the endpoints listed in order that no entry gives a parent and that
      carries the feature. */
  function FirstRoot(features: map<nat, nat>, es: seq<Edge>, order: seq<nat>, feature: nat): (root: Option<nat>)
    requires feature > 0 && forall k :: 0 <= k < |order| ==> order[k] in features
    ensures root.Some? ==> root.value in order && Parent(es, root.value).None? && Has(features[root.value], feature)
    ensures root.None? ==> forall k :: 0 <= k < |order| ==> Parent(es, order[k]).Some? || !Has(features[order[k]], feature)
  {
    if order == [] then None
    else
      var first, last := FirstRoot(features, es, order[..|order| - 1], feature), order[|order| - 1];
      if first.Some? then first
      else if Parent(es, last).None? && Has(features[last], feature) then Some(last)
      else None
  }

  /** The child list and parent pointer that the edges give endpoint i. */
  ghost predicate NodeLinked(eps: map<nat, AudioEndpoint>, es: seq<Edge>, i: nat,
                             children: seq<AudioEndpoint>, parent: AudioEndpoint?)
  {
    && |children| == |Children(es, i)|
    && (forall k :: 0 <= k < |children| ==> Children(es, i)[k] in eps && children[k] == eps[Children(es, i)[k]])
    && (Parent(es, i).None? ==> parent == null)
    && (Parent(es, i).Some? ==> Parent(es, i).value in eps && parent == eps[Parent(es, i).value])
  }

  lemma EdgeAdded(eps: map<nat, AudioEndpoint>, es: seq<Edge>, e: Edge, i: nat,
                  children: seq<AudioEndpoint>, parent: AudioEndpoint?)
    requires e.child in eps && e.parent in eps && NodeLinked(eps, es, i, children, parent)
    ensures NodeLinked(eps, es + [e], i,
                       children + (if i == e.parent then [eps[e.child]] else []),
                       if i == e.child then eps[e.parent] else parent)
  {
    Appended(es, e, i, i);
    var ids, after := Children(es, i), Children(es + [e], i);
    var longer := children + if i == e.parent then [eps[e.child]] else [];
    forall k | 0 <= k < |longer|
      ensures after[k] in eps && longer[k] == eps[after[k]]
    {
      if k < |children| {
        assert after[k] == ids[k] && longer[k] == children[k];
      } else {
        assert after[k] == e.child;
      }
    }
  }

  /** The endpoint each bay points to. */
  type Ends = map<BayId, AudioEndpoint>

  /** A bay pointing to the root found for it, where there are both. */
  function Pointed(eps: map<nat, AudioEndpoint>, ends: Ends, root: Option<nat>, b: Option<BayId>): Ends {
    if root.None? || b.None? || root.value !in eps then ends else ends[b.value := eps[root.value]]
  }

  /** The bays of an amplifier pointing to the endpoints numbered like them. */
  function PointedEach(eps: map<nat, AudioEndpoint>, ends: Ends, order: seq<nat>, own: map<nat, BayId>): Ends {
    if order == [] then ends
    else
      var before, id := PointedEach(eps, ends, order[..|order| - 1], own), order[|order| - 1];
      if id in own then Pointed(eps, before, Some(id), Some(own[id])) else before
  }

  class AudioEndpoints {
    var endpoints: map<nat, AudioEndpoint>
    var order: seq<nat>

    /** The pointers agree with the edges: every child list holds the endpoints of
        Children in order, every parent pointer that of Parent. */
    ghost predicate Linked(es: seq<Edge>)
      reads this, endpoints.Values`children, endpoints.Values`parent
    {
      && Keyed()
      && (forall i :: 0 <= i < |es| ==> es[i].child in endpoints && es[i].parent in endpoints)
      && (forall i :: i in endpoints ==> LinkedAt(es, i))
    }

    /** Only children and parent pointers matter to Linked. */
    twostate lemma StaysLinked(es: seq<Edge>)
      requires old(Linked(es)) && unchanged(this)
      requires forall ep :: ep in endpoints.Values ==> old(allocated(ep)) && unchanged(ep`children) && unchanged(ep`parent)
      ensures Linked(es)
    {
      forall i | i in endpoints
        ensures LinkedAt(es, i)
      {
        assert old(LinkedAt(es, i));
      }
    }

    ghost function Bays(): BayMap
      reads this, endpoints.Values`bay
    {
      map i | i in endpoints :: endpoints[i].bay
    }

    function Features(): map<nat, nat>
      reads this
    {
      map i | i in endpoints :: endpoints[i].features
    }

    ghost function NamedParents(): map<nat, Option<nat>>
      reads this, endpoints.Values`parentId
    {
      map i | i in endpoints :: endpoints[i].parentId
    }

    ghost predicate Ordered()
      reads this
    {
      forall k :: 0 <= k < |order| ==> order[k] in endpoints
    }

    ghost predicate Keyed()
      reads this
    {
      forall i :: i in endpoints ==> endpoints[i].id == i
    }

    ghost predicate LinkedAt(es: seq<Edge>, i: nat)
      requires i in endpoints
      reads this, endpoints.Values`children, endpoints.Values`parent
    {
      NodeLinked(endpoints, es, i, endpoints[i].children, endpoints[i].parent)
    }

    constructor ()
      ensures endpoints == map[] && order == []
    {
      endpoints, order := map[], [];
    }

    method Add(ep: AudioEndpoint)
      modifies this
      ensures endpoints == old(endpoints)[ep.id := ep]
      ensures order == old(order) + if ep.id in old(endpoints) then [] else [ep.id]
    {
      if ep.id !in endpoints {
        order := order + [ep.id];
      }
      endpoints := endpoints[ep.id := ep];
    }

    /** The parentless endpoints in wire order. */
    method Tree() returns (rv: seq<AudioEndpoint>)
      requires Ordered()
      ensures rv == Roots(|order|)
    {
      rv := [];
      for k := 0 to |order|
        invariant rv == Roots(k)
      {
        if endpoints[order[k]].parent == null {
          rv := rv + [endpoints[order[k]]];
        }
      }
    }

    ghost function Roots(n: nat): (rv: seq<AudioEndpoint>)
      requires n <= |order| && Ordered()
      reads this, endpoints.Values`parent
      ensures forall k :: 0 <= k < |rv| ==> rv[k] in endpoints.Values && rv[k].parent == null
    {
      if n == 0 then []
      else Roots(n - 1) + if endpoints[order[n - 1]].parent == null then [endpoints[order[n - 1]]] else []
    }

    /** The first parentless endpoint in wire order that carries the feature. */
    method TreeFirst(feature: nat) returns (ep: AudioEndpoint?)
      requires feature > 0 && Ordered()
      ensures ep == FirstWith(Roots(|order|), feature)
    {
      var roots := Tree();
      for k := 0 to |roots|
        invariant FirstWith(roots[k..], feature) == FirstWith(roots, feature)
      {
        if Has(roots[k].features, feature) {
          return roots[k];
        }
        assert roots[k..][1..] == roots[k + 1..];
      }
      ep := null;
    }

    lemma ParentShown(es: seq<Edge>, i: nat)
      requires Linked(es) && i in endpoints
      ensures endpoints[i].parent == null <==> Parent(es, i).None?
    {
      assert LinkedAt(es, i);
    }

    lemma FirstRootStep(es: seq<Edge>, feature: nat, n: nat)
      requires feature > 0 && Ordered() && n < |order|
      ensures var before, id := FirstRoot(Features(), es, order[..n], feature), order[n];
              FirstRoot(Features(), es, order[..n + 1], feature)
              == if before.Some? then before
                 else if Parent(es, id).None? && Has(endpoints[id].features, feature) then Some(id) else None
    {
      assert order[..n + 1][..n] == order[..n];
    }

    /** What the edges say of the root found. */
    lemma {:induction false} RootFound(es: seq<Edge>, feature: nat, n: nat)
      requires feature > 0 && Linked(es) && Ordered() && n <= |order|
      ensures var root := FirstRoot(Features(), es, order[..n], feature);
              && (root.None? <==> FirstWith(Roots(n), feature) == null)
              && (root.Some? ==> root.value in endpoints && FirstWith(Roots(n), feature) == endpoints[root.value])
    {
      hide LinkedAt;
      hide FirstRoot;
      hide Features;
      hide Parent;
      hide Has;
      if n == 0 {
        NoRootAtAll(es, feature);
      } else {
        RootFound(es, feature, n - 1);
        FirstRootStep(es, feature, n - 1);
        ParentShown(es, order[n - 1]);
        var ep := endpoints[order[n - 1]];
        FirstWithSnoc(Roots(n - 1), ep, feature);
        assert Roots(n - 1) + [] == Roots(n - 1);
      }
    }

    lemma NoRootAtAll(es: seq<Edge>, feature: nat)
      requires feature > 0 && Ordered()
      ensures FirstRoot(Features(), es, order[..0], feature) == None
    {
    }

    ghost function RootOf(es: seq<Edge>, feature: nat): Option<nat>
      requires feature > 0 && Ordered()
      reads this
    {
      FirstRoot(Features(), es, order, feature)
    }

    /** An endpoint's whole tree handed to a bay, the walk down it returning. */
    method Hand(ep: AudioEndpoint, b: BayId, ghost es: seq<Edge>, ghost id: nat)
      requires Linked(es) && id in endpoints && endpoints[id] == ep && Returns(es, id)
      modifies endpoints.Values`bay
      ensures Linked(es) && Bays() == Handed(old(Bays()), es, id, b)
    {
      hide Handed;
      hide Finishes;
      hide NodeLinked;
      ghost var depth: nat :| Finishes(es, id, depth);
      ep.SetBay(b, this, es, depth);
      StaysLinked(es);
    }

    /** The root the device picks for a bay, and its subtree handed to that bay: exactly
        the root and what lies below it, provided the walk down from it returns. */
    method AttachFirst(feature: nat, b: BayId, ends: Ends, ghost es: seq<Edge>) returns (after: Ends)
      requires feature > 0 && Linked(es) && Ordered()
      requires RootOf(es, feature).Some? ==> Returns(es, RootOf(es, feature).value)
      modifies endpoints.Values`bay
      ensures Linked(es) && Bays() == Attached(old(Bays()), es, old(RootOf(es, feature)), Some(b))
      ensures after == Pointed(endpoints, ends, old(RootOf(es, feature)), Some(b))
    {
      hide Handed;
      hide FirstWith;
      hide FirstRoot;
      hide Returns;
      hide Linked;
      hide Bays;
      RootFound(es, feature, |order|);
      assert order[..|order|] == order;
      after := ends;
      var ep := TreeFirst(feature);
      if ep != null {
        after := ends[b := ep];
        Hand(ep, b, es, RootOf(es, feature).value);
      }
    }

    /** A OneIP transmitter or transceiver: its first input gets the first output tree and
        its first output the first input tree, where the device has them. */
    method AttachBoth(input: Option<BayId>, output: Option<BayId>, ends: Ends, ghost es: seq<Edge>) returns (after: Ends)
      requires Linked(es) && Ordered()
      requires input.Some? && RootOf(es, FEATURE_OUTPUT).Some? ==> Returns(es, RootOf(es, FEATURE_OUTPUT).value)
      requires output.Some? && RootOf(es, FEATURE_INPUT).Some? ==> Returns(es, RootOf(es, FEATURE_INPUT).value)
      modifies endpoints.Values`bay
      ensures Linked(es)
      ensures Bays() == Attached(Attached(old(Bays()), es, old(RootOf(es, FEATURE_OUTPUT)), input),
                                 es, old(RootOf(es, FEATURE_INPUT)), output)
      ensures after == Pointed(endpoints, Pointed(endpoints, ends, old(RootOf(es, FEATURE_OUTPUT)), input),
                               old(RootOf(es, FEATURE_INPUT)), output)
    {
      hide Handed;
      hide RootOf;
      hide Returns;
      hide NodeLinked;
      after := ends;
      if input.Some? {
        after := AttachFirst(FEATURE_OUTPUT, input.value, after, es);
      }
      assert Bays() == Attached(old(Bays()), es, RootOf(es, FEATURE_OUTPUT), input);
      if output.Some? {
        after := AttachFirst(FEATURE_INPUT, output.value, after, es);
      }
    }

    /** An amplifier: every endpoint listed gets the bay numbered like it, in order, and
        with it whatever lies below. */
    method AttachEach(own: map<nat, BayId>, ends: Ends, ghost es: seq<Edge>) returns (after: Ends)
      requires Linked(es) && Ordered()
      requires forall k :: 0 <= k < |order| && order[k] in own ==> Returns(es, order[k])
      modifies endpoints.Values`bay
      ensures Linked(es) && Bays() == AttachedEach(old(Bays()), es, order, own)
      ensures after == PointedEach(endpoints, ends, order, own)
    {
      hide Handed;
      hide Linked;
      hide Bays;
      hide Returns;
      ghost var was := Bays();
      after := ends;
      assert order[..0] == [];
      for k := 0 to |order|
        invariant Linked(es) && Bays() == AttachedEach(was, es, order[..k], own)
        invariant after == PointedEach(endpoints, ends, order[..k], own)
      {
        assert order[..k + 1][..k] == order[..k];
        var id := order[k];
        if id in own {
          after := after[own[id] := endpoints[id]];
          Hand(endpoints[id], own[id], es, id);
        }
      }
      assert order[..|order|] == order;
    }

    method Equal(other: AudioEndpoints) returns (same: bool)
      ensures same == (Features() == other.Features() && NamedParents() == other.NamedParents())
    {
      ghost var mine, theirs := Features(), other.Features();
      assert mine.Keys == endpoints.Keys && theirs.Keys == other.endpoints.Keys;
      if |endpoints| != |other.endpoints| {
        return false;
      }
      var rest := endpoints.Keys;
      while rest != {}
        invariant rest <= endpoints.Keys
        invariant forall i :: i in endpoints && i !in rest ==> EqualAt(other, i)
        decreases |rest|
      {
        var i :| i in rest;
        if i !in other.endpoints {
          return false;
        }
        var a, b := endpoints[i], other.endpoints[i];
        if a.features != b.features || a.parentId != b.parentId {
          assert i in mine && i in NamedParents();
          return false;
        }
        assert EqualAt(other, i);
        rest := rest - {i};
      }
      SameKeys(endpoints.Keys, other.endpoints.Keys);
      same := true;
    }

    ghost predicate EqualAt(other: AudioEndpoints, i: nat)
      requires i in endpoints
      reads this, other, endpoints.Values`parentId, other.endpoints.Values`parentId
    {
      && i in other.endpoints && endpoints[i].features == other.endpoints[i].features
      && endpoints[i].parentId == other.endpoints[i].parentId
    }
  }

  lemma {:induction false} SameKeys(a: set<nat>, b: set<nat>)
    requires a <= b && |a| == |b|
    ensures a == b
  {
    if x :| x in b && x !in a {
      SmallerInside(a, b - {x});
    }
  }

  lemma {:induction false} SmallerInside(a: set<nat>, b: set<nat>)
    requires a <= b
    ensures |a| <= |b|
  {
    if a != {} {
      var x :| x in a;
      SmallerInside(a - {x}, b - {x});
    }
  }

  /** A bay's own tree handed to it, where there are both. */
  ghost function Attached(bays: BayMap, es: seq<Edge>, root: Option<nat>, b: Option<BayId>): BayMap {
    if root.None? || b.None? then bays else Handed(bays, es, root.value, b.value)
  }

  /** The trees of the endpoints that have a bay handed to it, one after the other. */
  ghost function AttachedEach(bays: BayMap, es: seq<Edge>, order: seq<nat>, own: map<nat, BayId>): BayMap {
    if order == [] then bays
    else
      var before, id := AttachedEach(bays, es, order[..|order| - 1], own), order[|order| - 1];
      if id in own then Handed(before, es, id, own[id]) else before
  }

  // ---- the parser ----

  /** The endpoints as they are made: without a bay or a named parent. */
  ghost predicate Unattached(eps: AudioEndpoints)
    reads eps, eps.endpoints.Values`bay, eps.endpoints.Values`parentId
  {
    forall i :: i in eps.endpoints ==> eps.endpoints[i].bay == None && eps.endpoints[i].parentId == None
  }

  // Adds an endpoint no one else refers to.
  method AddNew(eps: AudioEndpoints, ep: AudioEndpoint)
    requires eps.Linked([]) && ep.children == [] && ep.parent == null
    requires Unattached(eps) && ep.bay == None && ep.parentId == None
    modifies eps
    ensures eps.endpoints == old(eps.endpoints)[ep.id := ep] && eps.Linked([]) && Unattached(eps)
    ensures eps.order == old(eps.order) + if ep.id in old(eps.endpoints) then [] else [ep.id]
    ensures eps.Features() == old(eps.Features())[ep.id := ep.features]
  {
    eps.Add(ep);
    forall i | i in eps.endpoints
      ensures eps.LinkedAt([], i)
    {
      assert i in old(eps.endpoints) ==> old(eps.LinkedAt([], i));
    }
  }

  method ReadEndpoints(f: RawFrame) returns (eps: AudioEndpoints)
    ensures fresh(eps) && forall i :: i in eps.endpoints ==> fresh(eps.endpoints[i])
    ensures eps.Features() == TreeFeatures(f) && eps.order == TreeOrder(f)
    ensures eps.Linked([]) && Unattached(eps)
  {
    hide NodeLinked;
    hide Unattached;
    hide AudioEndpoints.Linked;
    eps := new AudioEndpoints();
    NothingYet(eps);
    var nb := EntryCount(f);
    for x := 0 to nb
      invariant fresh(eps) && forall i :: i in eps.endpoints ==> fresh(eps.endpoints[i])
      invariant eps.Features() == FeaturesOf(f, x) && eps.order == OrderOf(f, x)
      invariant eps.Linked([]) && Unattached(eps)
    {
      if f.U8At(EntryBase(x)).None? {
        PastTheEnd(f, {}, x, nb);
        break;
      }
      if f.U8At(EntryBase(x) + 1) == Some(ENTRY_ENDPOINT) {
        var ep := new AudioEndpoint(EntryId(f, x), EntryFeatures(f, x));
        AddNew(eps, ep);
      }
    }
  }

  lemma NothingYet(eps: AudioEndpoints)
    requires eps.endpoints == map[]
    ensures eps.Features() == map[] && eps.Linked([]) && Unattached(eps)
  {
  }

  lemma NothingNamed(eps: AudioEndpoints, f: RawFrame)
    requires eps.Features() == TreeFeatures(f) && Unattached(eps)
    ensures eps.endpoints.Keys == Ids(f) && eps.NamedParents() == NamedBy(f, Ids(f), 0)
  {
    hide FeaturesOf;
    assert eps.Features().Keys == eps.endpoints.Keys;
  }

  method ParseAudioEndpoints(f: RawFrame) returns (eps: AudioEndpoints)
    ensures fresh(eps) && fresh(eps.endpoints.Values)
    ensures eps.Features() == TreeFeatures(f) && eps.order == TreeOrder(f)
    ensures eps.Linked(TreeEdges(f)) && eps.Ordered()
    ensures eps.NamedParents() == TreeParents(f) && eps.Bays() == NoBays(f)
  {
    hide NodeLinked;
    hide FeaturesOf;
    hide OrderOf;
    hide NamedBy;
    eps := ReadEndpoints(f);
    var nb := EntryCount(f);
    ghost var ids, parsed := Ids(f), eps.endpoints;
    OrderListed(f, nb);
    NothingNamed(eps, f);
    for x := 0 to nb
      invariant fresh(eps) && fresh(parsed.Values)
      invariant eps.endpoints == parsed && eps.order == TreeOrder(f)
      invariant eps.Linked(EdgesOf(f, ids, x)) && eps.NamedParents() == NamedBy(f, ids, x)
      invariant forall i :: i in parsed ==> parsed[i].bay == None
    {
      if f.U8At(EntryBase(x)).None? {
        PastTheEnd(f, ids, x, nb);
        break;
      }
      ReadParent(f, eps, x);
    }
  }

  /** The second pass over one entry. */
  method ReadParent(f: RawFrame, eps: AudioEndpoints, x: nat)
    requires f.U8At(EntryBase(x)).Some?
    requires eps.Linked(EdgesOf(f, eps.endpoints.Keys, x)) && eps.NamedParents() == NamedBy(f, eps.endpoints.Keys, x)
    modifies eps.endpoints.Values`parentId, eps.endpoints.Values`children, eps.endpoints.Values`parent
    ensures eps.Linked(EdgesOf(f, eps.endpoints.Keys, x + 1))
    ensures eps.NamedParents() == NamedBy(f, eps.endpoints.Keys, x + 1)
  {
    hide NodeLinked;
    ghost var es := EdgesOf(f, eps.endpoints.Keys, x);
    assert es + [] == es;
    var id := f.U8At(EntryBase(x)).value;
    if id in eps.endpoints && f.U8At(EntryBase(x) + 1) == Some(ENTRY_PARENT) {
      var p := f.U8At(EntryBase(x) + 8);
      if p.Some? {
        SetParentId(eps, es, id, p.value);
        if p.value in eps.endpoints {
          AddEdge(eps, es, EdgeAt(f, x));
        }
      }
    }
  }

  method SetParentId(eps: AudioEndpoints, ghost es: seq<Edge>, id: nat, p: nat)
    requires eps.Linked(es) && id in eps.endpoints
    modifies eps.endpoints.Values`parentId
    ensures eps.Linked(es) && eps.NamedParents() == old(eps.NamedParents())[id := Some(p)]
  {
    eps.endpoints[id].parentId := Some(p);
  }

  /** Links one endpoint under another. */
  method AddEdge(eps: AudioEndpoints, ghost es: seq<Edge>, e: Edge)
    requires eps.Linked(es) && e.child in eps.endpoints && e.parent in eps.endpoints
    modifies eps.endpoints.Values`children, eps.endpoints.Values`parent
    ensures eps.Linked(es + [e]) && eps.NamedParents() == old(eps.NamedParents())
  {
    hide AudioEndpoints.NamedParents;
    hide NodeLinked;
    var ep, parent := eps.endpoints[e.child], eps.endpoints[e.parent];
    parent.children := parent.children + [ep];
    ep.parent := parent;
    forall i | i in eps.endpoints
      ensures eps.LinkedAt(es + [e], i)
    {
      assert old(eps.LinkedAt(es, i));
      EdgeAdded(eps.endpoints, es, e, i, old(eps.endpoints[i].children), old(eps.endpoints[i].parent));
      assert eps.endpoints[i].children == old(eps.endpoints[i].children) + if i == e.parent then [ep] else [];
    }
  }

  // ---- a device taking a report ----

  /** What a device's kind makes of a new report: a OneIP transmitter or transceiver has a
      first input and output where it has any, an amplifier a bay for some of the ids. */
  datatype Wiring = Transmitter(input: Option<BayId>, output: Option<BayId>) | Amplifier(own: map<nat, BayId>) | Neither

  ghost function NoBays(f: RawFrame): BayMap { map i | i in Ids(f) :: None }

  function TreeRoot(f: RawFrame, feature: nat): Option<nat>
    requires feature > 0
  {
    OrderListed(f, EntryCount(f));
    FirstRoot(TreeFeatures(f), TreeEdges(f), TreeOrder(f), feature)
  }

  /** Every walk the report is followed down on returns. */
  ghost predicate Walks(f: RawFrame, w: Wiring) {
    var es := TreeEdges(f);
    match w
    case Transmitter(input, output) =>
      && (input.Some? && TreeRoot(f, FEATURE_OUTPUT).Some? ==> Returns(es, TreeRoot(f, FEATURE_OUTPUT).value))
      && (output.Some? && TreeRoot(f, FEATURE_INPUT).Some? ==> Returns(es, TreeRoot(f, FEATURE_INPUT).value))
    case Amplifier(own) => forall id :: id in Ids(f) && id in own ==> Returns(es, id)
    case Neither => true
  }

  /** The bay of each endpoint after the report. */
  ghost function Wired(f: RawFrame, w: Wiring): BayMap {
    var es := TreeEdges(f);
    match w
    case Transmitter(input, output) =>
      Attached(Attached(NoBays(f), es, TreeRoot(f, FEATURE_OUTPUT), input), es, TreeRoot(f, FEATURE_INPUT), output)
    case Amplifier(own) => AttachedEach(NoBays(f), es, TreeOrder(f), own)
    case Neither => NoBays(f)
  }

  /** Which endpoint each bay points to after a new report. */
  ghost function Repointed(eps: map<nat, AudioEndpoint>, ends: Ends, f: RawFrame, w: Wiring): Ends {
    match w
    case Transmitter(input, output) =>
      Pointed(eps, Pointed(eps, ends, TreeRoot(f, FEATURE_OUTPUT), input), TreeRoot(f, FEATURE_INPUT), output)
    case Amplifier(own) => PointedEach(eps, ends, TreeOrder(f), own)
    case Neither => ends
  }

  class AudioDevice {
    var audio: AudioEndpoints?
    var ends: Ends

    constructor ()
      ensures audio == null && ends == map[]
    {
      audio, ends := null, map[];
    }

    /** The same endpoints with the same features and named parents as the report's. */
    ghost predicate Has(f: RawFrame)
      reads this, audio, if audio == null then {} else audio.endpoints.Values
    {
      audio != null && audio.Features() == TreeFeatures(f) && audio.NamedParents() == TreeParents(f)
    }

    /** A report replaces the collection. Its endpoints and the bays are introduced to each
        other only when it differs from the one before. A repeated report leaves the new
        endpoints without a bay, and every bay pointing to an endpoint no longer there.
        Taking a report returns when the walks it is followed down on do. */
    method TakeFeatures(f: RawFrame, w: Wiring)
      requires !Has(f) ==> Walks(f, w)
      modifies this
      ensures audio != null && fresh(audio) && fresh(audio.endpoints.Values)
      ensures Has(f) && audio.Linked(TreeEdges(f)) && audio.order == TreeOrder(f)
      ensures audio.Bays() == if old(Has(f)) then NoBays(f) else Wired(f, w)
      ensures ends == if old(Has(f)) then old(ends) else Repointed(audio.endpoints, old(ends), f, w)
      ensures old(Has(f)) ==> forall b :: b in ends ==> ends[b] !in audio.endpoints.Values
    {
      hide AudioEndpoints.Linked;
      hide AudioEndpoints.Ordered;
      hide AudioEndpoints.NamedParents;
      hide AudioEndpoints.Features;
      hide AudioEndpoints.Bays;
      hide TreeFeatures;
      hide TreeParents;
      hide TreeOrder;
      hide TreeEdges;
      hide Walks;
      hide Wired;
      hide Repointed;
      var eps := ParseAudioEndpoints(f);
      var same := false;
      if audio != null {
        same := audio.Equal(eps);
      }
      audio := eps;
      if !same {
        ends := Attach(eps, f, w, ends);
      }
    }

    /** An audio frame of this device; only a features report concerns the collection. */
    method HandleAudio(f: RawFrame, w: Wiring)
      requires f.U16At(0) == Some(AUDIO_OP_FEATURES) && !Has(f) ==> Walks(f, w)
      modifies this
      ensures f.U16At(0) == Some(AUDIO_OP_FEATURES) ==>
                && Has(f) && audio.Bays() == (if old(Has(f)) then NoBays(f) else Wired(f, w))
                && ends == if old(Has(f)) then old(ends) else Repointed(audio.endpoints, old(ends), f, w)
      ensures f.U16At(0) != Some(AUDIO_OP_FEATURES) ==> audio == old(audio) && ends == old(ends)
    {
      var op := f.U16At(0);
      if op == Some(AUDIO_OP_FEATURES) {
        TakeFeatures(f, w);
      }
    }
  }

  /** Hands the trees of a newly parsed report to a device's bays. */
  method Attach(eps: AudioEndpoints, ghost f: RawFrame, w: Wiring, ends: Ends) returns (after: Ends)
    requires eps.Linked(TreeEdges(f)) && eps.Ordered() && eps.Bays() == NoBays(f)
    requires eps.Features() == TreeFeatures(f) && eps.order == TreeOrder(f) && Walks(f, w)
    modifies eps.endpoints.Values`bay
    ensures eps.Linked(TreeEdges(f)) && eps.Bays() == Wired(f, w)
    ensures after == Repointed(eps.endpoints, ends, f, w)
  {
    hide AudioEndpoints.Linked;
    hide AudioEndpoints.Features;
    hide AudioEndpoints.Bays;
    hide Returns;
    hide FirstRoot;
    hide FeaturesOf;
    hide OrderOf;
    hide EdgesOf;
    hide Attached;
    hide AttachedEach;
    hide Pointed;
    hide PointedEach;
    OrderListed(f, EntryCount(f));
    ghost var es := TreeEdges(f);
    after := ends;
    match w {
      case Transmitter(input, output) => after := eps.AttachBoth(input, output, after, es);
      case Amplifier(own) => after := eps.AttachEach(own, after, es);
      case Neither =>
    }
  }

  // ---- when a report can be followed ----

  /** A walk returns exactly when it meets no cycle, so a report can be taken exactly when
      no cycle lies below an endpoint it is followed down from. */
  lemma WalksIffAcyclic(f: RawFrame, w: Wiring)
    ensures var es := TreeEdges(f);
            Walks(f, w) <==>
            match w
            case Transmitter(input, output) =>
              && (input.Some? && TreeRoot(f, FEATURE_OUTPUT).Some? ==> AcyclicFrom(es, TreeRoot(f, FEATURE_OUTPUT).value))
              && (output.Some? && TreeRoot(f, FEATURE_INPUT).Some? ==> AcyclicFrom(es, TreeRoot(f, FEATURE_INPUT).value))
            case Amplifier(own) => forall id :: id in Ids(f) && id in own ==> AcyclicFrom(es, id)
            case Neither => true
  {
    hide Returns;
    hide AcyclicFrom;
    forall id: nat
      ensures Returns(TreeEdges(f), id) <==> AcyclicFrom(TreeEdges(f), id)
    {
      FinishesIffAcyclic(TreeEdges(f), id);
    }
  }

  /** Whether the k-th endpoint listed has a bay of its own and i below it. */
  ghost predicate Covers(es: seq<Edge>, order: seq<nat>, own: map<nat, BayId>, k: nat, i: nat)
    requires k < |order|
  {
    order[k] in own && Descendant(es, order[k], i)
  }

  /** An amplifier's endpoint ends up with the bay of the last endpoint listed that has one
      and this one below it, and with none where there is no such endpoint. */
  lemma {:induction false} LastCoverWins(bays: BayMap, es: seq<Edge>, order: seq<nat>, own: map<nat, BayId>, i: nat, k: nat)
    requires i in bays
    ensures var after := AttachedEach(bays, es, order, own);
            && i in after
            && ((forall j :: 0 <= j < |order| ==> !Covers(es, order, own, j, i)) ==> after[i] == bays[i])
            && (k < |order| && Covers(es, order, own, k, i) && (forall j :: k < j < |order| ==> !Covers(es, order, own, j, i))
                ==> after[i] == Some(own[order[k]]))
  {
    hide Descendant;
    if order != [] {
      var n := |order| - 1;
      LastCoverWins(bays, es, order[..n], own, i, k);
      assert forall j :: 0 <= j < n ==> Covers(es, order[..n], own, j, i) == Covers(es, order, own, j, i);
      assert Covers(es, order, own, n, i) <==> order[n] in own && Descendant(es, order[n], i);
    }
  }

  /** With at most one parent entry for each endpoint a transmitter can take every report,
      and the bays are set on exactly the trees of the two roots. */
  lemma OneParentReport(f: RawFrame, input: Option<BayId>, output: Option<BayId>, i: nat)
    requires AtMostOneParent(TreeEdges(f)) && i in Ids(f)
    ensures var w, es := Transmitter(input, output), TreeEdges(f);
            var inTree := TreeRoot(f, FEATURE_INPUT).Some? && Descendant(es, TreeRoot(f, FEATURE_INPUT).value, i);
            var outTree := TreeRoot(f, FEATURE_OUTPUT).Some? && Descendant(es, TreeRoot(f, FEATURE_OUTPUT).value, i);
            && Walks(f, w)
            && (inTree && outTree ==> TreeRoot(f, FEATURE_INPUT) == TreeRoot(f, FEATURE_OUTPUT))
            && i in Wired(f, w)
            && Wired(f, w)[i] == if inTree && output.Some? then output else if outTree && input.Some? then input else None
  {
    hide Descendant;
    hide FirstRoot;
    hide AtMostOneParent;
    hide FeaturesOf;
    hide EdgesOf;
    var es, inp, out := TreeEdges(f), TreeRoot(f, FEATURE_INPUT), TreeRoot(f, FEATURE_OUTPUT);
    if inp.Some? {
      TreeUnderRoot(es, inp.value);
      FinishesIffAcyclic(es, inp.value);
    }
    if out.Some? {
      TreeUnderRoot(es, out.value);
      FinishesIffAcyclic(es, out.value);
    }
    if inp.Some? && out.Some? && inp != out {
      TreesApart(es, inp.value, out.value, i);
    }
  }
}
