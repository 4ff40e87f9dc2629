/** What holds of a tree between operations, and that each way of inserting a key keeps it. */
module ArtInvariant {
  import opened TinyPtrs
  import opened DerefTables
  import opened Bytes
  import opened ArtShape
  import opened ArtNodes
  import opened ArtTables
  import opened ArtPhysical

  ghost function EdgesFrom(edges: map<Edge, Target>, p: Key): set<Edge> {
    set e | e in edges && e.path == p
  }

  /** The kind of a node follows from the number of its children; only the root is always an N256. */
  ghost predicate KindOk(b: Body, children: nat, isRoot: bool) {
    match b
    case N4(count, _, _) => !isRoot && count == children
    case N16(count, _, _) => !isRoot && count == children > 4
    case N256(_, _) => isRoot || children > 16
  }

  ghost predicate Kinds(store: Store, v: View) {
    forall p | p in v.inner :: NodeAt(store, v, p) && KindOk(NodeOf(store, v, p).body, |EdgesFrom(v.edges, p)|, p == [])
  }

  ghost function Used(v: View): set<Slot> {
    v.inner.Values + v.leaves.Values
  }

  /**
   * Every live slot is a node or leaf of the tree, waits to be freed, or was lost to an insert that ran out of space.
   */
  ghost predicate Conserved(store: Store, v: View, pending: set<Slot>, leaked: set<Slot>) {
    && store.Keys == Used(v) + pending + leaked
    && Used(v) !! pending !! leaked
  }

  ghost predicate TreeOk(env: Env, store: Store, v: View, pending: set<Slot>, leaked: set<Slot>) {
    && PrefixFree(v.keys.Keys) && ShapeOk(v.keys.Keys, v.inner.Keys, v.edges)
    && Physical(env, store, v) && Kinds(store, v) && Conserved(store, v, pending, leaked)
  }

  /** Slots outside the tree do not matter to it. */
  lemma OutsideSlots(env: Env, store: Store, store': Store, v: View)
    requires Physical(env, store, v) && Kinds(store, v)
    requires forall s | s in Used(v) :: s in store ==> s in store' && store'[s] == store[s]
    ensures Physical(env, store', v) && Kinds(store', v)
  {
    forall p | p in v.inner
      ensures NodeAt(store, v, p) && NodeAt(store', v, p) && NodeOf(store', v, p) == NodeOf(store, v, p)
    {
      assert v.inner[p] in Used(v);
    }
    forall p, b | p in v.inner ensures EdgeOk(env, store', v, p, b) {
      assert EdgeOk(env, store, v, p, b);
    }
    forall k | k in v.keys ensures LeafOk(env, store', v, k) {
      assert LeafOk(env, store, v, k);
      assert v.leaves[k] in Used(v);
    }
  }

  // ----- a leaf under a free edge

  lemma EdgesFromUpdate(edges: map<Edge, Target>, e: Edge, t: Target, p: Key)
    ensures EdgesFrom(edges[e := t], p) == if e.path == p then EdgesFrom(edges, p) + {e} else EdgesFrom(edges, p)
  {
  }

  lemma LeafAddedShape(v: View, p: Key, k: Key, tid: Tid, s: Slot)
    requires StopsAt(v.keys.Keys, v.inner.Keys, v.edges, p, k) && Edge(p, k[|p|]) !in v.edges
    ensures var v' := WithLeaf(v, p, k, tid, s);
            v'.keys.Keys == v.keys.Keys + {k} && ShapeOk(v'.keys.Keys, v'.inner.Keys, v'.edges)
  {
    AddAtFreeEdge(v.keys.Keys, v.inner.Keys, v.edges, p, k);
    assert WithLeaf(v, p, k, tid, s).keys.Keys == v.keys.Keys + {k};
  }

  lemma LeafAddedKinds(env: Env, store: Store, v: View, p: Key, k: Key, tid: Tid, s: Slot, n': Node, ptr: TinyPtr)
    requires AddsLeaf(env, store, v, p, k, tid, s, n', ptr) && Edge(p, k[|p|]) !in v.edges
    requires forall q | q in v.inner && q != p :: KindOk(NodeOf(store, v, q).body, |EdgesFrom(v.edges, q)|, q == [])
    requires KindOk(n'.body, |EdgesFrom(v.edges, p)| + 1, p == [])
    ensures Kinds(store[s := Leaf(tid)][v.inner[p] := Inner(n')], WithLeaf(v, p, k, tid, s))
  {
    LeafAddedNodes(env, store, v, p, k, tid, s, n', ptr);
    var v' := WithLeaf(v, p, k, tid, s);
    hide Physical, KindOk, EdgesFrom, NodeChildSet;
    forall q | q in v.inner ensures |EdgesFrom(v'.edges, q)| == |EdgesFrom(v.edges, q)| + if q == p then 1 else 0 {
      EdgesFromUpdate(v.edges, Edge(p, k[|p|]), ToLeaf(k), q);
    }
  }

  lemma LeafAddedSlots(env: Env, store: Store, v: View, p: Key, k: Key, tid: Tid, s: Slot, n': Node,
                       pending: set<Slot>, leaked: set<Slot>)
    requires Conserved(store, v, pending, leaked) && p in v.inner && |p| < |k| && k !in v.leaves && s !in store
    ensures Conserved(store[s := Leaf(tid)][v.inner[p] := Inner(n')], WithLeaf(v, p, k, tid, s), pending, leaked)
  {
    ValuesAdded(v.leaves, k, s);
    assert v.inner[p] in Used(v);
  }

  lemma ValuesAdded(m: map<Key, Slot>, k: Key, s: Slot)
    requires k !in m
    ensures m[k := s].Values == m.Values + {s}
  {
    var m' := m[k := s];
    assert m'[k] == s;
    forall x | x in m.Values ensures x in m'.Values {
      var q :| q in m && m[q] == x;
      assert m'[q] == x;
    }
  }

  lemma ValuesReplaced(m: map<Key, Slot>, k: Key, s: Slot)
    requires k in m && Injective(m)
    ensures m[k := s].Values == m.Values - {m[k]} + {s}
  {
    var m' := m[k := s];
    assert m'[k] == s;
    forall x | x in m.Values && x != m[k] ensures x in m'.Values {
      var q :| q in m && m[q] == x;
      assert m'[q] == x;
    }
  }

  /** Plain insert: the node has room. */
  lemma PlainInsert(env: Env, store: Store, v: View, p: Key, k: Key, tid: Tid, s: Slot, n': Node, ptr: TinyPtr,
                    pending: set<Slot>, leaked: set<Slot>)
    requires TreeOk(env, store, v, pending, leaked) && PrefixFree(v.keys.Keys + {k})
    requires AddsLeaf(env, store, v, p, k, tid, s, n', ptr)
    requires StopsAt(v.keys.Keys, v.inner.Keys, v.edges, p, k) && Edge(p, k[|p|]) !in v.edges
    requires !IsFull(NodeOf(store, v, p).body) && n'.body.count == (NodeOf(store, v, p).body.count + 1) % 256
    ensures TreeOk(env, store[s := Leaf(tid)][v.inner[p] := Inner(n')], WithLeaf(v, p, k, tid, s), pending, leaked)
  {
    hide Conserved, Injective;
    LeafAddedShape(v, p, k, tid, s);
    LeafAdded(env, store, v, p, k, tid, s, n', ptr);
    KindAfterInsert(NodeOf(store, v, p).body, n'.body, |EdgesFrom(v.edges, p)|, p == []);
    hide Physical, WithLeaf, KindOk, NodeChildSet;
    LeafAddedKinds(env, store, v, p, k, tid, s, n', ptr);
    LeafAddedSlots(env, store, v, p, k, tid, s, n', pending, leaked);
  }

  lemma KindAfterInsert(b: Body, b': Body, children: nat, isRoot: bool)
    requires WellFormed(b) && WellFormed(b') && KindOk(b, children, isRoot)
    requires !IsFull(b) && Tag(b') == Tag(b) && b'.count == (b.count + 1) % 256
    ensures KindOk(b', children + 1, isRoot)
  {
  }

  // ----- a full node replaced by a bigger copy

  /**
   * What growing a full node writes: its copy in slot s, the upper end u' of its edge, the new leaf, the final node.
   */
  datatype Growth = Growth(e: Edge, s: Slot, copy: Node, u: Node, ptr: TinyPtr,
                           k: Key, tid: Tid, sK: Slot, big: Node, ptrK: TinyPtr)

  ghost predicate Grows(env: Env, store: Store, v: View, g: Growth) {
    && MovesNode(env, store, v, g.e, g.s, g.copy, g.u, g.ptr)
    && var p := v.edges[g.e].path;
       && StopsAt(v.keys.Keys, v.inner.Keys, v.edges, p, g.k) && Edge(p, g.k[|p|]) !in v.edges && g.k !in v.keys
       && NodeAt(store, v, p) && IsFull(NodeOf(store, v, p).body)
       && g.copy.body.count == NodeOf(store, v, p).body.count && Tag(g.copy.body) == Tag(NodeOf(store, v, p).body) + 1
       && NodeAt(store, v, g.e.path) && g.u.body.count == NodeOf(store, v, g.e.path).body.count
       && g.sK !in store && g.sK != g.s && env.loadKey(g.tid) == g.k && g.tid != 0
       && NodeChildSet(g.copy, g.big, g.k[|p|], g.ptrK) && g.big.body.count == (g.copy.body.count + 1) % 256
       && Leads(env, g.big.id, g.k[|p|], g.ptrK, g.sK)
  }

  ghost function GrownStore(store: Store, v: View, g: Growth): Store
    requires g.e.path in v.inner
  {
    MovedStore(store, v, g.e, g.s, g.copy, g.u)[g.sK := Leaf(g.tid)][g.s := Inner(g.big)]
  }

  ghost function GrownView(v: View, g: Growth): View
    requires g.e in v.edges && |TargetPath(v.edges[g.e])| < |g.k|
  {
    var p := TargetPath(v.edges[g.e]);
    WithLeaf(Moved(v, p, g.s), p, g.k, g.tid, g.sK)
  }

  lemma GrowInsert(env: Env, store: Store, v: View, g: Growth, pending: set<Slot>, leaked: set<Slot>)
    requires TreeOk(env, store, v, pending, leaked) && PrefixFree(v.keys.Keys + {g.k}) && Grows(env, store, v, g)
    ensures v.edges[g.e].path in v.inner
    ensures TreeOk(env, GrownStore(store, v, g), GrownView(v, g), pending + {v.inner[v.edges[g.e].path]}, leaked)
  {
    var p := v.edges[g.e].path;
    var store1, v1 := MovedStore(store, v, g.e, g.s, g.copy, g.u), Moved(v, p, g.s);
    GrowPhysical(env, store, v, g);
    GrowKinds(env, store, v, g);
    GrowSlots(env, store, v, g, pending, leaked);
    assert v1.inner.Keys == v.inner.Keys && v1.keys == v.keys && v1.edges == v.edges;
    LeafAddedShape(v1, p, g.k, g.tid, g.sK);
  }

  lemma GrowPhysical(env: Env, store: Store, v: View, g: Growth)
    requires Grows(env, store, v, g)
    ensures var p := v.edges[g.e].path;
            var store1, v1 := MovedStore(store, v, g.e, g.s, g.copy, g.u), Moved(v, p, g.s);
            && p in v.inner && v1.inner.Keys == v.inner.Keys
            && AddsLeaf(env, store1, v1, p, g.k, g.tid, g.sK, g.big, g.ptrK)
            && Physical(env, GrownStore(store, v, g), GrownView(v, g))
  {
    hide LeafOk, Leads;
    var p := v.edges[g.e].path;
    var store1, v1 := MovedStore(store, v, g.e, g.s, g.copy, g.u), Moved(v, p, g.s);
    NodeMoved(env, store, v, g.e, g.s, g.copy, g.u, g.ptr);
    NodeMovedNodes(env, store, v, g.e, g.s, g.copy, g.u, g.ptr);
    InnerOfNode(store, v, p);
    InnerOfNode(store, v, g.e.path);
    BeyondStop(v, p, g.k);
    assert AddsLeaf(env, store1, v1, p, g.k, g.tid, g.sK, g.big, g.ptrK);
    LeafAdded(env, store1, v1, p, g.k, g.tid, g.sK, g.big, g.ptrK);
  }

  lemma InnerOfNode(store: Store, v: View, p: Key)
    requires NodeAt(store, v, p)
    ensures p in v.inner && v.inner[p] in store
  {
  }

  lemma BeyondStop(v: View, p: Key, k: Key)
    requires StopsAt(v.keys.Keys, v.inner.Keys, v.edges, p, k)
    ensures |p| < |k|
  {
  }

  lemma GrowKinds(env: Env, store: Store, v: View, g: Growth)
    requires Kinds(store, v) && Grows(env, store, v, g) && v.edges[g.e].path in v.inner
    ensures Kinds(GrownStore(store, v, g), GrownView(v, g))
  {
    var p := v.edges[g.e].path;
    var store1, v1 := MovedStore(store, v, g.e, g.s, g.copy, g.u), Moved(v, p, g.s);
    GrowPhysical(env, store, v, g);
    OtherKinds(env, store, v, g);
    KindAfterGrowth(NodeOf(store, v, p).body, g.copy.body, g.big.body, |EdgesFrom(v.edges, p)|);
    LeafAddedKinds(env, store1, v1, p, g.k, g.tid, g.sK, g.big, g.ptrK);
  }

  lemma OtherKinds(env: Env, store: Store, v: View, g: Growth)
    requires Kinds(store, v) && Grows(env, store, v, g) && v.edges[g.e].path in v.inner
    ensures var p := v.edges[g.e].path;
            var store1, v1 := MovedStore(store, v, g.e, g.s, g.copy, g.u), Moved(v, p, g.s);
            forall q | q in v1.inner && q != p ::
              NodeAt(store1, v1, q) && KindOk(NodeOf(store1, v1, q).body, |EdgesFrom(v1.edges, q)|, q == [])
  {
    var p := v.edges[g.e].path;
    NodeMovedNodes(env, store, v, g.e, g.s, g.copy, g.u, g.ptr);
    assert Tag(g.u.body) == Tag(NodeOf(store, v, g.e.path).body);
    forall q | q in v.inner && q != p
      ensures var store1, v1 := MovedStore(store, v, g.e, g.s, g.copy, g.u), Moved(v, p, g.s);
              NodeAt(store1, v1, q) && KindOk(NodeOf(store1, v1, q).body, |EdgesFrom(v1.edges, q)|, q == [])
    {
      assert NodeAt(store, v, q) && KindOk(NodeOf(store, v, q).body, |EdgesFrom(v.edges, q)|, q == []);
      if q == g.e.path {
        SameKind(NodeOf(store, v, q).body, g.u.body, |EdgesFrom(v.edges, q)|, q == []);
      }
    }
  }

  lemma KindAfterGrowth(b: Body, copy: Body, big: Body, children: nat)
    requires WellFormed(b) && WellFormed(copy) && WellFormed(big) && KindOk(b, children, false) && IsFull(b)
    requires Tag(copy) == Tag(b) + 1 && copy.count == b.count
    requires Tag(big) == Tag(copy) && big.count == (copy.count + 1) % 256
    ensures KindOk(big, children + 1, false)
  {
  }

  lemma SameKind(b: Body, b': Body, children: nat, isRoot: bool)
    requires Tag(b') == Tag(b) && b'.count == b.count && KindOk(b, children, isRoot)
    ensures KindOk(b', children, isRoot)
  {
  }

  lemma GrowSlots(env: Env, store: Store, v: View, g: Growth, pending: set<Slot>, leaked: set<Slot>)
    requires Conserved(store, v, pending, leaked) && Grows(env, store, v, g) && v.edges[g.e].path in v.inner
    ensures Conserved(GrownStore(store, v, g), GrownView(v, g), pending + {v.inner[v.edges[g.e].path]}, leaked)
  {
    hide Physical, NodeAt, ShapeOk, Injective, NodeChildSet;
    var p := v.edges[g.e].path;
    BeyondStop(v, p, g.k);
    GrowUsed(env, store, v, g);
    GrowKeys(env, store, v, g);
    InnerUsed(v, p);
    SlotsStep(store, v, GrownStore(store, v, g), GrownView(v, g), pending, leaked, {v.inner[p]}, {g.s, g.sK});
  }

  lemma InnerUsed(v: View, p: Key)
    requires p in v.inner
    ensures v.inner[p] in Used(v)
  {
  }

  /** Slots taken out of the tree go to the pending ones, slots added come from outside. */
  lemma SlotsStep(store: Store, v: View, store': Store, v': View, pending: set<Slot>, leaked: set<Slot>,
                  gone: set<Slot>, added: set<Slot>)
    requires Conserved(store, v, pending, leaked) && gone <= Used(v) && added !! store.Keys
    requires Used(v') == Used(v) - gone + added && store'.Keys == store.Keys + added
    ensures Conserved(store', v', pending + gone, leaked)
  {
    hide Used;
  }

  lemma GrowUsed(env: Env, store: Store, v: View, g: Growth)
    requires Grows(env, store, v, g) && v.edges[g.e].path in v.inner
    ensures Used(GrownView(v, g)) == Used(v) - {v.inner[v.edges[g.e].path]} + {g.s, g.sK}
  {
    var p := v.edges[g.e].path;
    InnerNotLeaf(env, store, v, p);
    assert v.leaves.Keys == v.keys.Keys && Injective(v.inner);
    OneMovedOneAdded(v.inner, v.leaves, p, g.s, g.k, g.sK);
    hide Physical, Injective, StopsAt, WellFormed, NodeChildSet, MovedStore, NodeAt, SameHead;
  }

  lemma OneMovedOneAdded(inner: map<Key, Slot>, leaves: map<Key, Slot>, p: Key, s: Slot, k: Key, sK: Slot)
    requires p in inner && Injective(inner) && k !in leaves && inner[p] !in leaves.Values
    ensures inner[p := s].Values + leaves[k := sK].Values == inner.Values + leaves.Values - {inner[p]} + {s, sK}
  {
    ValuesReplaced(inner, p, s);
    ValuesAdded(leaves, k, sK);
  }

  lemma GrowKeys(env: Env, store: Store, v: View, g: Growth)
    requires Grows(env, store, v, g)
    ensures GrownStore(store, v, g).Keys == store.Keys + {g.s, g.sK} && g.s !in store && g.sK !in store
  {
    assert v.inner[g.e.path] in store;
  }

  lemma InnerNotLeaf(env: Env, store: Store, v: View, p: Key)
    requires Physical(env, store, v) && p in v.inner
    ensures v.inner[p] !in v.leaves.Values
  {
    assert NodeAt(store, v, p);
    assert forall k | k in v.leaves :: LeafOk(env, store, v, k);
  }

  lemma LeafNotInner(env: Env, store: Store, v: View, k: Key)
    requires Physical(env, store, v) && k in v.leaves
    ensures v.leaves[k] !in v.inner.Values
  {
    assert LeafOk(env, store, v, k);
    assert forall p | p in v.inner :: NodeAt(store, v, p);
  }

  // ----- an inner node put into an edge

  /** A new node with two children, above an edge whose target moves; leaf splits and prefix splits alike. */
  ghost predicate SplitsHere(env: Env, store: Store, v: View, x: Splitting) {
    && SplitsEdge(env, store, v, x)
    && StopsAt(v.keys.Keys, v.inner.Keys, v.edges, x.p, x.k)
    && Diverge(x.r, x.k, TargetPath(v.edges[SplitEdge(x)])) && Under(x.p, x.k[|x.p|], x.r)
    && x.nR.body.N4? && x.nR.body.count == 2
    && NodeAt(store, v, x.p) && x.u.body.count == NodeOf(store, v, x.p).body.count
  }

  ghost function OldSlot(v: View, x: Splitting): Slot
    requires |x.p| < |x.k| && SplitEdge(x) in v.edges
  {
    TargetSlot(v, v.edges[SplitEdge(x)])
  }

  lemma SplitInsert(env: Env, store: Store, v: View, x: Splitting, pending: set<Slot>, leaked: set<Slot>)
    requires TreeOk(env, store, v, pending, leaked) && PrefixFree(v.keys.Keys + {x.k}) && SplitsHere(env, store, v, x)
    ensures TreeOk(env, SplitStore(store, v, x), SplitView(v, x), pending + {OldSlot(v, x)}, leaked)
  {
    EdgeSplit(env, store, v, x);
    SplitShape(env, store, v, x);
    SplitKinds(env, store, v, x);
    SplitSlots(env, store, v, x, pending, leaked);
  }

  lemma SplitShape(env: Env, store: Store, v: View, x: Splitting)
    requires SplitsHere(env, store, v, x)
    ensures var v' := SplitView(v, x);
            v'.keys.Keys == v.keys.Keys + {x.k} && ShapeOk(v'.keys.Keys, v'.inner.Keys, v'.edges)
  {
    hide Physical, ShapeOk, MovedTarget, SplitNode, StopsAt, NodeChildSet;
    EdgeSplitSlots(env, store, v, x);
    AddAtSplit(v.keys.Keys, v.inner.Keys, v.edges, x.p, x.k, x.r);
    assert SplitView(v, x).keys.Keys == v.keys.Keys + {x.k};
  }

  lemma SplitKinds(env: Env, store: Store, v: View, x: Splitting)
    requires Kinds(store, v) && SplitsHere(env, store, v, x)
    ensures Kinds(SplitStore(store, v, x), SplitView(v, x))
  {
    var store', v' := SplitStore(store, v, x), SplitView(v, x);
    forall q | q in v'.inner
      ensures NodeAt(store', v', q) && KindOk(NodeOf(store', v', q).body, |EdgesFrom(v'.edges, q)|, q == [])
    {
      EdgeSplitNode(env, store, v, x, q);
      SplitEdgesFrom(v, x, q);
      if q != x.r {
        OldKind(store, v, q);
        BodyKept(store, v, x, q);
        SameKind(NodeOf(store, v, q).body, NodeOf(store', v', q).body, |EdgesFrom(v.edges, q)|, q == []);
      }
    }
  }

  lemma OldKind(store: Store, v: View, q: Key)
    requires Kinds(store, v) && q in v.inner
    ensures NodeAt(store, v, q) && KindOk(NodeOf(store, v, q).body, |EdgesFrom(v.edges, q)|, q == [])
  {
  }

  lemma BodyKept(store: Store, v: View, x: Splitting, q: Key)
    requires NodeAt(store, v, q) && |x.p| < |x.k| && SplitEdge(x) in v.edges
    requires MovedTarget(store, v, v.edges[SplitEdge(x)], x.r, x.item)
    requires NodeAt(store, v, x.p) && NodeChildSet(NodeOf(store, v, x.p), x.u, x.k[|x.p|], x.ptrR)
    requires x.u.body.count == NodeOf(store, v, x.p).body.count
    ensures var n := if v.edges[SplitEdge(x)] == ToInner(q) then x.item.node
                     else if q == x.p then x.u else NodeOf(store, v, q);
            Tag(n.body) == Tag(NodeOf(store, v, q).body) && n.body.count == NodeOf(store, v, q).body.count
  {
    hide Compressed;
  }

  lemma SplitEdgesFrom(v: View, x: Splitting, q: Key)
    requires |x.p| < |x.k| && |x.r| < |x.k| && SplitEdge(x) in v.edges && |x.r| < |TargetPath(v.edges[SplitEdge(x)])|
    requires (forall e | e in v.edges :: e.path in v.inner) && x.r !in v.inner && x.r != x.p
    requires x.k[|x.r|] != TargetPath(v.edges[SplitEdge(x)])[|x.r|]
    ensures q != x.r ==> EdgesFrom(SplitView(v, x).edges, q) == EdgesFrom(v.edges, q)
    ensures |EdgesFrom(SplitView(v, x).edges, x.r)| == 2
  {
    var c := TargetPath(v.edges[SplitEdge(x)])[|x.r|];
    var e1, e2, e3 := SplitEdge(x), Edge(x.r, x.k[|x.r|]), Edge(x.r, c);
    var t := v.edges[e1];
    var m1 := v.edges[e1 := ToInner(x.r)];
    var m2 := m1[e2 := ToLeaf(x.k)];
    assert SplitView(v, x).edges == m2[e3 := t];
    EdgesFromUpdate(v.edges, e1, ToInner(x.r), q);
    EdgesFromUpdate(m1, e2, ToLeaf(x.k), q);
    EdgesFromUpdate(m2, e3, t, q);
    EdgesFromUpdate(v.edges, e1, ToInner(x.r), x.r);
    EdgesFromUpdate(m1, e2, ToLeaf(x.k), x.r);
    EdgesFromUpdate(m2, e3, t, x.r);
    assert EdgesFrom(v.edges, x.r) == {};
    assert EdgesFrom(SplitView(v, x).edges, x.r) == {e2, e3};
  }

  lemma SplitSlots(env: Env, store: Store, v: View, x: Splitting, pending: set<Slot>, leaked: set<Slot>)
    requires Conserved(store, v, pending, leaked) && SplitsHere(env, store, v, x)
    ensures Conserved(SplitStore(store, v, x), SplitView(v, x), pending + {OldSlot(v, x)}, leaked)
  {
    SplitUsed(env, store, v, x);
    SplitKeys(env, store, v, x);
    SlotsStep(store, v, SplitStore(store, v, x), SplitView(v, x), pending, leaked, {OldSlot(v, x)}, {x.sR, x.sK, x.sT});
  }

  lemma SplitUsed(env: Env, store: Store, v: View, x: Splitting)
    requires SplitsEdge(env, store, v, x)
    ensures OldSlot(v, x) in Used(v)
    ensures Used(SplitView(v, x)) == Used(v) - {OldSlot(v, x)} + {x.sR, x.sK, x.sT}
  {
    var t := v.edges[SplitEdge(x)];
    assert EdgeOk(env, store, v, x.p, x.k[|x.p|]);
    assert v.leaves.Keys == v.keys.Keys;
    if t.ToInner? {
      InnerOfNode(store, v, t.path);
      InnerNotLeaf(env, store, v, t.path);
    } else {
      LeafNotInner(env, store, v, t.key);
    }
    UsedAfterSplit(v, x, t);
  }

  lemma UsedAfterSplit(v: View, x: Splitting, t: Target)
    requires |x.p| < |x.k| && |x.r| < |x.k| && SplitEdge(x) in v.edges && t == v.edges[SplitEdge(x)]
    requires |x.r| < |TargetPath(t)| && x.r !in v.inner && x.k !in v.leaves && Injective(v.inner) && Injective(v.leaves)
    requires t.ToInner? ==> t.path in v.inner && v.inner[t.path] !in v.leaves.Values
    requires t.ToLeaf? ==> t.key in v.leaves && v.leaves[t.key] !in v.inner.Values
    ensures OldSlot(v, x) in Used(v)
    ensures Used(SplitView(v, x)) == Used(v) - {OldSlot(v, x)} + {x.sR, x.sK, x.sT}
  {
    hide Split;
    if t.ToInner? {
      ValuesReplaced(v.inner, t.path, x.sT);
      ValuesAdded(v.inner[t.path := x.sT], x.r, x.sR);
      ValuesAdded(v.leaves, x.k, x.sK);
    } else {
      ValuesReplaced(v.leaves, t.key, x.sT);
      ValuesAdded(v.leaves[t.key := x.sT], x.k, x.sK);
      ValuesAdded(v.inner, x.r, x.sR);
    }
  }

  lemma SplitKeys(env: Env, store: Store, v: View, x: Splitting)
    requires SplitsEdge(env, store, v, x)
    ensures SplitStore(store, v, x).Keys == store.Keys + {x.sR, x.sK, x.sT}
    ensures {x.sR, x.sK, x.sT} !! store.Keys
  {
    InnerOfNode(store, v, x.p);
  }
}
