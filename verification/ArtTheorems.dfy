/** What is true of every tree that was built by inserts, whatever the hash and id functions are. */
module ArtTheorems {
  import opened TinyPtrs
  import opened DerefTables
  import opened DeletionLists
  import opened Bytes
  import opened ArtShape
  import opened ArtNodes
  import opened ArtTables
  import opened ArtEpoch
  import opened ArtPhysical
  import opened ArtInvariant
  import opened ArtLookup
  import opened ArtTrees

  // ----- every pointer belongs to one edge

  /** The slot an edge's pointer resolves to under the hashes of that edge. */
  ghost predicate ResolvesTo(env: Env, store: Store, v: View, e: Edge, s: Slot) {
    && NodeAt(store, v, e.path)
    && Leads(env, NodeOf(store, v, e.path).id, e.byte, Child(NodeOf(store, v, e.path).body, e.byte), s)
  }

  lemma Resolves(env: Env, store: Store, v: View, pending: set<Slot>, leaked: set<Slot>, e: Edge)
    requires TreeOk(env, store, v, pending, leaked) && e in v.edges
    ensures ResolvesTo(env, store, v, e, TargetSlot(v, v.edges[e])) && TargetSlot(v, v.edges[e]) in store
    ensures TargetSlot(v, v.edges[e]) !in pending
    ensures v.edges[e].ToInner? ==> v.edges[e].path in v.inner
    ensures v.edges[e].ToLeaf? ==> v.edges[e].key in v.leaves
  {
    var t := v.edges[e];
    assert NodeAt(store, v, e.path) && EdgeOk(env, store, v, e.path, e.byte);
    if t.ToInner? {
      InUse(store, v, pending, leaked, t.path);
    } else {
      assert LeafOk(env, store, v, t.key);
      LeafInUse(store, v, pending, leaked, t.key);
    }
  }

  /** Each edge resolves to a live slot that no other edge resolves to and that nobody is about to free. */
  lemma HashCoherence(env: Env, store: Store, v: View, pending: set<Slot>, leaked: set<Slot>, e: Edge, f: Edge, s: Slot)
    requires TreeOk(env, store, v, pending, leaked) && e in v.edges && f in v.edges && ResolvesTo(env, store, v, e, s)
    ensures s in store && s !in pending
    ensures ResolvesTo(env, store, v, f, s) ==> f == e
  {
    hide ShapeOk, Kinds, Conserved;
    Resolves(env, store, v, pending, leaked, e);
    Resolves(env, store, v, pending, leaked, f);
    if ResolvesTo(env, store, v, f, s) {
      SlotsDiffer(env, store, v, v.edges[e], v.edges[f]);
      OneEdgePerTarget(v.keys.Keys, v.inner.Keys, v.edges, e, f);
    }
  }

  lemma SlotsDiffer(env: Env, store: Store, v: View, t: Target, u: Target)
    requires Physical(env, store, v) && TargetSlot(v, t) == TargetSlot(v, u)
    requires if t.ToInner? then t.path in v.inner else t.key in v.leaves
    requires if u.ToInner? then u.path in v.inner else u.key in v.leaves
    ensures t == u
  {
    if t.ToInner? != u.ToInner? {
      InnerNotLeaf(env, store, v, if t.ToInner? then t.path else u.path);
      assert false;
    }
  }

  // ----- the order of inserts does not matter

  /** The same node, apart from ids, slots, and prefix bytes beyond the prefix. */
  ghost predicate LooksLike(n: Node, m: Node) {
    && WellFormed(n.body) && WellFormed(m.body) && Tag(n.body) == Tag(m.body) && n.prefixLength == m.prefixLength
    && |n.prefix| == |m.prefix| == MAX_STORED_PREFIX
    && (forall i | 0 <= i < Min(n.prefixLength, MAX_STORED_PREFIX) :: n.prefix[i] == m.prefix[i])
    && forall b :: Child(n.body, b) == Null <==> Child(m.body, b) == Null
  }

  lemma SameKinds(b: Body, c: Body, children: nat, isRoot: bool)
    requires WellFormed(b) && WellFormed(c) && KindOk(b, children, isRoot) && KindOk(c, children, isRoot)
    ensures Tag(b) == Tag(c)
  {
  }

  lemma SamePrefix(n: Node, m: Node, above: Key, path: Key)
    requires Compressed(n, above, path) && Compressed(m, above, path)
    ensures n.prefixLength == m.prefixLength && |n.prefix| == |m.prefix| == MAX_STORED_PREFIX
    ensures forall i | 0 <= i < Min(n.prefixLength, MAX_STORED_PREFIX) :: n.prefix[i] == m.prefix[i]
  {
  }

  lemma ChildIffEdge(env: Env, store: Store, v: View, p: Key, b: Byte)
    requires Physical(env, store, v) && p in v.inner
    ensures NodeAt(store, v, p) && (Child(NodeOf(store, v, p).body, b) == Null <==> Edge(p, b) !in v.edges)
  {
    assert NodeAt(store, v, p) && EdgeOk(env, store, v, p, b);
  }

  lemma PrefixAbove(env: Env, store: Store, v: View, e: Edge, p: Key)
    requires Physical(env, store, v) && e in v.edges && e.path in v.inner && v.edges[e] == ToInner(p)
    ensures NodeAt(store, v, p) && Compressed(NodeOf(store, v, p), e.path, p)
  {
    assert NodeAt(store, v, e.path) && EdgeOk(env, store, v, e.path, e.byte);
  }

  /** Trees over the same keys have the same inner nodes, and each looks the same in both. */
  lemma OrderIndependent(env1: Env, st1: Store, v1: View, pending1: set<Slot>, leaked1: set<Slot>,
                         env2: Env, st2: Store, v2: View, pending2: set<Slot>, leaked2: set<Slot>)
    requires TreeOk(env1, st1, v1, pending1, leaked1) && TreeOk(env2, st2, v2, pending2, leaked2)
    requires v1.keys.Keys == v2.keys.Keys
    ensures v1.inner.Keys == v2.inner.Keys && v1.edges == v2.edges
    ensures forall p | p in v1.inner :: NodeAt(st1, v1, p) && NodeAt(st2, v2, p)
                                        && LooksLike(NodeOf(st1, v1, p), NodeOf(st2, v2, p))
  {
    hide ShapeOk, Physical, Kinds, Conserved, LooksLike, NodeAt, NodeOf, PrefixFree;
    ShapeIsUnique(v1.keys.Keys, v1.inner.Keys, v1.edges, v2.inner.Keys, v2.edges);
    forall p | p in v1.inner
      ensures NodeAt(st1, v1, p) && NodeAt(st2, v2, p) && LooksLike(NodeOf(st1, v1, p), NodeOf(st2, v2, p))
    {
      SameNode(env1, st1, v1, env2, st2, v2, p);
    }
  }

  lemma SameNode(env1: Env, st1: Store, v1: View, env2: Env, st2: Store, v2: View, p: Key)
    requires Physical(env1, st1, v1) && Kinds(st1, v1) && Physical(env2, st2, v2) && Kinds(st2, v2)
    requires ShapeOk(v1.keys.Keys, v1.inner.Keys, v1.edges) && PrefixFree(v1.keys.Keys)
    requires v1.inner.Keys == v2.inner.Keys && v1.edges == v2.edges && p in v1.inner
    ensures NodeAt(st1, v1, p) && NodeAt(st2, v2, p) && LooksLike(NodeOf(st1, v1, p), NodeOf(st2, v2, p))
  {
    hide Physical, KindOk, WellFormed, Child, Compressed, ShapeOk, PrefixFree;
    OldKind(st1, v1, p);
    OldKind(st2, v2, p);
    SameKinds(NodeOf(st1, v1, p).body, NodeOf(st2, v2, p).body, |EdgesFrom(v1.edges, p)|, p == []);
    forall b ensures Child(NodeOf(st1, v1, p).body, b) == Null <==> Child(NodeOf(st2, v2, p).body, b) == Null {
      ChildIffEdge(env1, st1, v1, p, b);
      ChildIffEdge(env2, st2, v2, p, b);
    }
    RootIsBare(env1, st1, v1);
    RootIsBare(env2, st2, v2);
    if p != [] {
      var e := EdgeAt(v1, p);
      PrefixAbove(env1, st1, v1, e, p);
      PrefixAbove(env2, st2, v2, e, p);
      SamePrefix(NodeOf(st1, v1, p), NodeOf(st2, v2, p), e.path, p);
    }
  }

  lemma RootIsBare(env: Env, store: Store, v: View)
    requires Physical(env, store, v)
    ensures NodeAt(store, v, []) && NodeOf(store, v, []).prefixLength == 0
  {
  }

  lemma EdgeAt(v: View, p: Key) returns (e: Edge)
    requires ShapeOk(v.keys.Keys, v.inner.Keys, v.edges) && PrefixFree(v.keys.Keys) && p in v.inner && p != []
    ensures e in v.edges && e.path in v.inner && v.edges[e] == ToInner(p)
  {
    e := EdgeInto(v.keys.Keys, v.inner.Keys, v.edges, [], ToInner(p));
  }

  // ----- size

  ghost predicate Branches(store: Store, v: View, p: Key, b: Byte, c: Byte) {
    && NodeAt(store, v, p) && b != c
    && Child(NodeOf(store, v, p).body, b) != Null && Child(NodeOf(store, v, p).body, c) != Null
  }

  lemma TwoPointers(env: Env, store: Store, v: View, p: Key) returns (b: Byte, c: Byte)
    requires Physical(env, store, v) && ShapeOk(v.keys.Keys, v.inner.Keys, v.edges) && p in v.inner && p != []
    ensures Branches(store, v, p, b, c)
  {
    hide Physical, ShapeOk, Child, WellFormed;
    b, c := TwoChildren(v.keys.Keys, v.inner.Keys, v.edges, p);
    ChildIffEdge(env, store, v, p, b);
    ChildIffEdge(env, store, v, p, c);
  }

  /** Inner nodes other than the root branch, so there are fewer of them than keys. */
  lemma SizeBound(env: Env, store: Store, v: View, pending: set<Slot>, leaked: set<Slot>)
    requires TreeOk(env, store, v, pending, leaked) && v.keys != map[]
    ensures |v.inner.Keys - {[]}| < |v.keys.Keys|
    ensures forall p | p in v.inner && p != [] :: exists b, c :: Branches(store, v, p, b, c)
  {
    hide Physical, Kinds, Conserved, PrefixFree, Branches, EdgesOk;
    InnerCount(v.keys.Keys, v.inner.Keys);
    forall p | p in v.inner && p != []
      ensures exists b, c :: Branches(store, v, p, b, c)
    {
      var b, c := TwoPointers(env, store, v, p);
    }
  }

  // ----- the same, of a tree

  /** Everything that lives in the tables is a node, a leaf, waits to be freed or was lost, each in one way only. */
  lemma SlotsConserved(t: Tree)
    requires t.Valid()
    ensures t.tables.store.Keys == t.v.inner.Values + t.v.leaves.Values + t.Pending() + t.leaked
    ensures t.v.inner.Values + t.v.leaves.Values !! t.Pending() && t.Pending() !! t.leaked
    ensures t.v.inner.Values + t.v.leaves.Values !! t.leaked
    ensures forall x | x in t.epoche.Pending() ::
              Resolvable(t.tables, x) && t.tables.Locate(x.ptr, x.hashes) in t.tables.store
    ensures NoRepeats(Slots(t.tables, t.epoche.Pending()))
  {
    hide ArtDerefTables.Valid, DeletionList.Valid, ShapeOk, Physical, Kinds, PrefixFree, KindsMatch, Entries, NoRepeats;
    var es := t.epoche.Pending();
    forall x | x in es
      ensures Resolvable(t.tables, x) && t.tables.Locate(x.ptr, x.hashes) in t.tables.store
    {
      var i :| 0 <= i < |es| && es[i] == x;
      assert Slots(t.tables, es)[i] == SlotOf(t.tables, x) && Slots(t.tables, es)[i] in Slots(t.tables, es);
    }
  }

  lemma SameKeysSameShape(a: Tree, b: Tree)
    requires a.Valid() && b.Valid() && a.Contents().Keys == b.Contents().Keys
    ensures a.v.inner.Keys == b.v.inner.Keys && a.v.edges == b.v.edges
    ensures forall p | p in a.v.inner :: NodeAt(a.tables.store, a.v, p) && NodeAt(b.tables.store, b.v, p)
                         && LooksLike(NodeOf(a.tables.store, a.v, p), NodeOf(b.tables.store, b.v, p))
  {
    hide TreeOk, ArtDerefTables.Valid, DeletionList.Valid, PendingOk, KindsMatch, Entries, SetOf, Slots;
    OrderIndependent(a.Environment(), a.tables.store, a.v, a.Pending(), a.leaked,
                     b.Environment(), b.tables.store, b.v, b.Pending(), b.leaked);
  }
}
