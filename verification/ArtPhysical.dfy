/**
 * How a tree lies in its tables: every edge of the shape is a tiny pointer that, under the hashes of that edge,
 * resolves to the slot of the edge's target.
 */
module ArtPhysical {
  import opened TinyPtrs
  import opened DerefTables
  import opened Bytes
  import opened ArtShape
  import opened ArtNodes
  import opened ArtTables

  type IdHash = (nat, Byte) -> Hashes
  type LoadKey = Tid -> Key

  /** The tree as seen from outside the tables: stored keys, and where every inner node and every leaf lives. */
  datatype View = View(keys: map<Key, Tid>, inner: map<Key, Slot>, leaves: map<Key, Slot>, edges: map<Edge, Target>)

  /** What stays the same over the life of a tree. */
  datatype Env = Env(tables: ArtDerefTables, idHash: IdHash, loadKey: LoadKey)

  ghost predicate NodeAt(store: Store, v: View, p: Key) {
    && p in v.inner && v.inner[p] in store && store[v.inner[p]].Inner?
    && var n := store[v.inner[p]].node;
       WellFormed(n.body) && |n.prefix| == MAX_STORED_PREFIX
  }

  ghost function NodeOf(store: Store, v: View, p: Key): Node
    requires NodeAt(store, v, p)
  {
    store[v.inner[p]].node
  }

  ghost function TargetSlot(v: View, t: Target): Slot {
    match t
    case ToInner(q) => if q in v.inner then v.inner[q] else Slot(LEAF, 0, 0)
    case ToLeaf(k) => if k in v.leaves then v.leaves[k] else Slot(LEAF, 0, 0)
  }

  /** A pointer stored under byte b of the node with this id leads to the slot. */
  ghost predicate Leads(env: Env, id: nat, b: Byte, ptr: TinyPtr, s: Slot) {
    env.tables.Wired() && ptr.Ptr? && ptr.special < 4 && env.tables.Locate(ptr, env.idHash(id, b)) == s
  }

  /** The node at path stores what the path adds to the edge above it, as far as 11 bytes go. */
  ghost predicate Compressed(n: Node, above: Key, path: Key) {
    && |above| < |path| && n.prefixLength == |path| - |above| - 1 && |n.prefix| == MAX_STORED_PREFIX
    && forall i | 0 <= i < Min(n.prefixLength, MAX_STORED_PREFIX) :: n.prefix[i] == path[|above| + 1 + i]
  }

  ghost predicate EdgeOk(env: Env, store: Store, v: View, p: Key, b: Byte)
    requires NodeAt(store, v, p)
  {
    var n := NodeOf(store, v, p);
    if Edge(p, b) in v.edges then
      var t := v.edges[Edge(p, b)];
      && Leads(env, n.id, b, Child(n.body, b), TargetSlot(v, t))
      && (t.ToInner? ==> NodeAt(store, v, t.path) && Compressed(NodeOf(store, v, t.path), p, t.path))
      && (t.ToLeaf? ==> t.key in v.keys)
    else Child(n.body, b) == Null
  }

  ghost predicate LeafOk(env: Env, store: Store, v: View, k: Key) {
    && k in v.keys && k in v.leaves && v.leaves[k] in store && store[v.leaves[k]] == Leaf(v.keys[k])
    && env.loadKey(v.keys[k]) == k && v.keys[k] != 0
  }

  ghost predicate Injective(m: map<Key, Slot>) {
    forall a, b | a in m && b in m && m[a] == m[b] :: a == b
  }

  /** Nodes, leaves and pointers are all in place; the root is never compressed. */
  ghost predicate Physical(env: Env, store: Store, v: View) {
    && v.leaves.Keys == v.keys.Keys && Injective(v.inner) && Injective(v.leaves)
    && (forall p | p in v.inner :: NodeAt(store, v, p))
    && (forall p, b | p in v.inner :: EdgeOk(env, store, v, p, b))
    && (forall k | k in v.keys :: LeafOk(env, store, v, k))
    && [] in v.inner && NodeOf(store, v, []).prefixLength == 0
  }

  // ----- what a change leaves alone

  /** Everything about a node but its children. */
  predicate SameHead(n: Node, n': Node) {
    n'.id == n.id && n'.prefixLength == n.prefixLength && n'.prefix == n.prefix
  }

  /** An edge stays right if neither end of it changed. */
  lemma EdgeKept(env: Env, store: Store, v: View, store': Store, v': View, q: Key, b: Byte)
    requires NodeAt(store, v, q) && EdgeOk(env, store, v, q, b) && NodeAt(store', v', q)
    requires NodeOf(store', v', q).id == NodeOf(store, v, q).id
    requires Child(NodeOf(store', v', q).body, b) == Child(NodeOf(store, v, q).body, b)
    requires Edge(q, b) in v.edges <==> Edge(q, b) in v'.edges
    requires Edge(q, b) in v.edges ==>
               var t := v.edges[Edge(q, b)];
               && v'.edges[Edge(q, b)] == t && TargetSlot(v', t) == TargetSlot(v, t)
               && (t.ToLeaf? && t.key in v.keys ==> t.key in v'.keys)
               && (t.ToInner? && NodeAt(store, v, t.path) ==>
                     NodeAt(store', v', t.path) && SameHead(NodeOf(store, v, t.path), NodeOf(store', v', t.path)))
    ensures EdgeOk(env, store', v', q, b)
  {
  }

  /** Nodes stay where they are, apart from their children. */
  ghost predicate KeepsNodes(store: Store, v: View, store': Store, v': View) {
    forall q | q in v.inner && NodeAt(store, v, q) ::
      && q in v'.inner && v'.inner[q] == v.inner[q]
      && NodeAt(store', v', q) && SameHead(NodeOf(store, v, q), NodeOf(store', v', q))
  }

  // ----- a leaf under a free edge

  ghost function WithLeaf(v: View, p: Key, k: Key, tid: Tid, s: Slot): View
    requires |p| < |k|
  {
    View(v.keys[k := tid], v.inner, v.leaves[k := s], v.edges[Edge(p, k[|p|]) := ToLeaf(k)])
  }

  /** The node is the old one but for the pointer under one byte. */
  ghost predicate NodeChildSet(n: Node, n': Node, b: Byte, ptr: TinyPtr) {
    SameHead(n, n') && ChildSet(n.body, n'.body, b, ptr)
  }

  /** A new leaf in slot s for key k, and node n' at p with a pointer to it. */
  ghost predicate AddsLeaf(env: Env, store: Store, v: View, p: Key, k: Key, tid: Tid, s: Slot, n': Node, ptr: TinyPtr) {
    && Physical(env, store, v) && p in v.inner && |p| < |k| && k !in v.keys && s !in store
    && env.loadKey(tid) == k && tid != 0
    && NodeAt(store, v, p) && NodeChildSet(NodeOf(store, v, p), n', k[|p|], ptr)
    && Leads(env, n'.id, k[|p|], ptr, s)
  }

  lemma LeafAdded(env: Env, store: Store, v: View, p: Key, k: Key, tid: Tid, s: Slot, n': Node, ptr: TinyPtr)
    requires AddsLeaf(env, store, v, p, k, tid, s, n', ptr)
    ensures Physical(env, store[s := Leaf(tid)][v.inner[p] := Inner(n')], WithLeaf(v, p, k, tid, s))
  {
    var store', v' := store[s := Leaf(tid)][v.inner[p] := Inner(n')], WithLeaf(v, p, k, tid, s);
    LeafAddedNodes(env, store, v, p, k, tid, s, n', ptr);
    LeafAddedLeaves(env, store, v, p, k, tid, s, n', ptr);
    forall q, b | q in v'.inner ensures EdgeOk(env, store', v', q, b) {
      LeafAddedEdge(env, store, v, p, k, tid, s, n', ptr, q, b);
    }
  }

  lemma LeafAddedNodes(env: Env, store: Store, v: View, p: Key, k: Key, tid: Tid, s: Slot, n': Node, ptr: TinyPtr)
    requires AddsLeaf(env, store, v, p, k, tid, s, n', ptr)
    ensures var store', v' := store[s := Leaf(tid)][v.inner[p] := Inner(n')], WithLeaf(v, p, k, tid, s);
            && KeepsNodes(store, v, store', v') && NodeOf(store', v', p) == n'
            && (forall q | q in v.inner && q != p :: NodeOf(store', v', q) == NodeOf(store, v, q))
  {
    hide EdgeOk, LeafOk;
  }

  lemma LeafAddedLeaves(env: Env, store: Store, v: View, p: Key, k: Key, tid: Tid, s: Slot, n': Node, ptr: TinyPtr)
    requires AddsLeaf(env, store, v, p, k, tid, s, n', ptr)
    ensures var store', v' := store[s := Leaf(tid)][v.inner[p] := Inner(n')], WithLeaf(v, p, k, tid, s);
            && Injective(v'.leaves) && (forall q | q in v'.keys :: LeafOk(env, store', v', q))
  {
    hide EdgeOk;
    assert forall q | q in v.leaves :: LeafOk(env, store, v, q);
  }

  lemma LeafAddedEdge(env: Env, store: Store, v: View, p: Key, k: Key, tid: Tid, s: Slot, n': Node, ptr: TinyPtr,
                      q: Key, b: Byte)
    requires AddsLeaf(env, store, v, p, k, tid, s, n', ptr) && q in v.inner
    ensures var store', v' := store[s := Leaf(tid)][v.inner[p] := Inner(n')], WithLeaf(v, p, k, tid, s);
            NodeAt(store', v', q) && EdgeOk(env, store', v', q, b)
  {
    var store', v' := store[s := Leaf(tid)][v.inner[p] := Inner(n')], WithLeaf(v, p, k, tid, s);
    LeafAddedNodes(env, store, v, p, k, tid, s, n', ptr);
    assert NodeAt(store, v, q) && EdgeOk(env, store, v, q, b);
    hide Physical;
    if Edge(q, b) != Edge(p, k[|p|]) {
      EdgeKept(env, store, v, store', v', q, b);
    }
  }

  // ----- a node moved to another slot

  ghost function Moved(v: View, p: Key, s: Slot): View {
    v.(inner := v.inner[p := s])
  }

  /** A copy of the node below edge e in slot s, and node u' at the upper end with a pointer to it. */
  ghost predicate MovesNode(env: Env, store: Store, v: View, e: Edge, s: Slot, n': Node, u': Node, ptr: TinyPtr) {
    && Physical(env, store, v) && e in v.edges && e.path in v.inner && v.edges[e].ToInner? && s !in store
    && var p := v.edges[e].path;
       && p != [] && p != e.path && (forall f | f in v.edges && v.edges[f] == ToInner(p) :: f == e)
       && NodeAt(store, v, e.path) && NodeAt(store, v, p)
       && SameHead(NodeOf(store, v, p), n') && WellFormed(n'.body)
       && (forall b :: Child(n'.body, b) == Child(NodeOf(store, v, p).body, b))
       && NodeChildSet(NodeOf(store, v, e.path), u', e.byte, ptr) && Leads(env, u'.id, e.byte, ptr, s)
  }

  ghost function MovedStore(store: Store, v: View, e: Edge, s: Slot, n': Node, u': Node): Store
    requires e.path in v.inner
  {
    store[s := Inner(n')][v.inner[e.path] := Inner(u')]
  }

  lemma NodeMoved(env: Env, store: Store, v: View, e: Edge, s: Slot, n': Node, u': Node, ptr: TinyPtr)
    requires MovesNode(env, store, v, e, s, n', u', ptr)
    ensures Physical(env, MovedStore(store, v, e, s, n', u'), Moved(v, v.edges[e].path, s))
  {
    var store', v' := MovedStore(store, v, e, s, n', u'), Moved(v, v.edges[e].path, s);
    NodeMovedNodes(env, store, v, e, s, n', u', ptr);
    NodeMovedLeaves(env, store, v, e, s, n', u', ptr);
    assert v'.inner.Keys == v.inner.Keys by { assert EdgeOk(env, store, v, e.path, e.byte); }
    forall q, b | q in v'.inner ensures EdgeOk(env, store', v', q, b) {
      NodeMovedEdge(env, store, v, e, s, n', u', ptr, q, b);
    }
  }

  lemma NodeMovedNodes(env: Env, store: Store, v: View, e: Edge, s: Slot, n': Node, u': Node, ptr: TinyPtr)
    requires MovesNode(env, store, v, e, s, n', u', ptr)
    ensures var store', v' := MovedStore(store, v, e, s, n', u'), Moved(v, v.edges[e].path, s);
            && Injective(v'.inner)
            && forall q | q in v.inner :: NodeAt(store, v, q) && NodeAt(store', v', q)
                 && NodeOf(store', v', q)
                    == if q == v.edges[e].path then n' else if q == e.path then u' else NodeOf(store, v, q)
  {
    assert forall q | q in v.inner :: NodeAt(store, v, q);
    InjectiveUpdate(v.inner, v.edges[e].path, s, store);
    hide EdgeOk, LeafOk, Leads, Injective;
    forall q | q in v.inner
      ensures var store', v' := MovedStore(store, v, e, s, n', u'), Moved(v, v.edges[e].path, s);
              && NodeAt(store, v, q) && NodeAt(store', v', q)
              && NodeOf(store', v', q)
                 == if q == v.edges[e].path then n' else if q == e.path then u' else NodeOf(store, v, q)
    {
      NodeAfterMove(store, v, e, s, n', u', q);
    }
  }

  lemma NodeAfterMove(store: Store, v: View, e: Edge, s: Slot, n': Node, u': Node, q: Key)
    requires e in v.edges && v.edges[e].ToInner? && v.edges[e].path != e.path
    requires Injective(v.inner) && NodeAt(store, v, q) && NodeAt(store, v, e.path) && s !in store
    requires WellFormed(n'.body) && |n'.prefix| == |u'.prefix| == MAX_STORED_PREFIX && WellFormed(u'.body)
    ensures var store', v' := MovedStore(store, v, e, s, n', u'), Moved(v, v.edges[e].path, s);
            && NodeAt(store', v', q)
            && NodeOf(store', v', q)
               == if q == v.edges[e].path then n' else if q == e.path then u' else NodeOf(store, v, q)
  {
    hide WellFormed;
  }

  lemma NodeMovedLeaves(env: Env, store: Store, v: View, e: Edge, s: Slot, n': Node, u': Node, ptr: TinyPtr)
    requires MovesNode(env, store, v, e, s, n', u', ptr)
    ensures forall k | k in v.keys :: LeafOk(env, MovedStore(store, v, e, s, n', u'), Moved(v, v.edges[e].path, s), k)
  {
    hide EdgeOk;
    assert forall k | k in v.keys :: LeafOk(env, store, v, k);
  }

  lemma NodeMovedEdge(env: Env, store: Store, v: View, e: Edge, s: Slot, n': Node, u': Node, ptr: TinyPtr, q: Key,
                      b: Byte)
    requires MovesNode(env, store, v, e, s, n', u', ptr) && q in v.inner
    ensures var store', v' := MovedStore(store, v, e, s, n', u'), Moved(v, v.edges[e].path, s);
            NodeAt(store', v', q) && EdgeOk(env, store', v', q, b)
  {
    var store', v' := MovedStore(store, v, e, s, n', u'), Moved(v, v.edges[e].path, s);
    NodeMovedNodes(env, store, v, e, s, n', u', ptr);
    assert NodeAt(store, v, q) && EdgeOk(env, store, v, q, b);
    hide Physical, MovedStore;
    if Edge(q, b) != e {
      EdgeKept(env, store, v, store', v', q, b);
    }
  }

  // ----- an inner node put into an edge

  /** At path r, between p and its target: node nR with the new leaf and the old target, moved, below it. */
  datatype Splitting = Splitting(p: Key, k: Key, tid: Tid, r: Key,
                                 sR: Slot, nR: Node, sK: Slot, ptrK: TinyPtr,
                                 sT: Slot, item: Item, ptrT: TinyPtr, u: Node, ptrR: TinyPtr)

  ghost function SplitEdge(x: Splitting): Edge
    requires |x.p| < |x.k|
  {
    Edge(x.p, x.k[|x.p|])
  }

  /** The moved target: a leaf keeps its value; a node keeps its id and children and loses the front of its prefix. */
  ghost predicate MovedTarget(store: Store, v: View, t: Target, r: Key, item: Item) {
    match t
    case ToLeaf(key) => key in v.keys && item == Leaf(v.keys[key])
    case ToInner(q) =>
      && NodeAt(store, v, q) && item.Inner? && Compressed(item.node, r, q)
      && item.node.id == NodeOf(store, v, q).id && item.node.body == NodeOf(store, v, q).body
  }

  ghost predicate SplitNode(env: Env, x: Splitting, c: Byte)
    requires |x.r| < |x.k|
  {
    && WellFormed(x.nR.body) && Compressed(x.nR, x.p, x.r) && c != x.k[|x.r|]
    && (forall b :: Child(x.nR.body, b) == if b == x.k[|x.r|] then x.ptrK else if b == c then x.ptrT else Null)
    && Leads(env, x.nR.id, x.k[|x.r|], x.ptrK, x.sK) && Leads(env, x.nR.id, c, x.ptrT, x.sT)
  }

  ghost predicate SplitsEdge(env: Env, store: Store, v: View, x: Splitting) {
    && Physical(env, store, v) && |x.p| < |x.k| && |x.r| < |x.k| && x.k !in v.keys && x.r !in v.inner && x.p in v.inner
    && env.loadKey(x.tid) == x.k && x.tid != 0
    && SplitEdge(x) in v.edges && (forall e | e in v.edges :: e.path in v.inner)
    && (forall e | e in v.edges && v.edges[e] == v.edges[SplitEdge(x)] :: e == SplitEdge(x))
    && x.sR !in store && x.sK !in store && x.sT !in store && x.sR != x.sK && x.sR != x.sT && x.sK != x.sT
    && var t := v.edges[SplitEdge(x)];
       && |x.r| < |TargetPath(t)| && SplitNode(env, x, TargetPath(t)[|x.r|])
       && MovedTarget(store, v, t, x.r, x.item) && t != ToInner([]) && t != ToInner(x.p)
       && NodeAt(store, v, x.p) && NodeChildSet(NodeOf(store, v, x.p), x.u, x.k[|x.p|], x.ptrR)
       && Leads(env, x.u.id, x.k[|x.p|], x.ptrR, x.sR)
  }

  ghost function SplitStore(store: Store, v: View, x: Splitting): Store
    requires x.p in v.inner
  {
    store[x.sR := Inner(x.nR)][x.sK := Leaf(x.tid)][x.sT := x.item][v.inner[x.p] := Inner(x.u)]
  }

  ghost function SplitView(v: View, x: Splitting): View
    requires |x.p| < |x.k| && |x.r| < |x.k| && SplitEdge(x) in v.edges && |x.r| < |TargetPath(v.edges[SplitEdge(x)])|
  {
    var t := v.edges[SplitEdge(x)];
    View(v.keys[x.k := x.tid],
         (if t.ToInner? then v.inner[t.path := x.sT] else v.inner)[x.r := x.sR],
         (if t.ToLeaf? then v.leaves[t.key := x.sT] else v.leaves)[x.k := x.sK],
         Split(v.edges, x.p, x.k, x.r, TargetPath(t)[|x.r|]))
  }

  lemma EdgeSplit(env: Env, store: Store, v: View, x: Splitting)
    requires SplitsEdge(env, store, v, x)
    ensures Physical(env, SplitStore(store, v, x), SplitView(v, x))
  {
    var store', v' := SplitStore(store, v, x), SplitView(v, x);
    EdgeSplitSlots(env, store, v, x);
    EdgeSplitLeaves(env, store, v, x);
    EdgeSplitRoot(env, store, v, x);
    hide SplitStore, SplitView, SplitsEdge, EdgeOk, LeafOk, NodeAt, Injective;
    forall q | q in v'.inner ensures NodeAt(store', v', q) {
      EdgeSplitNode(env, store, v, x, q);
    }
    forall q, b | q in v'.inner ensures EdgeOk(env, store', v', q, b) {
      EdgeSplitEdge(env, store, v, x, q, b);
    }
  }

  lemma EdgeSplitRoot(env: Env, store: Store, v: View, x: Splitting)
    requires SplitsEdge(env, store, v, x)
    ensures [] in SplitView(v, x).inner && NodeAt(SplitStore(store, v, x), SplitView(v, x), [])
    ensures NodeOf(SplitStore(store, v, x), SplitView(v, x), []).prefixLength == 0
  {
    EdgeSplitSlots(env, store, v, x);
    EdgeSplitNode(env, store, v, x, []);
    hide SplitStore, SplitView, EdgeOk, LeafOk, Injective;
  }

  lemma EdgeSplitSlots(env: Env, store: Store, v: View, x: Splitting)
    requires SplitsEdge(env, store, v, x)
    ensures var v' := SplitView(v, x); Injective(v'.inner) && v'.inner.Keys == v.inner.Keys + {x.r}
  {
    var t := v.edges[SplitEdge(x)];
    assert forall q | q in v.inner :: NodeAt(store, v, q);
    assert EdgeOk(env, store, v, x.p, x.k[|x.p|]);
    InjectiveUpdate(v.inner, x.r, x.sR, store);
    if t.ToInner? {
      InjectiveUpdate(v.inner, t.path, x.sT, store);
      InjectiveUpdate(v.inner[t.path := x.sT], x.r, x.sR, store[x.sT := x.item]);
    }
  }

  lemma InjectiveUpdate(m: map<Key, Slot>, k: Key, s: Slot, store: Store)
    requires Injective(m) && (forall q | q in m :: m[q] in store) && s !in store
    ensures Injective(m[k := s])
  {
  }

  /** The node at q after the split. */
  lemma EdgeSplitNode(env: Env, store: Store, v: View, x: Splitting, q: Key)
    requires SplitsEdge(env, store, v, x) && q in SplitView(v, x).inner
    ensures var store', v', t := SplitStore(store, v, x), SplitView(v, x), v.edges[SplitEdge(x)];
            && NodeAt(store', v', q)
            && (q == x.r ==> NodeOf(store', v', q) == x.nR)
            && (q != x.r ==>
                  && NodeAt(store, v, q)
                  && NodeOf(store', v', q)
                     == if t == ToInner(q) then x.item.node else if q == x.p then x.u else NodeOf(store, v, q))
  {
    EdgeSplitSlots(env, store, v, x);
    assert NodeAt(store, v, x.p);
    if q != x.r {
      assert NodeAt(store, v, q);
      OldNodeAfterSplit(store, v, x, v.edges[SplitEdge(x)], q);
    } else {
      NewNodeAfterSplit(store, v, x);
    }
  }

  /** The four slots a split writes are different ones. */
  ghost predicate SlotsApart(store: Store, v: View, x: Splitting) {
    && x.p in v.inner && v.inner[x.p] in store
    && x.sR !in store && x.sK !in store && x.sT !in store && x.sR != x.sK && x.sR != x.sT && x.sK != x.sT
  }

  lemma NewNodeAfterSplit(store: Store, v: View, x: Splitting)
    requires |x.p| < |x.k| && |x.r| < |x.k| && SplitEdge(x) in v.edges && |x.r| < |TargetPath(v.edges[SplitEdge(x)])|
    requires SlotsApart(store, v, x) && WellFormed(x.nR.body) && |x.nR.prefix| == MAX_STORED_PREFIX
    ensures NodeAt(SplitStore(store, v, x), SplitView(v, x), x.r)
    ensures NodeOf(SplitStore(store, v, x), SplitView(v, x), x.r) == x.nR
  {
    hide WellFormed;
  }

  lemma OldNodeAfterSplit(store: Store, v: View, x: Splitting, t: Target, q: Key)
    requires |x.p| < |x.k| && |x.r| < |x.k| && SplitEdge(x) in v.edges && t == v.edges[SplitEdge(x)]
    requires |x.r| < |TargetPath(t)| && SlotsApart(store, v, x) && Injective(v.inner)
    requires q != x.r && NodeAt(store, v, q) && t != ToInner(x.p)
    requires WellFormed(x.u.body) && |x.u.prefix| == MAX_STORED_PREFIX
    requires t.ToInner? ==> x.item.Inner? && WellFormed(x.item.node.body) && |x.item.node.prefix| == MAX_STORED_PREFIX
    ensures NodeAt(SplitStore(store, v, x), SplitView(v, x), q)
    ensures NodeOf(SplitStore(store, v, x), SplitView(v, x), q)
            == if t == ToInner(q) then x.item.node else if q == x.p then x.u else NodeOf(store, v, q)
  {
    hide WellFormed;
  }

  lemma EdgeSplitLeaves(env: Env, store: Store, v: View, x: Splitting)
    requires SplitsEdge(env, store, v, x)
    ensures var store', v' := SplitStore(store, v, x), SplitView(v, x);
            && v'.leaves.Keys == v'.keys.Keys && Injective(v'.leaves)
            && forall k | k in v'.keys :: LeafOk(env, store', v', k)
  {
    var t := v.edges[SplitEdge(x)];
    assert NodeAt(store, v, x.p) && forall k | k in v.leaves :: LeafOk(env, store, v, k);
    InjectiveUpdate(v.leaves, x.k, x.sK, store);
    if t.ToLeaf? {
      InjectiveUpdate(v.leaves, t.key, x.sT, store);
      InjectiveUpdate(v.leaves[t.key := x.sT], x.k, x.sK, store[x.sT := x.item]);
    }
    forall k | k in SplitView(v, x).keys ensures LeafOk(env, SplitStore(store, v, x), SplitView(v, x), k) {
      if k != x.k {
        assert LeafOk(env, store, v, k);
        assert v.leaves[k] in store && v.leaves[k] != v.inner[x.p];
      }
      LeafAfterSplit(env, store, v, x, t, k);
    }
  }

  lemma LeafAfterSplit(env: Env, store: Store, v: View, x: Splitting, t: Target, k: Key)
    requires |x.p| < |x.k| && |x.r| < |x.k| && SplitEdge(x) in v.edges && t == v.edges[SplitEdge(x)]
    requires |x.r| < |TargetPath(t)| && SlotsApart(store, v, x) && x.k !in v.keys
    requires env.loadKey(x.tid) == x.k && x.tid != 0
    requires t.ToLeaf? ==> t.key in v.keys && x.item == Leaf(v.keys[t.key])
    requires k == x.k || (LeafOk(env, store, v, k) && v.leaves[k] != v.inner[x.p])
    ensures LeafOk(env, SplitStore(store, v, x), SplitView(v, x), k)
  {
    hide Split;
  }

  lemma EdgeSplitEdge(env: Env, store: Store, v: View, x: Splitting, q: Key, b: Byte)
    requires SplitsEdge(env, store, v, x) && q in SplitView(v, x).inner
    ensures NodeAt(SplitStore(store, v, x), SplitView(v, x), q)
    ensures EdgeOk(env, SplitStore(store, v, x), SplitView(v, x), q, b)
  {
    EdgeSplitNode(env, store, v, x, q);
    if q == x.r {
      EdgeSplitBelow(env, store, v, x, b);
    } else if Edge(q, b) == SplitEdge(x) {
      EdgeSplitAbove(env, store, v, x);
    } else {
      EdgeSplitSlots(env, store, v, x);
      EdgeSplitOther(env, store, v, x, q, b);
    }
  }

  lemma EdgeSplitAbove(env: Env, store: Store, v: View, x: Splitting)
    requires SplitsEdge(env, store, v, x)
    ensures NodeAt(SplitStore(store, v, x), SplitView(v, x), x.p)
    ensures EdgeOk(env, SplitStore(store, v, x), SplitView(v, x), x.p, x.k[|x.p|])
  {
    EdgeSplitNode(env, store, v, x, x.p);
    EdgeSplitNode(env, store, v, x, x.r);
    hide Physical, SplitStore, NodeAt, Leads, MovedTarget, ChildSet;
  }

  lemma EdgeSplitBelow(env: Env, store: Store, v: View, x: Splitting, b: Byte)
    requires SplitsEdge(env, store, v, x)
    ensures NodeAt(SplitStore(store, v, x), SplitView(v, x), x.r)
    ensures EdgeOk(env, SplitStore(store, v, x), SplitView(v, x), x.r, b)
  {
    hide SplitStore, Leads, NodeChildSet, Compressed, LeafOk, Child;
    var t := v.edges[SplitEdge(x)];
    assert EdgeOk(env, store, v, x.p, x.k[|x.p|]);
    EdgeSplitNode(env, store, v, x, x.r);
    if t.ToInner? {
      EdgeSplitNode(env, store, v, x, t.path);
    }
  }

  /** No other edge leads to what was moved. */
  lemma OtherTarget(env: Env, store: Store, v: View, x: Splitting, e: Edge)
    requires SplitsEdge(env, store, v, x) && e in v.edges && e != SplitEdge(x) && e.path != x.r
    ensures var v' := SplitView(v, x);
            && e in v'.edges && v'.edges[e] == v.edges[e] && v.edges[e] != v.edges[SplitEdge(x)]
            && TargetSlot(v', v.edges[e]) == TargetSlot(v, v.edges[e])
            && (v.edges[e].ToLeaf? && v.edges[e].key in v.keys ==> v.edges[e].key in v'.keys)
            && (v.edges[e].ToInner? && v.edges[e].path in v.inner ==> v.edges[e].path in v'.inner)
  {
    hide LeafOk, SplitNode, Leads, MovedTarget, NodeChildSet, Compressed, Injective;
    assert EdgeOk(env, store, v, e.path, e.byte);
  }

  lemma EdgeSplitOther(env: Env, store: Store, v: View, x: Splitting, q: Key, b: Byte)
    requires SplitsEdge(env, store, v, x) && q in v.inner && Edge(q, b) != SplitEdge(x)
    ensures NodeAt(SplitStore(store, v, x), SplitView(v, x), q)
    ensures EdgeOk(env, SplitStore(store, v, x), SplitView(v, x), q, b)
  {
    var store', v' := SplitStore(store, v, x), SplitView(v, x);
    EdgeSplitNode(env, store, v, x, q);
    assert NodeAt(store, v, q) && EdgeOk(env, store, v, q, b);
    var t := v.edges[SplitEdge(x)];
    if Edge(q, b) in v.edges {
      OtherTarget(env, store, v, x, Edge(q, b));
      var t' := v.edges[Edge(q, b)];
      if t'.ToInner? {
        assert NodeAt(store, v, t'.path);
        EdgeSplitSlots(env, store, v, x);
        EdgeSplitNode(env, store, v, x, t'.path);
        HeadsKept(store, v, x, t, t'.path, NodeOf(store', v', t'.path));
      }
    }
    ChildrenKept(store, v, x, t, q, b, NodeOf(store', v', q));
    SplitViewEdges(v, x, Edge(q, b));
    hide *;
    EdgeKept(env, store, v, store', v', q, b);
  }

  lemma HeadsKept(store: Store, v: View, x: Splitting, t: Target, q: Key, n: Node)
    requires NodeAt(store, v, q) && t != ToInner(q) && (q == x.p ==> SameHead(NodeOf(store, v, q), x.u))
    requires n == if q == x.p then x.u else NodeOf(store, v, q)
    ensures SameHead(NodeOf(store, v, q), n)
  {
  }

  lemma ChildrenKept(store: Store, v: View, x: Splitting, t: Target, q: Key, b: Byte, n: Node)
    requires NodeAt(store, v, q) && |x.p| < |x.k| && |x.r| < |TargetPath(t)| && Edge(q, b) != SplitEdge(x)
    requires MovedTarget(store, v, t, x.r, x.item) && t != ToInner(x.p)
    requires q == x.p ==> NodeChildSet(NodeOf(store, v, q), x.u, x.k[|x.p|], x.ptrR)
    requires n == if t == ToInner(q) then x.item.node else if q == x.p then x.u else NodeOf(store, v, q)
    ensures n.id == NodeOf(store, v, q).id && WellFormed(n.body)
    ensures Child(n.body, b) == Child(NodeOf(store, v, q).body, b)
  {
    hide Compressed;
  }

  lemma SplitViewEdges(v: View, x: Splitting, e: Edge)
    requires |x.p| < |x.k| && |x.r| < |x.k| && SplitEdge(x) in v.edges && |x.r| < |TargetPath(v.edges[SplitEdge(x)])|
    requires e != SplitEdge(x) && e.path != x.r
    ensures e in SplitView(v, x).edges <==> e in v.edges
  {
  }
}
