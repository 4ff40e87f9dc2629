/** From the end of the walk and what was written, the three ways an insert changes the tree. */
module ArtReady {
  import opened TinyPtrs
  import opened DerefTables
  import opened Bytes
  import opened ArtShape
  import opened ArtNodes
  import opened ArtTables
  import opened ArtPhysical
  import opened ArtInvariant
  import opened ArtLookup
  import opened ArtInsert
  import opened DeletionLists
  import opened ArtEpoch

  /** What an insert may assume about the tree and its arguments. */
  ghost predicate Ready(env: Env, store: Store, v: View, pending: set<Slot>, leaked: set<Slot>, k: Key, tid: Tid) {
    && TreeOk(env, store, v, pending, leaked) && KindsMatch(store) && env.tables.Wired()
    && Insertable(v, k) && env.loadKey(tid) == k && tid != 0
  }

  lemma StopsHere(v: View, p: Key, k: Key)
    requires Insertable(v, k) && p in v.inner && Prefix(p, k)
    ensures |p| < |k|
    ensures Edge(p, k[|p|]) !in v.edges || v.edges[Edge(p, k[|p|])].ToLeaf? ==>
              StopsAt(v.keys.Keys, v.inner.Keys, v.edges, p, k)
  {
    KeyBeyondInner(v.keys.Keys, v.inner.Keys, p, k);
  }

  // ----- where the key goes, and what that takes

  /** What holds where an edge is about to be split at r. */
  ghost predicate SplitPoint(store: Store, v: View, k: Key, p: Key, parent: Node, r: Key, t: Target) {
    && p in v.inner && NodeAt(store, v, p) && parent == NodeOf(store, v, p)
    && StopsAt(v.keys.Keys, v.inner.Keys, v.edges, p, k)
    && Edge(p, k[|p|]) in v.edges && v.edges[Edge(p, k[|p|])] == t
    && Diverge(r, k, TargetPath(t)) && Under(p, k[|p|], r)
  }

  /**
   * The four ways a key goes into a tree: a free byte of a node with room; a free byte of a full node, which grows; or
   * an edge to a node or a leaf the key does not pass, which is split by a new node with some id.
   */
  datatype Way = Beside(path: Key) | Growing(path: Key, above: Edge) | Parting(path: Key, at: Key, id: nat)

  ghost predicate Goes(store: Store, v: View, k: Key, w: Way) {
    && StopsAt(v.keys.Keys, v.inner.Keys, v.edges, w.path, k) && NodeAt(store, v, w.path)
    && match w
       case Beside(p) => Edge(p, k[|p|]) !in v.edges && !IsFull(NodeOf(store, v, p).body)
       case Growing(p, e) =>
         && Edge(p, k[|p|]) !in v.edges && IsFull(NodeOf(store, v, p).body)
         && e in v.edges && v.edges[e] == ToInner(p) && NodeAt(store, v, e.path)
       case Parting(p, r, id) =>
         && Edge(p, k[|p|]) in v.edges
         && SplitPoint(store, v, k, p, NodeOf(store, v, p), r, v.edges[Edge(p, k[|p|])])
  }

  /** The edge whose target is retired on this way, and the target. */
  ghost function OldEdge(store: Store, v: View, k: Key, w: Way): Edge
    requires Goes(store, v, k, w) && !w.Beside?
  {
    match w case Growing(p, e) => e case Parting(p, r, id) => Edge(p, k[|p|])
  }

  /** The kind of an edge's target. */
  ghost function KindOf(store: Store, v: View, t: Target): nat {
    match t
    case ToLeaf(_) => LEAF
    case ToInner(q) => if NodeAt(store, v, q) then Tag(NodeOf(store, v, q).body) else LEAF
  }

  /** What is allocated on this way, in order. */
  ghost function Needs(idHash: IdHash, store: Store, v: View, k: Key, w: Way): seq<Need>
    requires Goes(store, v, k, w)
  {
    var n := NodeOf(store, v, w.path);
    match w
    case Beside(p) => [Need(idHash(n.id, k[|p|]), LEAF)]
    case Growing(p, e) =>
      [Need(idHash(NodeOf(store, v, e.path).id, e.byte), Tag(n.body) + 1), Need(idHash(n.id, k[|p|]), LEAF)]
    case Parting(p, r, id) =>
      var t := v.edges[Edge(p, k[|p|])];
      [Need(idHash(n.id, k[|p|]), N4_TAG), Need(idHash(id, k[|r|]), LEAF),
       Need(idHash(id, TargetPath(t)[|r|]), KindOf(store, v, t))]
  }

  /** The pointer of the old edge, with the edge's hashes. */
  ghost function Retired(idHash: IdHash, store: Store, v: View, k: Key, w: Way): PendingDelete
    requires Goes(store, v, k, w) && !w.Beside?
  {
    var e := OldEdge(store, v, k, w);
    PendingDelete(Child(NodeOf(store, v, e.path).body, e.byte), idHash(NodeOf(store, v, e.path).id, e.byte))
  }

  /** The state of the tree and the key determine the way, up to the id of a new node. */
  lemma OneWay(store: Store, v: View, k: Key, w: Way, u: Way)
    requires Insertable(v, k) && Goes(store, v, k, w) && Goes(store, v, k, u)
    ensures w == if w.Parting? && u.Parting? then u.(id := w.id) else u
  {
    NoInnerBeyond(v.keys.Keys, v.inner.Keys, v.edges, w.path, k, u.path);
    NoInnerBeyond(v.keys.Keys, v.inner.Keys, v.edges, u.path, k, w.path);
    assert w.path == u.path;
    if w.Growing? && u.Growing? {
      OneEdgePerTarget(v.keys.Keys, v.inner.Keys, v.edges, w.above, u.above);
    } else if w.Parting? && u.Parting? {
      OneParting(w.at, u.at, k, TargetPath(v.edges[Edge(w.path, k[|w.path|])]));
    }
  }

  lemma OneParting(r: Key, q: Key, a: Key, b: Key)
    requires Diverge(r, a, b) && Diverge(q, a, b)
    ensures r == q
  {
    hide Prefix;
    if |r| < |q| {
      SameByte(q, a, |r|);
      SameByte(q, b, |r|);
    } else if |q| < |r| {
      SameByte(r, a, |q|);
      SameByte(r, b, |q|);
    }
    SamePrefix(r, q, a);
  }

  lemma SamePrefix(p: Key, q: Key, k: Key)
    requires Prefix(p, k) && Prefix(q, k) && |p| == |q|
    ensures p == q
  {
  }

  /** The deletion list of an insert's thread at its end: what was retired is entered in the current epoch. */
  ghost function Handed(labels: seq<Label<PendingDelete>>, epoch: nat, idHash: IdHash, store: Store, v: View, k: Key,
                        w: Way, ok: bool): seq<Label<PendingDelete>>
    requires Goes(store, v, k, w)
  {
    if ok && !w.Beside? then WithEntry(labels, Retired(idHash, store, v, k, w), epoch) else labels
  }

  /** A moment in the life of a tree: the tables, the tree, the deletion list, and the epochs. */
  datatype Moment = Moment(store: Store, v: View, leaked: set<Slot>, labels: seq<Label<PendingDelete>>, threshold: nat,
                           epoch: nat, announced: nat)

  /**
   * The insert of k went its way w from a to b: it met all its needs, stored the key and retired what it replaced, or
   * one of its needs found both candidate buckets full.
   */
  ghost predicate Took(tables: ArtDerefTables, idHash: IdHash, a: Moment, b: Moment, k: Key, tid: Tid, ok: bool, w: Way)
  {
    && tables.Wired() && Goes(a.store, a.v, k, w)
    && Served(tables, a.store.Keys, b.store.Keys, Needs(idHash, a.store, a.v, k, w), ok)
    && b.v.keys == (if ok then a.v.keys[k := tid] else a.v.keys) && (ok ==> b.leaked == a.leaked)
    && b.labels == Handed(a.labels, a.epoch, idHash, a.store, a.v, k, w, ok)
    && b.threshold == a.threshold + (if ok && !w.Beside? then 1 else 0)
    && b.epoch == a.epoch && b.announced == a.announced
  }

  ghost predicate Outcome(tables: ArtDerefTables, idHash: IdHash, a: Moment, b: Moment, k: Key, tid: Tid, ok: bool) {
    exists w :: Took(tables, idHash, a, b, k, tid, ok, w)
  }

  /** The guarded operation ended between a and b. */
  ghost predicate Exited(tables: ArtDerefTables, a: Moment, others: seq<nat>, b: Moment, freed: set<Slot>) {
    && Cleaned(tables, a.labels, a.threshold, others, b.labels, freed)
    && b.epoch == a.epoch + (if a.threshold % 64 == 1 then 1 else 0)
    && b.threshold == (if a.threshold > GC_THRESHOLD then 0 else a.threshold)
    && b.announced == if a.threshold > GC_THRESHOLD && a.labels != [] then MAX_EPOCH else a.announced
  }

  /** A whole insert: on its way w from a to m, and out of the guarded operation from m to b. */
  ghost predicate Ran(tables: ArtDerefTables, idHash: IdHash, a: Moment, m: Moment, b: Moment, k: Key, tid: Tid,
                      others: seq<nat>, ok: bool, w: Way, freed: set<Slot>) {
    && Took(tables, idHash, a, m, k, tid, ok, w) && Exited(tables, m, others, b, freed)
    && b.store == m.store - freed && freed <= m.store.Keys && b.v == m.v && b.leaked == m.leaked
  }

  lemma RanMeans(tables: ArtDerefTables, idHash: IdHash, a: Moment, m: Moment, b: Moment, k: Key, tid: Tid,
                 others: seq<nat>, ok: bool, w: Way, freed: set<Slot>)
    requires Ran(tables, idHash, a, m, b, k, tid, others, ok, w, freed)
    ensures b.v.keys == (if ok then a.v.keys[k := tid] else a.v.keys) && (ok ==> b.leaked == a.leaked)
  {
    hide Served, Goes, Exited;
  }

  lemma Stored(tables: ArtDerefTables, idHash: IdHash, a: Moment, b: Moment, k: Key, tid: Tid, w: Way, needs: seq<Need>,
               x: PendingDelete)
    requires tables.Wired() && Goes(a.store, a.v, k, w) && Needs(idHash, a.store, a.v, k, w) == needs
    requires !w.Beside? ==> Retired(idHash, a.store, a.v, k, w) == x
    requires Served(tables, a.store.Keys, b.store.Keys, needs, true) && b.v.keys == a.v.keys[k := tid]
    requires w.Beside? ==> b == a.(store := b.store, v := b.v)
    requires !w.Beside? ==> b == a.(store := b.store, v := b.v, labels := WithEntry(a.labels, x, a.epoch),
                                    threshold := a.threshold + 1)
    ensures Outcome(tables, idHash, a, b, k, tid, true)
  {
    hide Goes, Needs, Retired, Served, WithEntry;
    assert Took(tables, idHash, a, b, k, tid, true, w);
  }

  lemma RanOut(tables: ArtDerefTables, idHash: IdHash, a: Moment, b: Moment, k: Key, tid: Tid, w: Way, needs: seq<Need>)
    requires tables.Wired() && Goes(a.store, a.v, k, w) && Needs(idHash, a.store, a.v, k, w) == needs
    requires Served(tables, a.store.Keys, b.store.Keys, needs, false)
    requires b == a.(store := b.store, leaked := b.leaked)
    ensures Outcome(tables, idHash, a, b, k, tid, false)
  {
    hide Goes, Needs, Retired, Served, WithEntry;
    assert Took(tables, idHash, a, b, k, tid, false, w);
  }

  lemma WayBeside(idHash: IdHash, store: Store, v: View, k: Key, x: Place)
    requires Insertable(v, k) && At(store, v, k, x) && Prefix(x.path, k) && |x.path| < |k|
    requires Edge(x.path, k[|x.path|]) !in v.edges && !IsFull(x.node.body)
    ensures Goes(store, v, k, Beside(x.path))
    ensures Needs(idHash, store, v, k, Beside(x.path)) == [Need(idHash(x.node.id, k[|x.path|]), LEAF)]
  {
    hide StopsAt, ShapeOk, Compressed;
    StopsHere(v, x.path, k);
  }

  lemma WayGrowing(idHash: IdHash, store: Store, v: View, k: Key, x: Place)
    requires Insertable(v, k) && At(store, v, k, x) && Prefix(x.path, k) && |x.path| < |k|
    requires Edge(x.path, k[|x.path|]) !in v.edges && IsFull(x.node.body) && x.path != []
    ensures var w := Growing(x.path, Edge(x.up, x.byte));
            && Goes(store, v, k, w)
            && Needs(idHash, store, v, k, w)
               == [Need(idHash(x.parent.id, x.byte), Tag(x.node.body) + 1), Need(idHash(x.node.id, k[|x.path|]), LEAF)]
            && Retired(idHash, store, v, k, w) == PendingDelete(x.ptr, idHash(x.parent.id, x.byte))
  {
    hide StopsAt, ShapeOk, Compressed;
    StopsHere(v, x.path, k);
  }

  lemma WayParting(idHash: IdHash, store: Store, v: View, k: Key, p: Key, parent: Node, r: Key, t: Target, item: Item,
                   id: nat)
    requires SplitPoint(store, v, k, p, parent, r, t) && MovedTarget(store, v, t, r, item)
    ensures |p| < |k| && |r| < |k| && |r| < |TargetPath(t)|
    ensures var w := Parting(p, r, id);
            && Goes(store, v, k, w)
            && Needs(idHash, store, v, k, w)
               == [Need(idHash(parent.id, k[|p|]), N4_TAG), Need(idHash(id, k[|r|]), LEAF),
                   Need(idHash(id, TargetPath(t)[|r|]), TagOf(item))]
            && Retired(idHash, store, v, k, w)
               == PendingDelete(Child(parent.body, k[|p|]), idHash(parent.id, k[|p|]))
  {
    hide ShapeOk, Compressed, WellFormed;
  }

  // ----- plain

  lemma PlainReady(env: Env, store: Store, v: View, pending: set<Slot>, leaked: set<Slot>, k: Key, tid: Tid,
                   x: Place, sK: Slot, ptr: TinyPtr, n': Node)
    requires Ready(env, store, v, pending, leaked, k, tid) && At(store, v, k, x) && Prefix(x.path, k) && |x.path| < |k|
    requires Edge(x.path, k[|x.path|]) !in v.edges && !IsFull(x.node.body)
    requires sK !in store && NodeChildSet(x.node, n', k[|x.path|], ptr)
    requires n'.body.count == (x.node.body.count + 1) % 256
    requires PointsTo(env.tables, ptr, env.idHash(x.node.id, k[|x.path|]), sK)
    ensures TreeOk(env, store[sK := Leaf(tid)][x.slot := Inner(n')], WithLeaf(v, x.path, k, tid, sK), pending, leaked)
  {
    hide ShapeOk, Physical, Kinds, Conserved, ChildSet, PrefixFree, NodeAt, NodeOf, Compressed, StopsAt;
    StopsHere(v, x.path, k);
    assert AddsLeaf(env, store, v, x.path, k, tid, sK, n', ptr);
    PlainInsert(env, store, v, x.path, k, tid, sK, n', ptr, pending, leaked);
  }

  // ----- growth

  lemma FullIsNotRoot(env: Env, store: Store, v: View, x: Place)
    requires Kinds(store, v) && x.path in v.inner && NodeAt(store, v, x.path) && x.node == NodeOf(store, v, x.path)
    requires IsFull(x.node.body)
    ensures x.path != []
  {
  }

  lemma EdgeAboveNode(v: View, x: Place, k: Key, store: Store)
    requires ShapeOk(v.keys.Keys, v.inner.Keys, v.edges) && At(store, v, k, x) && x.path != []
    ensures var e := Edge(x.up, x.byte);
            && e in v.edges && v.edges[e] == ToInner(x.path) && x.path != x.up
            && (forall f | f in v.edges && v.edges[f] == ToInner(x.path) :: f == e)
            && (forall f | f in v.edges :: f.path in v.inner)
  {
    var e := Edge(x.up, x.byte);
    forall f | f in v.edges && v.edges[f] == ToInner(x.path) ensures f == e {
      OneEdgePerTarget(v.keys.Keys, v.inner.Keys, v.edges, f, e);
    }
  }

  lemma GrowReady(env: Env, store: Store, v: View, pending: set<Slot>, leaked: set<Slot>, k: Key, tid: Tid,
                  x: Place, s: Slot, copy: Node, ptr: TinyPtr, sK: Slot, big: Node, ptrK: TinyPtr, u: Node)
    returns (g: Growth)
    requires Ready(env, store, v, pending, leaked, k, tid) && At(store, v, k, x) && Prefix(x.path, k) && |x.path| < |k|
    requires Edge(x.path, k[|x.path|]) !in v.edges && IsFull(x.node.body) && x.path != []
    requires s !in store && sK !in store && sK != s
    requires SameHead(x.node, copy) && WellFormed(copy.body) && Tag(copy.body) == Tag(x.node.body) + 1
    requires copy.body.count == x.node.body.count && WellFormed(x.node.body)
    requires forall y :: Child(copy.body, y) == Child(x.node.body, y)
    requires NodeChildSet(copy, big, k[|x.path|], ptrK) && big.body.count == (copy.body.count + 1) % 256
    requires PointsTo(env.tables, ptrK, env.idHash(x.node.id, k[|x.path|]), sK)
    requires NodeChildSet(x.parent, u, x.byte, ptr) && u.body.count == x.parent.body.count
    requires PointsTo(env.tables, ptr, env.idHash(x.parent.id, x.byte), s)
    ensures g.e in v.edges && g.e.path in v.inner && |TargetPath(v.edges[g.e])| < |g.k| && g.k == k && g.tid == tid
    ensures GrownStore(store, v, g) == store[x.parentSlot := Inner(u)][sK := Leaf(tid)][s := Inner(big)]
    ensures TreeOk(env, GrownStore(store, v, g), GrownView(v, g), pending + {x.slot}, leaked)
    ensures GrownView(v, g).keys == v.keys[k := tid]
    ensures [] in v.inner ==> [] in GrownView(v, g).inner && GrownView(v, g).inner[[]] == v.inner[[]]
  {
    hide ShapeOk, Physical, Kinds, Conserved, ChildSet, PrefixFree, NodeAt, NodeOf, Compressed, StopsAt, WellFormed,
         Child;
    g := Growth(Edge(x.up, x.byte), s, copy, u, ptr, k, tid, sK, big, ptrK);
    StopsHere(v, x.path, k);
    EdgeAboveNode(v, x, k, store);
    MoveReady(env, store, v, k, x, g);
    assert Grows(env, store, v, g);
    GrowInsert(env, store, v, g, pending, leaked);
  }

  lemma MoveReady(env: Env, store: Store, v: View, k: Key, x: Place, g: Growth)
    requires Physical(env, store, v) && env.tables.Wired() && At(store, v, k, x) && x.path != [] && g.s !in store
    requires g.e == Edge(x.up, x.byte) && x.path != x.up
    requires forall f | f in v.edges && v.edges[f] == ToInner(x.path) :: f == g.e
    requires SameHead(x.node, g.copy) && WellFormed(g.copy.body) && WellFormed(x.node.body)
    requires forall y :: Child(g.copy.body, y) == Child(x.node.body, y)
    requires NodeChildSet(x.parent, g.u, x.byte, g.ptr)
    requires PointsTo(env.tables, g.ptr, env.idHash(x.parent.id, x.byte), g.s)
    ensures MovesNode(env, store, v, g.e, g.s, g.copy, g.u, g.ptr)
  {
    hide Physical, ChildSet, WellFormed, Child, Compressed;
  }

  // ----- splits

  lemma SplitPointNew(store: Store, v: View, k: Key, p: Key, parent: Node, r: Key, t: Target)
    requires SplitPoint(store, v, k, p, parent, r, t)
    ensures |r| > |p| && r !in v.inner && t != ToInner([]) && t != ToInner(p)
    ensures forall e | e in v.edges && v.edges[e] == t :: e == Edge(p, k[|p|])
    ensures forall e | e in v.edges :: e.path in v.inner
  {
    if r in v.inner {
      NoInnerBeyond(v.keys.Keys, v.inner.Keys, v.edges, p, k, r);
      assert false;
    }
    forall e | e in v.edges && v.edges[e] == t ensures e == Edge(p, k[|p|]) {
      OneEdgePerTarget(v.keys.Keys, v.inner.Keys, v.edges, e, Edge(p, k[|p|]));
    }
    assert TargetOk(v.keys.Keys, v.inner.Keys, Edge(p, k[|p|]), t);
  }

  lemma SplitReady(env: Env, store: Store, v: View, pending: set<Slot>, leaked: set<Slot>, t: Target, parent: Node,
                   x: Splitting)
    requires Ready(env, store, v, pending, leaked, x.k, x.tid) && SplitPoint(store, v, x.k, x.p, parent, x.r, t)
    requires x.sR !in store && x.sK !in store && x.sT !in store && x.sR != x.sK && x.sR != x.sT && x.sK != x.sT
    requires MovedTarget(store, v, t, x.r, x.item) && Compressed(x.nR, x.p, x.r)
    requires WellFormed(x.nR.body) && x.nR.body.N4? && x.nR.body.count == 2
    requires forall b :: Child(x.nR.body, b)
                         == if b == x.k[|x.r|] then x.ptrK else if b == TargetPath(t)[|x.r|] then x.ptrT else Null
    requires PointsTo(env.tables, x.ptrK, env.idHash(x.nR.id, x.k[|x.r|]), x.sK)
    requires PointsTo(env.tables, x.ptrT, env.idHash(x.nR.id, TargetPath(t)[|x.r|]), x.sT)
    requires NodeChildSet(parent, x.u, x.k[|x.p|], x.ptrR) && x.u.body.count == parent.body.count
    requires PointsTo(env.tables, x.ptrR, env.idHash(parent.id, x.k[|x.p|]), x.sR)
    ensures SplitEdge(x) in v.edges && |x.r| < |TargetPath(v.edges[SplitEdge(x)])|
    ensures SplitView(v, x).keys == v.keys[x.k := x.tid]
    ensures [] in v.inner ==> [] in SplitView(v, x).inner && SplitView(v, x).inner[[]] == v.inner[[]]
    ensures TreeOk(env, SplitStore(store, v, x), SplitView(v, x), pending + {TargetSlot(v, t)}, leaked)
  {
    hide ShapeOk, Physical, Kinds, Conserved, ChildSet, PrefixFree, NodeAt, NodeOf, Compressed, StopsAt, WellFormed,
         Child, MovedTarget, TargetSlot;
    SplitPointNew(store, v, x.k, x.p, parent, x.r, t);
    assert SplitNode(env, x, TargetPath(t)[|x.r|]);
    assert SplitsEdge(env, store, v, x);
    assert SplitsHere(env, store, v, x);
    SplitInsert(env, store, v, x, pending, leaked);
  }

  /** The prefix of a node ends where the key differs: split it there. */
  lemma PrefixSplitPoint(env: Env, store: Store, v: View, k: Key, x: Place, level: nat, byte: Byte, rest: seq<Byte>)
    requires Insertable(v, k) && At(store, v, k, x) && x.path != [] && x.level <= level
    requires PartsAt(x.path, k, level, byte, rest)
    ensures SplitPoint(store, v, k, x.up, x.parent, k[..level], ToInner(x.path))
    ensures x.byte == k[|x.up|] && x.path[level] == byte
  {
    var r := k[..level];
    assert r == x.path[..level];
    assert !Prefix(x.path, k) by {
      if Prefix(x.path, k) {
        SameByte(x.path, k, level);
        assert false;
      }
    }
    assert Prefix(x.up, k) && Prefix(x.up, r) && r[|x.up|] == k[|x.up|] by {
      assert r[..|x.up|] == k[..|x.up|];
    }
  }

  /** The bytes to put into a node at r that hangs below the node at p. */
  ghost predicate FrontOf(prefix: seq<Byte>, length: nat, p: Key, r: Key) {
    && |p| < |r| && length == |r| - |p| - 1 && Min(length, MAX_STORED_PREFIX) <= |prefix|
    && forall i | 0 <= i < Min(length, MAX_STORED_PREFIX) :: prefix[i] == r[|p| + 1 + i]
  }

  lemma FrontCompressed(n: Node, prefix: seq<Byte>, length: nat, p: Key, r: Key)
    requires FrontOf(prefix, length, p, r) && n.prefixLength == length && |n.prefix| == MAX_STORED_PREFIX
    requires forall i | 0 <= i < Min(length, MAX_STORED_PREFIX) :: n.prefix[i] == prefix[i]
    ensures Compressed(n, p, r)
  {
  }

  /** The new node takes the front of the prefix, the moved node keeps the rest. */
  lemma PrefixSplitPieces(store: Store, v: View, k: Key, x: Place, level: nat, byte: Byte, rest: seq<Byte>)
    requires At(store, v, k, x) && x.path != [] && x.level <= level && PartsAt(x.path, k, level, byte, rest)
    requires |x.node.prefix| == MAX_STORED_PREFIX
    ensures FrontOf(x.node.prefix, level - x.level, x.up, k[..level])
    ensures x.node.prefixLength >= level - x.level + 1
    ensures var m := SetPrefix(x.node, rest, x.node.prefixLength - (level - x.level + 1));
            Compressed(m, k[..level], x.path) && MovedTarget(store, v, ToInner(x.path), k[..level], Inner(m))
  {
    assert k[..level] == x.path[..level];
    assert forall i | 0 <= i < level :: k[..level][i] == x.path[i];
  }

  /** Two keys below one edge: where they part. */
  lemma LeafSplitPoint(env: Env, store: Store, v: View, k: Key, p: Key, parent: Node, key: Key, n: nat)
    requires Insertable(v, k) && p in v.inner && NodeAt(store, v, p) && parent == NodeOf(store, v, p)
    requires Prefix(p, k) && |p| < |k| && Edge(p, k[|p|]) in v.edges && v.edges[Edge(p, k[|p|])] == ToLeaf(key)
    requires |p| + 1 <= n < |k| && n < |key| && k[..n] == key[..n] && k[n] != key[n]
    ensures SplitPoint(store, v, k, p, parent, k[..n], ToLeaf(key))
  {
    var r := k[..n];
    assert Prefix(p, r) && r[|p|] == k[|p|] by {
      assert r[..|p|] == k[..|p|];
    }
  }

  /** As long as two keys of the universe agree, both go on. */
  lemma KeysGoOn(v: View, k: Key, key: Key, n: nat)
    requires Insertable(v, k) && key in v.keys && n <= |k| && n <= |key| && k[..n] == key[..n]
    ensures n < |k| && n < |key|
  {
    assert k in v.keys.Keys + {k} && key in v.keys.Keys + {k};
    if n == |k| {
      assert Prefix(k, key);
    } else if n == |key| {
      assert Prefix(key, k);
    }
  }

  // ----- running out of space

  /** Slots lost to a failed insert leave the tree as it was. */
  lemma LostOk(env: Env, store: Store, store': Store, v: View, pending: set<Slot>, leaked: set<Slot>, lost: set<Slot>)
    requires TreeOk(env, store, v, pending, leaked) && Lost(store, store', lost)
    ensures TreeOk(env, store', v, pending, leaked + lost)
  {
    hide ShapeOk, PrefixFree, Physical, Kinds;
    OutsideSlots(env, store, store', v);
  }
}
