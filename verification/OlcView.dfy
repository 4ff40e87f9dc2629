/** The tree's nodes against the shape its keys determine, and how an insert keeps the two together. */
module OlcView {
  import opened Wrappers
  import opened Bytes
  import opened OlcModel
  import opened OlcKeys
  import Shape = ArtShape

  // ----- places

  ghost predicate InTree(nodes: seq<Node>, i: nat) {
    i < |nodes| && nodes[i].stage == Stage.Linked
  }

  ghost predicate TagsOk(nodes: seq<Node>, tags: seq<Tag>) {
    && |tags| == |nodes|
    && forall i | 0 <= i < |nodes| ::
      tags[i].leaf == nodes[i].leaf && (!tags[i].leaf ==> tags[i].hang <= |tags[i].path|)
  }

  ghost predicate InnerAt(nodes: seq<Node>, tags: seq<Tag>, i: nat, p: Key) {
    InTree(nodes, i) && i < |tags| && !tags[i].leaf && tags[i].path == p
  }

  ghost predicate LeafAt(nodes: seq<Node>, tags: seq<Tag>, i: nat, k: Key, tid: Tid) {
    InTree(nodes, i) && i < |tags| && tags[i].leaf && tags[i].path == k && tags[i].tid == tid
  }

  ghost predicate InnerPlaces(nodes: seq<Node>, tags: seq<Tag>, w: View) {
    forall p | p in w.inner :: InnerAt(nodes, tags, w.inner[p], p)
  }

  ghost predicate LeafPlaces(nodes: seq<Node>, tags: seq<Tag>, stored: map<Key, Tid>, w: View) {
    w.leaves.Keys == stored.Keys && forall k | k in w.leaves :: LeafAt(nodes, tags, w.leaves[k], k, stored[k])
  }

  ghost predicate Placed(w: View, i: nat, n: Tag) {
    if n.leaf then n.path in w.leaves && w.leaves[n.path] == i else n.path in w.inner && w.inner[n.path] == i
  }

  ghost predicate AllPlaced(nodes: seq<Node>, tags: seq<Tag>, w: View) {
    forall i: nat | InTree(nodes, i) && i < |tags| :: Placed(w, i, tags[i])
  }

  /** Each inner path and each stored key has its node, and every node of the tree is one of these. */
  ghost predicate PlacesOk(nodes: seq<Node>, tags: seq<Tag>, stored: map<Key, Tid>, w: View) {
    && InnerPlaces(nodes, tags, w) && LeafPlaces(nodes, tags, stored, w) && AllPlaced(nodes, tags, w)
    && [] in w.inner && w.inner[[]] == 0
  }

  /** The node a target stands for. */
  ghost function IndexOf(w: View, t: Shape.Target): nat {
    match t
    case ToLeaf(k) => if k in w.leaves then w.leaves[k] else 0
    case ToInner(q) => if q in w.inner then w.inner[q] else 0
  }

  ghost function EdgeTo(w: View, p: Key, b: Byte): Option<nat> {
    if Shape.Edge(p, b) in w.edges then Some(IndexOf(w, w.edges[Shape.Edge(p, b)])) else None
  }

  ghost predicate KidsAt(nodes: seq<Node>, tags: seq<Tag>, w: View, i: nat) {
    i < |nodes| && i < |tags| && forall b: Byte :: Kid(nodes[i], b) == EdgeTo(w, tags[i].path, b)
  }

  /** The child pointers of the nodes of the tree are the edges of the shape. */
  ghost predicate KidsOk(nodes: seq<Node>, tags: seq<Tag>, w: View) {
    forall i: nat | InTree(nodes, i) && i < |tags| && !tags[i].leaf :: KidsAt(nodes, tags, w, i)
  }

  /** A node's compressed prefix begins behind the byte of the edge that leads to it. */
  ghost predicate HangsOk(tags: seq<Tag>, w: View) {
    forall e | e in w.edges && w.edges[e].ToInner? && w.edges[e].path in w.inner && w.inner[w.edges[e].path] < |tags| ::
      tags[w.inner[w.edges[e].path]].hang == |e.path| + 1
  }

  ghost predicate ViewOk(nodes: seq<Node>, tags: seq<Tag>, stored: map<Key, Tid>, w: View) {
    && TagsOk(nodes, tags) && PlacesOk(nodes, tags, stored, w) && KidsOk(nodes, tags, w) && HangsOk(tags, w)
    && Shape.ShapeOk(stored.Keys, w.inner.Keys, w.edges)
  }

  // ----- steps that leave the tree alone

  /** The same nodes belong to the tree, with the same children; nodes may be added that do not. */
  ghost predicate SameTree(nodes: seq<Node>, nodes': seq<Node>) {
    && |nodes| <= |nodes'|
    && (forall i | 0 <= i < |nodes| :: nodes'[i].leaf == nodes[i].leaf && (InTree(nodes', i) <==> InTree(nodes, i)))
    && (forall i | 0 <= i < |nodes| :: InTree(nodes, i) ==> nodes'[i].kids == nodes[i].kids)
    && (forall i | |nodes| <= i < |nodes'| :: !InTree(nodes', i))
  }

  lemma TreeKept(nodes: seq<Node>, nodes': seq<Node>, tags: seq<Tag>, tags': seq<Tag>, stored: map<Key, Tid>, w: View)
    requires ViewOk(nodes, tags, stored, w) && SameTree(nodes, nodes') && TagsOk(nodes', tags') && tags <= tags'
    ensures ViewOk(nodes', tags', stored, w)
  {
    hide Shape.ShapeOk;
    assert forall i | 0 <= i < |tags| :: tags'[i] == tags[i];
    assert KidsOk(nodes', tags', w) by {
      forall i: nat | InTree(nodes', i) && i < |tags'| && !tags'[i].leaf ensures KidsAt(nodes', tags', w, i) {
        assert InTree(nodes, i) && KidsAt(nodes, tags, w, i);
      }
    }
  }

  // ----- an insert

  /**
   * The pointer of the anchor moves. Before, it led to the victim, or nowhere for a plain insert; the nodes from made
   * on join the tree, the victim leaves it.
   */
  ghost predicate Moves(nodes: seq<Node>, nodes': seq<Node>, a: nat, ab: Byte, victim: Option<nat>, made: nat, n: nat) {
    && |nodes'| == |nodes| && InTree(nodes, a) && made + n <= |nodes| && n > 0
    && Kid(nodes[a], ab) == victim && (victim.Some? ==> victim.value != a && InTree(nodes, victim.value))
    && (forall i | 0 <= i < |nodes| ::
          && nodes'[i].leaf == nodes[i].leaf
          && nodes'[i].kids == (if i == a then nodes[i].kids[ab := made] else nodes[i].kids)
          && (InTree(nodes', i) <==> (InTree(nodes, i) && Some(i) != victim) || made <= i < made + n))
    && forall i | made <= i < made + n :: !InTree(nodes, i)
  }

  /** A place is found again under a new view if it is not the victim's. */
  lemma OtherTargets(tags: seq<Tag>, stored: map<Key, Tid>, w: View, e: Shape.Edge, f: Shape.Edge)
    requires Shape.ShapeOk(stored.Keys, w.inner.Keys, w.edges) && e in w.edges && f in w.edges && e != f
    ensures w.edges[e] != w.edges[f]
  {
    if w.edges[e] == w.edges[f] {
      Shape.OneEdgePerTarget(stored.Keys, w.inner.Keys, w.edges, e, f);
    }
  }

  lemma TargetKnown(stored: map<Key, Tid>, w: View, e: Shape.Edge)
    requires Shape.ShapeOk(stored.Keys, w.inner.Keys, w.edges) && e in w.edges
    ensures e.path in w.inner
    ensures w.edges[e].ToLeaf? ==> w.edges[e].key in stored && Shape.Under(e.path, e.byte, w.edges[e].key)
    ensures w.edges[e].ToInner? ==> w.edges[e].path in w.inner && Shape.Under(e.path, e.byte, w.edges[e].path)
  {
    assert Shape.TargetOk(stored.Keys, w.inner.Keys, e, w.edges[e]);
  }

  // ----- a plain insert

  lemma PlainPlaces(nodes: seq<Node>, nodes': seq<Node>, tags: seq<Tag>, stored: map<Key, Tid>, w: View,
                    a: nat, ab: Byte, made: nat, k: Key, tid: Tid, w': View)
    requires TagsOk(nodes, tags) && PlacesOk(nodes, tags, stored, w) && Moves(nodes, nodes', a, ab, None, made, 1)
    requires k !in stored && tags[made].leaf && tags[made].path == k && tags[made].tid == tid
    requires w'.inner == w.inner && w'.leaves == w.leaves[k := made]
    ensures TagsOk(nodes', tags) && PlacesOk(nodes', tags, stored[k := tid], w')
  {
    assert InnerPlaces(nodes', tags, w') by {
      forall p | p in w'.inner ensures InnerAt(nodes', tags, w'.inner[p], p) {
        assert InnerAt(nodes, tags, w.inner[p], p);
      }
    }
    assert LeafPlaces(nodes', tags, stored[k := tid], w') by {
      forall q | q in w'.leaves ensures LeafAt(nodes', tags, w'.leaves[q], q, stored[k := tid][q]) {
        if q != k {
          assert LeafAt(nodes, tags, w.leaves[q], q, stored[q]);
        }
      }
    }
    assert AllPlaced(nodes', tags, w') by {
      forall i: nat | InTree(nodes', i) && i < |tags| ensures Placed(w', i, tags[i]) {
        if i != made {
          assert Placed(w, i, tags[i]);
        }
      }
    }
  }

  lemma OneNodePerPath(nodes: seq<Node>, tags: seq<Tag>, stored: map<Key, Tid>, w: View, i: nat, j: nat)
    requires PlacesOk(nodes, tags, stored, w) && InTree(nodes, i) && InTree(nodes, j) && i < |tags| && j < |tags|
    requires tags[i].leaf == tags[j].leaf && tags[i].path == tags[j].path
    ensures i == j
  {
  }

  lemma PlainKids(nodes: seq<Node>, nodes': seq<Node>, tags: seq<Tag>, stored: map<Key, Tid>, w: View,
                  a: nat, made: nat, k: Key)
    requires TagsOk(nodes, tags) && PlacesOk(nodes, tags, stored, w) && KidsOk(nodes, tags, w)
    requires Shape.ShapeOk(stored.Keys, w.inner.Keys, w.edges) && k !in stored
    requires a < |tags| && !tags[a].leaf && |tags[a].path| < |k|
    requires Moves(nodes, nodes', a, k[|tags[a].path|], None, made, 1) && tags[made].leaf
    ensures KidsOk(nodes', tags, View(w.inner, w.leaves[k := made],
                                      w.edges[Shape.Edge(tags[a].path, k[|tags[a].path|]) := Shape.ToLeaf(k)]))
  {
    hide Shape.ShapeOk, PlacesOk;
    var p := tags[a].path;
    var e := Shape.Edge(p, k[|p|]);
    var w' := View(w.inner, w.leaves[k := made], w.edges[e := Shape.ToLeaf(k)]);
    forall i: nat | InTree(nodes', i) && i < |tags| && !tags[i].leaf ensures KidsAt(nodes', tags, w', i) {
      assert InTree(nodes, i) && KidsAt(nodes, tags, w, i);
      forall b: Byte ensures Kid(nodes'[i], b) == EdgeTo(w', tags[i].path, b) {
        PlainKid(nodes, nodes', tags, stored, w, a, made, k, i, b);
      }
    }
  }

  lemma PlainKid(nodes: seq<Node>, nodes': seq<Node>, tags: seq<Tag>, stored: map<Key, Tid>, w: View,
                 a: nat, made: nat, k: Key, i: nat, b: Byte)
    requires TagsOk(nodes, tags) && PlacesOk(nodes, tags, stored, w)
    requires Shape.ShapeOk(stored.Keys, w.inner.Keys, w.edges) && k !in stored
    requires a < |tags| && !tags[a].leaf && |tags[a].path| < |k|
    requires Moves(nodes, nodes', a, k[|tags[a].path|], None, made, 1)
    requires InTree(nodes, i) && i < |tags| && !tags[i].leaf && Kid(nodes[i], b) == EdgeTo(w, tags[i].path, b)
    ensures Kid(nodes'[i], b)
            == EdgeTo(View(w.inner, w.leaves[k := made],
                           w.edges[Shape.Edge(tags[a].path, k[|tags[a].path|]) := Shape.ToLeaf(k)]), tags[i].path, b)
  {
    hide Shape.ShapeOk, TagsOk, PlacesOk;
    var p := tags[a].path;
    var f := Shape.Edge(tags[i].path, b);
    LeavesAreStored(nodes, tags, stored, w);
    if tags[i].path == p {
      OneNodePerPath(nodes, tags, stored, w, i, a);
    }
    if f in w.edges {
      TargetKnown(stored, w, f);
    }
  }

  lemma LeavesAreStored(nodes: seq<Node>, tags: seq<Tag>, stored: map<Key, Tid>, w: View)
    requires PlacesOk(nodes, tags, stored, w)
    ensures w.leaves.Keys == stored.Keys
  {
  }

  /** A key that leaves the tree at a free byte. */
  lemma PlainShape(stored: map<Key, Tid>, w: View, p: Key, k: Key, tid: Tid)
    requires Shape.ShapeOk(stored.Keys, w.inner.Keys, w.edges) && p in w.inner && Prefix(p, k) && |p| < |k|
    requires Shape.Edge(p, k[|p|]) !in w.edges
    ensures Shape.ShapeOk(stored[k := tid].Keys, w.inner.Keys, w.edges[Shape.Edge(p, k[|p|]) := Shape.ToLeaf(k)])
  {
    assert Shape.StopsAt(stored.Keys, w.inner.Keys, w.edges, p, k);
    Shape.AddAtFreeEdge(stored.Keys, w.inner.Keys, w.edges, p, k);
    assert stored[k := tid].Keys == stored.Keys + {k};
  }

  lemma PlainView(nodes: seq<Node>, nodes': seq<Node>, tags: seq<Tag>, stored: map<Key, Tid>, w: View,
                  a: nat, made: nat, k: Key, tid: Tid)
    requires ViewOk(nodes, tags, stored, w) && a < |tags| && !tags[a].leaf && |tags[a].path| < |k|
    requires Prefix(tags[a].path, k)
    requires Moves(nodes, nodes', a, k[|tags[a].path|], None, made, 1) && k !in stored
    requires tags[made].leaf && tags[made].path == k && tags[made].tid == tid
    ensures ViewOk(nodes', tags, stored[k := tid],
                   View(w.inner, w.leaves[k := made],
                        w.edges[Shape.Edge(tags[a].path, k[|tags[a].path|]) := Shape.ToLeaf(k)]))
  {
    hide Shape.ShapeOk, TagsOk, KidsOk;
    var p := tags[a].path;
    AnchorInView(nodes, tags, stored, w, a, k[|p|]);
    PlainPlaces(nodes, nodes', tags, stored, w, a, k[|p|], made, k, tid,
                View(w.inner, w.leaves[k := made], w.edges[Shape.Edge(p, k[|p|]) := Shape.ToLeaf(k)]));
    PlainKids(nodes, nodes', tags, stored, w, a, made, k);
    PlainShape(stored, w, p, k, tid);
    hide PlacesOk;
  }

  lemma AnchorInView(nodes: seq<Node>, tags: seq<Tag>, stored: map<Key, Tid>, w: View, a: nat, b: Byte)
    requires ViewOk(nodes, tags, stored, w) && InTree(nodes, a) && a < |tags| && !tags[a].leaf
    ensures tags[a].path in w.inner && w.inner[tags[a].path] == a && Kid(nodes[a], b) == EdgeTo(w, tags[a].path, b)
  {
    hide Shape.ShapeOk, TagsOk;
    assert KidsAt(nodes, tags, w, a);
  }

  // ----- an insert that replaces a node

  /** The target a node is. */
  ghost function TargetOf(n: Tag): Shape.Target {
    if n.leaf then Shape.ToLeaf(n.path) else Shape.ToInner(n.path)
  }

  /** Every place but one is as before. */
  ghost predicate SamePlaces(w: View, w': View, t: Shape.Target) {
    && (forall q | q in w.inner && Shape.ToInner(q) != t :: q in w'.inner && w'.inner[q] == w.inner[q])
    && (forall k | k in w.leaves && Shape.ToLeaf(k) != t :: k in w'.leaves && w'.leaves[k] == w.leaves[k])
  }

  /** The edge behind a child pointer. */
  lemma EdgeBehind(nodes: seq<Node>, tags: seq<Tag>, stored: map<Key, Tid>, w: View, p: Key, b: Byte, x: nat)
    requires PlacesOk(nodes, tags, stored, w) && Shape.ShapeOk(stored.Keys, w.inner.Keys, w.edges)
    requires EdgeTo(w, p, b) == Some(x)
    ensures InTree(nodes, x) && x < |tags|
    ensures Shape.Edge(p, b) in w.edges && w.edges[Shape.Edge(p, b)] == TargetOf(tags[x])
    ensures Shape.Under(p, b, tags[x].path) && p in w.inner
    ensures tags[x].leaf ==> tags[x].path in stored && stored[tags[x].path] == tags[x].tid
  {
    hide Shape.ShapeOk;
    TargetKnown(stored, w, Shape.Edge(p, b));
  }

  /** Any other child pointer of an old node leads where it did. */
  lemma OldKid(nodes: seq<Node>, tags: seq<Tag>, stored: map<Key, Tid>, w: View, e: Shape.Edge, f: Shape.Edge, w': View)
    requires PlacesOk(nodes, tags, stored, w) && Shape.ShapeOk(stored.Keys, w.inner.Keys, w.edges)
    requires e in w.edges && f != e && SamePlaces(w, w', w.edges[e])
    requires f in w'.edges <==> f in w.edges
    requires f in w.edges ==> w'.edges[f] == w.edges[f]
    ensures EdgeTo(w', f.path, f.byte) == EdgeTo(w, f.path, f.byte)
  {
    hide Shape.ShapeOk, PlacesOk;
    LeavesAreStored(nodes, tags, stored, w);
    if f in w.edges {
      TargetKnown(stored, w, f);
      OtherTargets(tags, stored, w, e, f);
    }
  }

  // ----- growth

  lemma GrowPlaces(nodes: seq<Node>, nodes': seq<Node>, tags: seq<Tag>, stored: map<Key, Tid>, w: View,
                   a: nat, ab: Byte, victim: nat, made: nat, k: Key, tid: Tid, w': View)
    requires TagsOk(nodes, tags) && PlacesOk(nodes, tags, stored, w)
    requires Moves(nodes, nodes', a, ab, Some(victim), made, 2)
    requires w'.inner == w.inner[tags[victim].path := made] && w'.leaves == w.leaves[k := made + 1]
    requires k !in stored && !tags[victim].leaf && tags[victim].path != []
    requires !tags[made].leaf && tags[made].path == tags[victim].path
    requires tags[made + 1].leaf && tags[made + 1].path == k && tags[made + 1].tid == tid
    ensures TagsOk(nodes', tags)
    ensures PlacesOk(nodes', tags, stored[k := tid], w')
  {
    hide InnerPlaces, LeafPlaces, AllPlaced;
    GrowInner(nodes, nodes', tags, w, a, ab, victim, made, w');
    GrowLeaves(nodes, nodes', tags, stored, w, a, ab, victim, made, k, tid, w');
    GrowPlaced(nodes, nodes', tags, stored, w, a, ab, victim, made, k, w');
  }

  lemma GrowInner(nodes: seq<Node>, nodes': seq<Node>, tags: seq<Tag>, w: View,
                  a: nat, ab: Byte, victim: nat, made: nat, w': View)
    requires InnerPlaces(nodes, tags, w) && Moves(nodes, nodes', a, ab, Some(victim), made, 2) && |tags| == |nodes|
    requires w'.inner == w.inner[tags[victim].path := made] && !tags[made].leaf && tags[made].path == tags[victim].path
    ensures InnerPlaces(nodes', tags, w')
  {
    forall p | p in w'.inner ensures InnerAt(nodes', tags, w'.inner[p], p) {
      if p != tags[victim].path {
        assert InnerAt(nodes, tags, w.inner[p], p);
      }
    }
  }

  lemma GrowLeaves(nodes: seq<Node>, nodes': seq<Node>, tags: seq<Tag>, stored: map<Key, Tid>, w: View,
                   a: nat, ab: Byte, victim: nat, made: nat, k: Key, tid: Tid, w': View)
    requires LeafPlaces(nodes, tags, stored, w) && Moves(nodes, nodes', a, ab, Some(victim), made, 2)
    requires |tags| == |nodes|
    requires w'.leaves == w.leaves[k := made + 1] && !tags[victim].leaf
    requires tags[made + 1].leaf && tags[made + 1].path == k && tags[made + 1].tid == tid
    ensures LeafPlaces(nodes', tags, stored[k := tid], w')
  {
    assert InTree(nodes', made + 1);
    forall q | q in w'.leaves ensures LeafAt(nodes', tags, w'.leaves[q], q, stored[k := tid][q]) {
      if q != k {
        assert LeafAt(nodes, tags, w.leaves[q], q, stored[q]);
      }
    }
  }

  lemma GrowPlaced(nodes: seq<Node>, nodes': seq<Node>, tags: seq<Tag>, stored: map<Key, Tid>, w: View,
                   a: nat, ab: Byte, victim: nat, made: nat, k: Key, w': View)
    requires LeafPlaces(nodes, tags, stored, w) && AllPlaced(nodes, tags, w) && k !in stored
    requires Moves(nodes, nodes', a, ab, Some(victim), made, 2) && |tags| == |nodes|
    requires w'.inner == w.inner[tags[victim].path := made] && w'.leaves == w.leaves[k := made + 1]
    requires !tags[victim].leaf && !tags[made].leaf && tags[made].path == tags[victim].path
    requires tags[made + 1].leaf && tags[made + 1].path == k
    ensures AllPlaced(nodes', tags, w')
  {
    hide LeafPlaces;
    LeafKeys(nodes, tags, stored, w);
    assert Placed(w, victim, tags[victim]);
    forall i: nat | InTree(nodes', i) && i < |tags| ensures Placed(w', i, tags[i]) {
      if InTree(nodes, i) {
        assert Placed(w, i, tags[i]);
      }
    }
  }

  lemma GrowKid(nodes: seq<Node>, nodes': seq<Node>, tags: seq<Tag>, stored: map<Key, Tid>, w: View,
                a: nat, ab: Byte, victim: nat, made: nat, k: Key, w': View, i: nat, b: Byte)
    requires PlacesOk(nodes, tags, stored, w) && Shape.ShapeOk(stored.Keys, w.inner.Keys, w.edges) && k !in stored
    requires Moves(nodes, nodes', a, ab, Some(victim), made, 2) && |tags| == |nodes|
    requires !tags[a].leaf && !tags[victim].leaf && tags[made].path == tags[victim].path && |tags[victim].path| < |k|
    requires nodes[made].kids == nodes[victim].kids[k[|tags[victim].path|] := made + 1]
    requires KidsAt(nodes, tags, w, a) && KidsAt(nodes, tags, w, victim)
    requires var q := tags[victim].path;
             w' == View(w.inner[q := made], w.leaves[k := made + 1], w.edges[Shape.Edge(q, k[|q|]) := Shape.ToLeaf(k)])
    requires i < |tags| && !tags[i].leaf
    requires i == made || (InTree(nodes, i) && i != victim && KidsAt(nodes, tags, w, i))
    ensures Kid(nodes'[i], b) == EdgeTo(w', tags[i].path, b)
  {
    hide Shape.ShapeOk, PlacesOk;
    var q := tags[victim].path;
    var e, f := Shape.Edge(tags[a].path, ab), Shape.Edge(tags[i].path, b);
    LeavesAreStored(nodes, tags, stored, w);
    assert Kid(nodes[a], ab) == EdgeTo(w, tags[a].path, ab);
    EdgeBehind(nodes, tags, stored, w, tags[a].path, ab, victim);
    if i != made && tags[i].path == q {
      OneNodePerPath(nodes, tags, stored, w, i, victim);
    }
    if i != a && i != made && tags[i].path == tags[a].path {
      OneNodePerPath(nodes, tags, stored, w, i, a);
    }
    assert q != tags[a].path;
    if f != e && f != Shape.Edge(q, k[|q|]) {
      OldKid(nodes, tags, stored, w, e, f, w');
    }
    assert Kid(nodes[victim], b) == EdgeTo(w, q, b);
  }

  lemma GrowView(nodes: seq<Node>, nodes': seq<Node>, tags: seq<Tag>, stored: map<Key, Tid>, w: View,
                 a: nat, ab: Byte, victim: nat, made: nat, k: Key, tid: Tid)
    requires ViewOk(nodes, tags, stored, w) && Moves(nodes, nodes', a, ab, Some(victim), made, 2) && k !in stored
    requires !tags[a].leaf && !tags[victim].leaf && Prefix(tags[victim].path, k) && |tags[victim].path| < |k|
    requires Kid(nodes[victim], k[|tags[victim].path|]) == None
    requires !tags[made].leaf && tags[made].path == tags[victim].path && tags[made].hang == tags[victim].hang
    requires tags[made + 1].leaf && tags[made + 1].path == k && tags[made + 1].tid == tid
    requires nodes[made].kids == nodes[victim].kids[k[|tags[victim].path|] := made + 1]
    ensures var q := tags[victim].path;
            ViewOk(nodes', tags, stored[k := tid],
                   View(w.inner[q := made], w.leaves[k := made + 1], w.edges[Shape.Edge(q, k[|q|]) := Shape.ToLeaf(k)]))
  {
    hide Shape.ShapeOk, HangsOk, PlacesOk;
    var q := tags[victim].path;
    var w' := View(w.inner[q := made], w.leaves[k := made + 1], w.edges[Shape.Edge(q, k[|q|]) := Shape.ToLeaf(k)]);
    AnchorInView(nodes, tags, stored, w, a, ab);
    AnchorInView(nodes, tags, stored, w, victim, k[|q|]);
    EdgeBehind(nodes, tags, stored, w, tags[a].path, ab, victim);
    GrowPlaces(nodes, nodes', tags, stored, w, a, ab, victim, made, k, tid, w');
    forall i: nat | InTree(nodes', i) && i < |tags| && !tags[i].leaf ensures KidsAt(nodes', tags, w', i) {
      if i != made {
        assert InTree(nodes, i) && KidsAt(nodes, tags, w, i);
      }
      forall b: Byte ensures Kid(nodes'[i], b) == EdgeTo(w', tags[i].path, b) {
        GrowKid(nodes, nodes', tags, stored, w, a, ab, victim, made, k, w', i, b);
      }
    }
    PlainShape(stored, w, q, k, tid);
    assert w.inner[q := made].Keys == w.inner.Keys;
    GrowHangs(tags, w, victim, made, k);
  }

  lemma GrowHangs(tags: seq<Tag>, w: View, victim: nat, made: nat, k: Key)
    requires HangsOk(tags, w) && victim < |tags| && made < |tags| && tags[made].hang == tags[victim].hang
    requires tags[victim].path in w.inner && w.inner[tags[victim].path] == victim && |tags[victim].path| < |k|
    ensures var q := tags[victim].path;
            HangsOk(tags, View(w.inner[q := made], w.leaves[k := made + 1],
                               w.edges[Shape.Edge(q, k[|q|]) := Shape.ToLeaf(k)]))
  {
  }

  // ----- a split

  /** The new node r takes the victim's place; the new leaf and the victim's copy hang below it. */
  ghost predicate Splits(nodes: seq<Node>, tags: seq<Tag>, a: nat, ab: Byte, victim: nat, made: nat, k: Key, tid: Tid,
                         r: Key) {
    && |tags| == |nodes| && a < |nodes| && victim < |nodes| && made + 2 < |nodes| && !tags[a].leaf
    && Shape.Under(tags[a].path, ab, r) && Shape.Diverge(r, k, tags[victim].path)
    && tags[made] == Tag(false, r, |tags[a].path| + 1, 0)
    && tags[made + 1].leaf && tags[made + 1].path == k && tags[made + 1].tid == tid
    && tags[made + 2].leaf == tags[victim].leaf && tags[made + 2].path == tags[victim].path
    && (if tags[victim].leaf then tags[made + 2].tid == tags[victim].tid else tags[made + 2].hang == |r| + 1)
    && nodes[made].kids == map[k[|r|] := made + 1, tags[victim].path[|r|] := made + 2]
    && nodes[made + 2].kids == nodes[victim].kids
  }

  ghost function SplitView(w: View, v: Tag, p: Key, k: Key, r: Key, made: nat): View
    requires |p| < |k| && |r| < |k| && |r| < |v.path| && Shape.Edge(p, k[|p|]) in w.edges
  {
    View(if v.leaf then w.inner[r := made] else w.inner[r := made][v.path := made + 2],
         if v.leaf then w.leaves[k := made + 1][v.path := made + 2] else w.leaves[k := made + 1],
         Shape.Split(w.edges, p, k, r, v.path[|r|]))
  }

  lemma SplitInner(nodes: seq<Node>, nodes': seq<Node>, tags: seq<Tag>, w: View,
                   a: nat, ab: Byte, victim: nat, made: nat, k: Key, tid: Tid, r: Key, w': View)
    requires TagsOk(nodes, tags) && InnerPlaces(nodes, tags, w) && Moves(nodes, nodes', a, ab, Some(victim), made, 3)
    requires Splits(nodes, tags, a, ab, victim, made, k, tid, r)
    requires var v := tags[victim];
             w'.inner == if v.leaf then w.inner[r := made] else w.inner[r := made][v.path := made + 2]
    ensures InnerPlaces(nodes', tags, w')
  {
    hide TagsOk;
    forall p | p in w'.inner ensures InnerAt(nodes', tags, w'.inner[p], p) {
      if p in w.inner {
        assert InnerAt(nodes, tags, w.inner[p], p);
      }
    }
  }

  lemma SplitLeaves(nodes: seq<Node>, nodes': seq<Node>, tags: seq<Tag>, stored: map<Key, Tid>, w: View,
                    a: nat, ab: Byte, victim: nat, made: nat, k: Key, tid: Tid, r: Key, w': View)
    requires LeafPlaces(nodes, tags, stored, w) && Moves(nodes, nodes', a, ab, Some(victim), made, 3)
    requires Splits(nodes, tags, a, ab, victim, made, k, tid, r) && Placed(w, victim, tags[victim]) && k !in stored
    requires var v := tags[victim];
             w'.leaves == if v.leaf then w.leaves[k := made + 1][v.path := made + 2] else w.leaves[k := made + 1]
    ensures LeafPlaces(nodes', tags, stored[k := tid], w')
  {
    hide Shape.Under, Shape.Diverge;
    assert InTree(nodes', made + 1) && InTree(nodes', made + 2);
    forall q | q in w'.leaves
      ensures q in stored[k := tid] && LeafAt(nodes', tags, w'.leaves[q], q, stored[k := tid][q])
    {
      if q in w.leaves {
        assert LeafAt(nodes, tags, w.leaves[q], q, stored[q]);
      }
    }
  }

  lemma SplitPlaced(nodes: seq<Node>, nodes': seq<Node>, tags: seq<Tag>, w: View,
                    a: nat, ab: Byte, victim: nat, made: nat, k: Key, tid: Tid, r: Key, w': View)
    requires AllPlaced(nodes, tags, w) && Moves(nodes, nodes', a, ab, Some(victim), made, 3)
    requires Splits(nodes, tags, a, ab, victim, made, k, tid, r) && k !in w.leaves && r !in w.inner
    requires var v := tags[victim];
             && w'.inner == (if v.leaf then w.inner[r := made] else w.inner[r := made][v.path := made + 2])
             && w'.leaves == (if v.leaf then w.leaves[k := made + 1][v.path := made + 2] else w.leaves[k := made + 1])
    ensures AllPlaced(nodes', tags, w')
  {
    assert Placed(w, victim, tags[victim]);
    forall i: nat | InTree(nodes', i) && i < |tags| ensures Placed(w', i, tags[i]) {
      if InTree(nodes, i) {
        assert Placed(w, i, tags[i]);
      }
    }
  }

  lemma SplitPlaces(nodes: seq<Node>, nodes': seq<Node>, tags: seq<Tag>, stored: map<Key, Tid>, w: View,
                    a: nat, ab: Byte, victim: nat, made: nat, k: Key, tid: Tid, r: Key, w': View)
    requires TagsOk(nodes, tags) && PlacesOk(nodes, tags, stored, w)
    requires Moves(nodes, nodes', a, ab, Some(victim), made, 3)
    requires Splits(nodes, tags, a, ab, victim, made, k, tid, r) && k !in stored && r !in w.inner
    requires tags[victim].path != []
    requires var v := tags[victim];
             && w'.inner == (if v.leaf then w.inner[r := made] else w.inner[r := made][v.path := made + 2])
             && w'.leaves == (if v.leaf then w.leaves[k := made + 1][v.path := made + 2] else w.leaves[k := made + 1])
    ensures TagsOk(nodes', tags) && PlacesOk(nodes', tags, stored[k := tid], w')
  {
    hide InnerPlaces, LeafPlaces, Shape.Diverge, Shape.Under;
    assert Placed(w, victim, tags[victim]);
    LeafKeys(nodes, tags, stored, w);
    SplitInner(nodes, nodes', tags, w, a, ab, victim, made, k, tid, r, w');
    SplitLeaves(nodes, nodes', tags, stored, w, a, ab, victim, made, k, tid, r, w');
    SplitPlaced(nodes, nodes', tags, w, a, ab, victim, made, k, tid, r, w');
    hide AllPlaced;
  }

  lemma LeafKeys(nodes: seq<Node>, tags: seq<Tag>, stored: map<Key, Tid>, w: View)
    requires LeafPlaces(nodes, tags, stored, w)
    ensures w.leaves.Keys == stored.Keys
  {
  }

  lemma SplitShape(stored: map<Key, Tid>, w: View, p: Key, k: Key, tid: Tid, r: Key, v: Tag)
    requires Shape.ShapeOk(stored.Keys, w.inner.Keys, w.edges) && p in w.inner && Prefix(p, k) && |p| < |k|
    requires Shape.Edge(p, k[|p|]) in w.edges && w.edges[Shape.Edge(p, k[|p|])] == TargetOf(v)
    requires Shape.Under(p, k[|p|], r) && Shape.Diverge(r, k, v.path)
    ensures Shape.ShapeOk(stored[k := tid].Keys, w.inner.Keys + {r}, Shape.Split(w.edges, p, k, r, v.path[|r|]))
    ensures r !in w.inner
  {
    hide Shape.ShapeOk;
    assert v.path[|r|] != k[|r|];
    assert Shape.StopsAt(stored.Keys, w.inner.Keys, w.edges, p, k);
    Shape.AddAtSplit(stored.Keys, w.inner.Keys, w.edges, p, k, r);
    assert stored[k := tid].Keys == stored.Keys + {k};
    if r in w.inner.Keys {
      Shape.NoInnerBeyond(stored.Keys, w.inner.Keys, w.edges, p, k, r);
      assert false;
    }
  }

  /** Old nodes other than the anchor, and the copy of the victim, keep their edges. */
  lemma SplitOldKid(nodes: seq<Node>, tags: seq<Tag>, stored: map<Key, Tid>, w: View, e: Shape.Edge,
                    made: nat, k: Key, r: Key, v: Tag, f: Shape.Edge)
    requires PlacesOk(nodes, tags, stored, w) && Shape.ShapeOk(stored.Keys, w.inner.Keys, w.edges)
    requires k !in stored && r !in w.inner && |e.path| < |k| && |r| < |k| && |r| < |v.path|
    requires e == Shape.Edge(e.path, k[|e.path|]) && e in w.edges && w.edges[e] == TargetOf(v) && f != e && f.path != r
    ensures EdgeTo(SplitView(w, v, e.path, k, r, made), f.path, f.byte) == EdgeTo(w, f.path, f.byte)
  {
    hide Shape.ShapeOk, PlacesOk;
    LeavesAreStored(nodes, tags, stored, w);
    OldKid(nodes, tags, stored, w, e, f, SplitView(w, v, e.path, k, r, made));
  }

  lemma SplitKid(nodes: seq<Node>, nodes': seq<Node>, tags: seq<Tag>, stored: map<Key, Tid>, w: View,
                 a: nat, ab: Byte, victim: nat, made: nat, k: Key, tid: Tid, r: Key, i: nat, b: Byte)
    requires PlacesOk(nodes, tags, stored, w) && Shape.ShapeOk(stored.Keys, w.inner.Keys, w.edges) && k !in stored
    requires Moves(nodes, nodes', a, ab, Some(victim), made, 3) && r !in w.inner
    requires Splits(nodes, tags, a, ab, victim, made, k, tid, r)
    requires Shape.Edge(tags[a].path, ab) in w.edges && w.edges[Shape.Edge(tags[a].path, ab)] == TargetOf(tags[victim])
    requires |tags[a].path| < |k| && ab == k[|tags[a].path|]
    requires KidsAt(nodes, tags, w, a) && (!tags[victim].leaf ==> KidsAt(nodes, tags, w, victim))
    requires i < |tags| && !tags[i].leaf
    requires i == made || i == made + 2 || (InTree(nodes, i) && i != victim && KidsAt(nodes, tags, w, i))
    ensures Kid(nodes'[i], b) == EdgeTo(SplitView(w, tags[victim], tags[a].path, k, r, made), tags[i].path, b)
  {
    hide Shape.ShapeOk, PlacesOk;
    var v, p := tags[victim], tags[a].path;
    var e, f := Shape.Edge(p, ab), Shape.Edge(tags[i].path, b);
    if i == made {
      NoEdgeFrom(stored, w, r, b);
    } else {
      if i != made + 2 {
        InnerPlace(nodes, tags, stored, w, i);
        InnerPlace(nodes, tags, stored, w, a);
      } else {
        InnerPlace(nodes, tags, stored, w, victim);
      }
      if f != e {
        SplitOldKid(nodes, tags, stored, w, e, made, k, r, v, f);
      }
    }
  }

  lemma InnerPlace(nodes: seq<Node>, tags: seq<Tag>, stored: map<Key, Tid>, w: View, i: nat)
    requires PlacesOk(nodes, tags, stored, w) && InTree(nodes, i) && i < |tags| && !tags[i].leaf
    ensures tags[i].path in w.inner && w.inner[tags[i].path] == i
  {
    assert Placed(w, i, tags[i]);
  }

  lemma NoEdgeFrom(stored: map<Key, Tid>, w: View, r: Key, b: Byte)
    requires Shape.ShapeOk(stored.Keys, w.inner.Keys, w.edges) && r !in w.inner
    ensures Shape.Edge(r, b) !in w.edges
  {
    hide Shape.ShapeOk;
    if Shape.Edge(r, b) in w.edges {
      TargetKnown(stored, w, Shape.Edge(r, b));
      assert false;
    }
  }

  lemma SplitHangs(nodes: seq<Node>, tags: seq<Tag>, stored: map<Key, Tid>, w: View,
                   a: nat, ab: Byte, victim: nat, made: nat, k: Key, tid: Tid, r: Key)
    requires HangsOk(tags, w) && PlacesOk(nodes, tags, stored, w) && Shape.ShapeOk(stored.Keys, w.inner.Keys, w.edges)
    requires Splits(nodes, tags, a, ab, victim, made, k, tid, r) && r !in w.inner && k !in stored
    requires Shape.Edge(tags[a].path, ab) in w.edges && w.edges[Shape.Edge(tags[a].path, ab)] == TargetOf(tags[victim])
    requires |tags[a].path| < |k| && ab == k[|tags[a].path|]
    ensures HangsOk(tags, SplitView(w, tags[victim], tags[a].path, k, r, made))
  {
    hide Shape.ShapeOk, PlacesOk;
    var v, p := tags[victim], tags[a].path;
    var e, w' := Shape.Edge(p, ab), SplitView(w, tags[victim], tags[a].path, k, r, made);
    forall f | f in w'.edges && w'.edges[f].ToInner? && w'.edges[f].path in w'.inner
               && w'.inner[w'.edges[f].path] < |tags|
      ensures tags[w'.inner[w'.edges[f].path]].hang == |f.path| + 1
    {
      if f != e && f.path != r {
        TargetKnown(stored, w, f);
        OtherTargets(tags, stored, w, e, f);
      } else if f.path == r {
        NoEdgeFrom(stored, w, r, f.byte);
      }
    }
  }

  lemma SplitOk(nodes: seq<Node>, nodes': seq<Node>, tags: seq<Tag>, stored: map<Key, Tid>, w: View,
                a: nat, ab: Byte, victim: nat, made: nat, k: Key, tid: Tid, r: Key)
    requires ViewOk(nodes, tags, stored, w) && Moves(nodes, nodes', a, ab, Some(victim), made, 3) && k !in stored
    requires Splits(nodes, tags, a, ab, victim, made, k, tid, r)
    ensures |tags[a].path| < |k| && Shape.Edge(tags[a].path, k[|tags[a].path|]) in w.edges
    ensures ViewOk(nodes', tags, stored[k := tid], SplitView(w, tags[victim], tags[a].path, k, r, made))
  {
    hide Shape.ShapeOk, HangsOk, PlacesOk, TagsOk;
    var v, p := tags[victim], tags[a].path;
    AnchorInView(nodes, tags, stored, w, a, ab);
    EdgeBehind(nodes, tags, stored, w, p, ab, victim);
    Shape.PrefixUnder(p, ab, r, k);
    SplitShape(stored, w, p, k, tid, r, v);
    var w' := SplitView(w, v, p, k, r, made);
    SplitPlaces(nodes, nodes', tags, stored, w, a, ab, victim, made, k, tid, r, w');
    SplitHangs(nodes, tags, stored, w, a, ab, victim, made, k, tid, r);
    SplitKids(nodes, nodes', tags, stored, w, a, ab, victim, made, k, tid, r);
    if !v.leaf {
      InnerPlace(nodes, tags, stored, w, victim);
    }
    assert w'.inner.Keys == w.inner.Keys + {r};
  }

  lemma SplitKids(nodes: seq<Node>, nodes': seq<Node>, tags: seq<Tag>, stored: map<Key, Tid>, w: View,
                  a: nat, ab: Byte, victim: nat, made: nat, k: Key, tid: Tid, r: Key)
    requires PlacesOk(nodes, tags, stored, w) && Shape.ShapeOk(stored.Keys, w.inner.Keys, w.edges)
    requires KidsOk(nodes, tags, w)
    requires Moves(nodes, nodes', a, ab, Some(victim), made, 3) && r !in w.inner && k !in stored
    requires Splits(nodes, tags, a, ab, victim, made, k, tid, r)
    requires Shape.Edge(tags[a].path, ab) in w.edges && w.edges[Shape.Edge(tags[a].path, ab)] == TargetOf(tags[victim])
    requires |tags[a].path| < |k| && ab == k[|tags[a].path|]
    ensures KidsOk(nodes', tags, SplitView(w, tags[victim], tags[a].path, k, r, made))
  {
    hide Shape.ShapeOk, PlacesOk, Shape.Under;
    var w' := SplitView(w, tags[victim], tags[a].path, k, r, made);
    assert KidsAt(nodes, tags, w, a);
    forall i: nat | InTree(nodes', i) && i < |tags| && !tags[i].leaf ensures KidsAt(nodes', tags, w', i) {
      if InTree(nodes, i) {
        assert KidsAt(nodes, tags, w, i);
      }
      forall b: Byte ensures Kid(nodes'[i], b) == EdgeTo(w', tags[i].path, b) {
        SplitKid(nodes, nodes', tags, stored, w, a, ab, victim, made, k, tid, r, i, b);
      }
    }
  }
}
