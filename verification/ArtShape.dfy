/**
 * The shape of a path-compressed radix tree as a function of its key set: inner nodes sit exactly where keys branch,
 * and each edge leads to the one leaf or to the next branching point below it.
 */
module ArtShape {
  import opened Bytes

  type Key = Word

  /** A node stores this many bytes of its compressed prefix. */
  const MAX_STORED_PREFIX: nat := 11

  /** Key k lies below the edge that leaves path p under byte b. */
  predicate Under(p: Key, b: Byte, k: Key) {
    |p| < |k| && Prefix(p, k) && k[|p|] == b
  }

  /** The two keys agree on p and part company right after it. */
  predicate Diverge(p: Key, a: Key, b: Key) {
    && |p| < |a| && |p| < |b| && Prefix(p, a) && Prefix(p, b)
    && a[|p|] != b[|p|]
  }

  /** No key is empty or a proper prefix of another: fixed-length or terminated keys. */
  ghost predicate PrefixFree(keys: set<Key>) {
    && [] !in keys
    && forall a, b | a in keys && b in keys && Prefix(a, b) :: a == b
  }

  ghost predicate Branch(keys: set<Key>, p: Key) {
    exists a, b :: a in keys && b in keys && Diverge(p, a, b)
  }

  datatype Edge = Edge(path: Key, byte: Byte)
  datatype Target = ToInner(path: Key) | ToLeaf(key: Key)

  /** An inner node is named by the bytes every key below it shares, its compressed prefix included. */
  ghost predicate InnerOk(keys: set<Key>, inner: set<Key>) {
    && [] in inner
    && (forall p | p in inner :: p == [] || Branch(keys, p))
    && (forall p | Branch(keys, p) :: p in inner)
  }

  ghost predicate EdgesOk(keys: set<Key>, inner: set<Key>, edges: map<Edge, Target>) {
    && (forall e | e in edges :: e.path in inner && TargetOk(keys, inner, e, edges[e]))
    && (forall p, k | p in inner && k in keys && |p| < |k| && Prefix(p, k) :: Edge(p, k[|p|]) in edges)
  }

  ghost predicate TargetOk(keys: set<Key>, inner: set<Key>, e: Edge, t: Target) {
    match t
    case ToLeaf(key) =>
      && key in keys && Under(e.path, e.byte, key)
      && forall k | k in keys && Under(e.path, e.byte, k) :: k == key
    case ToInner(path) =>
      && path in inner && Under(e.path, e.byte, path)
      && forall k | k in keys && Under(e.path, e.byte, k) :: Prefix(path, k)
  }

  ghost predicate ShapeOk(keys: set<Key>, inner: set<Key>, edges: map<Edge, Target>) {
    InnerOk(keys, inner) && EdgesOk(keys, inner, edges)
  }

  // ----- the shape is determined by the key set

  lemma BelowInner(keys: set<Key>, inner: set<Key>, p: Key) returns (a: Key, b: Key)
    requires InnerOk(keys, inner) && p in inner && p != []
    ensures a in keys && b in keys && Diverge(p, a, b)
  {
    a, b :| a in keys && b in keys && Diverge(p, a, b);
  }

  lemma ShapeIsUnique(keys: set<Key>, inner1: set<Key>, edges1: map<Edge, Target>,
                      inner2: set<Key>, edges2: map<Edge, Target>)
    requires ShapeOk(keys, inner1, edges1) && ShapeOk(keys, inner2, edges2)
    ensures inner1 == inner2 && edges1 == edges2
  {
    assert inner1 == inner2;
    EdgesAgree(keys, inner1, edges1, edges2);
    EdgesAgree(keys, inner1, edges2, edges1);
  }

  lemma EdgesAgree(keys: set<Key>, inner: set<Key>, edges1: map<Edge, Target>, edges2: map<Edge, Target>)
    requires ShapeOk(keys, inner, edges1) && ShapeOk(keys, inner, edges2)
    ensures forall e | e in edges1 :: e in edges2 && edges1[e] == edges2[e]
  {
    forall e | e in edges1
      ensures e in edges2 && edges1[e] == edges2[e]
    {
      var k := KeyUnder(keys, inner, e, edges1[e]);
      TargetsAgree(keys, inner, e, edges1[e], edges2[e], k);
    }
  }

  lemma KeyUnder(keys: set<Key>, inner: set<Key>, e: Edge, t: Target) returns (k: Key)
    requires InnerOk(keys, inner) && TargetOk(keys, inner, e, t)
    ensures k in keys && Under(e.path, e.byte, k)
  {
    match t
    case ToLeaf(key) => k := key;
    case ToInner(path) =>
      var a, b := BelowInner(keys, inner, path);
      k := a;
      PrefixUnder(e.path, e.byte, path, k);
  }

  lemma PrefixUnder(p: Key, b: Byte, q: Key, k: Key)
    requires Under(p, b, q) && Prefix(q, k)
    ensures Under(p, b, k)
  {
    assert k[..|p|] == q[..|p|];
    assert k[|p|] == q[|p|];
  }

  lemma SameByte(p: Key, k: Key, i: nat)
    requires Prefix(p, k) && i < |p|
    ensures k[i] == p[i]
  {
  }

  /** Of two prefixes of one key the shorter is a prefix of the longer. */
  lemma PrefixChain(p: Key, q: Key, k: Key)
    requires Prefix(p, k) && Prefix(q, k) && |p| <= |q|
    ensures Prefix(p, q)
  {
    assert q[..|p|] == k[..|q|][..|p|] == k[..|p|];
  }

  /** A common prefix of two diverging keys ends no later than they diverge. */
  lemma PrefixOfDiverging(q: Key, p: Key, a: Key, b: Key)
    requires Diverge(p, a, b) && Prefix(q, a) && Prefix(q, b)
    ensures Prefix(q, p)
  {
    if |p| < |q| {
      SameByte(q, a, |p|);
      assert false;
    }
    PrefixChain(q, p, a);
  }

  lemma TargetsAgree(keys: set<Key>, inner: set<Key>, e: Edge, t1: Target, t2: Target, k: Key)
    requires InnerOk(keys, inner) && TargetOk(keys, inner, e, t1) && TargetOk(keys, inner, e, t2)
    requires k in keys && Under(e.path, e.byte, k)
    ensures t1 == t2
  {
    if t1.ToInner? {
      InnerTarget(keys, inner, e, t1.path, t2);
    } else if t2.ToInner? {
      InnerTarget(keys, inner, e, t2.path, t1);
    }
  }

  lemma InnerTarget(keys: set<Key>, inner: set<Key>, e: Edge, path: Key, t: Target)
    requires InnerOk(keys, inner) && TargetOk(keys, inner, e, ToInner(path)) && TargetOk(keys, inner, e, t)
    ensures t == ToInner(path)
  {
    var a, b := BelowInner(keys, inner, path);
    PrefixUnder(e.path, e.byte, path, a);
    PrefixUnder(e.path, e.byte, path, b);
    match t
    case ToLeaf(key) => assert false;
    case ToInner(q) =>
      PrefixOfDiverging(q, path, a, b);
      var c, d := BelowInner(keys, inner, q);
      PrefixUnder(e.path, e.byte, q, c);
      PrefixUnder(e.path, e.byte, q, d);
      PrefixOfDiverging(path, q, c, d);
  }

  // ----- what one more key does to the shape

  /** Keys that diverge do so in one place only. */
  lemma DivergeOnce(p: Key, q: Key, a: Key, b: Key)
    requires Diverge(p, a, b) && Diverge(q, a, b)
    ensures p == q
  {
    PrefixOfDiverging(p, q, a, b);
    PrefixOfDiverging(q, p, a, b);
  }

  /** The new key branches off above p only where keys already branched. */
  lemma BranchAbove(keys: set<Key>, inner: set<Key>, p: Key, k: Key, q: Key, a: Key)
    requires InnerOk(keys, inner) && p in inner && Prefix(p, k)
    requires a in keys && Diverge(q, k, a) && |q| < |p|
    ensures q in inner
  {
    var c, d := BelowInner(keys, inner, p);
    PrefixChain(q, p, k);
    SameByte(p, k, |q|);
    SameByte(p, c, |q|);
    PrefixTrans(q, p, c);
    assert Diverge(q, c, a);
    assert Branch(keys, q);
  }

  /** An edge leaving the path to p on the way down leads to an inner node on the way to p. */
  lemma EdgeAbove(keys: set<Key>, inner: set<Key>, e: Edge, t: Target, p: Key, k: Key)
    requires InnerOk(keys, inner) && p in inner && Prefix(p, k)
    requires TargetOk(keys, inner, e, t) && Under(e.path, e.byte, k) && |e.path| < |p|
    ensures t.ToInner? && Prefix(t.path, p) && Prefix(t.path, k)
  {
    PrefixChain(e.path, p, k);
    SameByte(p, k, |e.path|);
    var c, d := BelowInner(keys, inner, p);
    PrefixUnder(e.path, e.byte, p, c);
    PrefixUnder(e.path, e.byte, p, d);
    match t
    case ToLeaf(key) => assert false;
    case ToInner(q) =>
      PrefixOfDiverging(q, p, c, d);
      PrefixTrans(q, p, k);
  }

  /** The walk for key k ends at p: the edge it would take is free, or holds a leaf, or a node k does not pass. */
  ghost predicate StopsAt(keys: set<Key>, inner: set<Key>, edges: map<Edge, Target>, p: Key, k: Key) {
    && ShapeOk(keys, inner, edges)
    && p in inner && Prefix(p, k) && |p| < |k|
    && var e := Edge(p, k[|p|]);
       e in edges && edges[e].ToInner? ==> !Prefix(edges[e].path, k)
  }

  lemma NoInnerBeyond(keys: set<Key>, inner: set<Key>, edges: map<Edge, Target>, p: Key, k: Key, q: Key)
    requires StopsAt(keys, inner, edges, p, k) && q in inner && Prefix(q, k)
    ensures Prefix(q, p)
  {
    if |p| < |q| {
      PrefixChain(p, q, k);
      SameByte(q, k, |p|);
      var e := Edge(p, k[|p|]);
      var c, d := BelowInner(keys, inner, q);
      PrefixUnder(p, k[|p|], q, c);
      PrefixUnder(p, k[|p|], q, d);
      assert e in edges && TargetOk(keys, inner, e, edges[e]);
      if edges[e].ToInner? {
        PrefixOfDiverging(edges[e].path, q, c, d);
        PrefixTrans(edges[e].path, q, k);
      }
      assert false;
    } else {
      PrefixChain(q, p, k);
    }
  }

  /** All other edges stay right, and the edges on the way down exist already. */
  lemma OtherEdges(keys: set<Key>, inner: set<Key>, edges: map<Edge, Target>, p: Key, k: Key)
    requires StopsAt(keys, inner, edges, p, k)
    ensures forall e | e in edges && e != Edge(p, k[|p|]) :: TargetOk(keys + {k}, inner, e, edges[e])
    ensures forall q | q in inner && q != p && |q| < |k| && Prefix(q, k) :: Edge(q, k[|q|]) in edges
  {
    forall e | e in edges && e != Edge(p, k[|p|])
      ensures TargetOk(keys + {k}, inner, e, edges[e])
    {
      assert TargetOk(keys, inner, e, edges[e]);
      if Under(e.path, e.byte, k) {
        NoInnerBeyond(keys, inner, edges, p, k, e.path);
        EdgeAbove(keys, inner, e, edges[e], p, k);
      }
    }
    forall q | q in inner && q != p && |q| < |k| && Prefix(q, k)
      ensures Edge(q, k[|q|]) in edges
    {
      NoInnerBeyond(keys, inner, edges, p, k, q);
      var c, d := BelowInner(keys, inner, p);
      PrefixTrans(q, p, c);
      SameByte(p, k, |q|);
      SameByte(p, c, |q|);
    }
  }

  /** Where the new key branches off from a key already there: at an old inner node or below the edge it stops at. */
  lemma NewBranch(keys: set<Key>, inner: set<Key>, edges: map<Edge, Target>, p: Key, k: Key, q: Key, a: Key)
    requires StopsAt(keys, inner, edges, p, k)
    requires a in keys && Diverge(q, k, a)
    ensures q in inner || (Under(p, k[|p|], a) && Edge(p, k[|p|]) in edges)
  {
    if |q| < |p| {
      BranchAbove(keys, inner, p, k, q, a);
    } else if |p| < |q| {
      PrefixChain(p, q, k);
      SameByte(q, k, |p|);
      PrefixUnder(p, k[|p|], q, a);
    } else {
      PrefixChain(p, q, k);
    }
  }

  /** Inner nodes after adding k, given every place where k branches off. */
  lemma InnerAfter(keys: set<Key>, inner: set<Key>, k: Key, inner': set<Key>)
    requires InnerOk(keys, inner) && inner <= inner'
    requires forall q, a | a in keys && Diverge(q, k, a) :: q in inner'
    requires forall q | q in inner' && q !in inner :: exists a :: a in keys && Diverge(q, k, a)
    ensures InnerOk(keys + {k}, inner')
  {
    forall q | q in inner' && q != []
      ensures Branch(keys + {k}, q)
    {
      if q in inner {
        var a, b := BelowInner(keys, inner, q);
        assert a in keys + {k} && b in keys + {k};
      } else {
        var a :| a in keys && Diverge(q, k, a);
        assert k in keys + {k} && a in keys + {k};
      }
    }
    forall q | Branch(keys + {k}, q)
      ensures q in inner'
    {
      var a, b :| a in keys + {k} && b in keys + {k} && Diverge(q, a, b);
      if a in keys && b in keys {
        assert Branch(keys, q);
      } else {
        assert Diverge(q, k, if a == k then b else a);
      }
    }
  }

  /** A free edge: the key becomes a leaf there and nothing else changes. */
  lemma AddAtFreeEdge(keys: set<Key>, inner: set<Key>, edges: map<Edge, Target>, p: Key, k: Key)
    requires StopsAt(keys, inner, edges, p, k) && Edge(p, k[|p|]) !in edges
    ensures ShapeOk(keys + {k}, inner, edges[Edge(p, k[|p|]) := ToLeaf(k)])
  {
    forall q, a | a in keys && Diverge(q, k, a)
      ensures q in inner
    {
      NewBranch(keys, inner, edges, p, k, q, a);
    }
    InnerAfter(keys, inner, k, inner);
    FreeEdgeTargets(keys, inner, edges, p, k);
    FreeEdgeDomain(keys, inner, edges, p, k);
  }

  lemma FreeEdgeTargets(keys: set<Key>, inner: set<Key>, edges: map<Edge, Target>, p: Key, k: Key)
    requires StopsAt(keys, inner, edges, p, k) && Edge(p, k[|p|]) !in edges
    ensures var edges' := edges[Edge(p, k[|p|]) := ToLeaf(k)];
            forall e | e in edges' :: e.path in inner && TargetOk(keys + {k}, inner, e, edges'[e])
  {
    OtherEdges(keys, inner, edges, p, k);
    assert forall c | c in keys :: !Under(p, k[|p|], c);
    assert TargetOk(keys + {k}, inner, Edge(p, k[|p|]), ToLeaf(k));
  }

  lemma FreeEdgeDomain(keys: set<Key>, inner: set<Key>, edges: map<Edge, Target>, p: Key, k: Key)
    requires StopsAt(keys, inner, edges, p, k) && Edge(p, k[|p|]) !in edges
    ensures var edges' := edges[Edge(p, k[|p|]) := ToLeaf(k)];
            forall q, c | q in inner && c in keys + {k} && |q| < |c| && Prefix(q, c) :: Edge(q, c[|q|]) in edges'
  {
    OtherEdges(keys, inner, edges, p, k);
  }

  /** An occupied edge: a new inner node r where k leaves what is below the edge, with the old target and k under it. */
  function Split(edges: map<Edge, Target>, p: Key, k: Key, r: Key, oldByte: Byte): map<Edge, Target>
    requires |p| < |k| && |r| < |k| && Edge(p, k[|p|]) in edges
  {
    edges[Edge(p, k[|p|]) := ToInner(r)][Edge(r, k[|r|]) := ToLeaf(k)][Edge(r, oldByte) := edges[Edge(p, k[|p|])]]
  }

  /** The path every key below a target shares. */
  function TargetPath(t: Target): (q: Key) {
    match t case ToLeaf(key) => key case ToInner(path) => path
  }

  lemma AddAtSplit(keys: set<Key>, inner: set<Key>, edges: map<Edge, Target>, p: Key, k: Key, r: Key)
    requires StopsAt(keys, inner, edges, p, k) && Edge(p, k[|p|]) in edges
    requires var t := edges[Edge(p, k[|p|])]; Diverge(r, k, TargetPath(t)) && Under(p, k[|p|], r)
    ensures var t := edges[Edge(p, k[|p|])];
            ShapeOk(keys + {k}, inner + {r}, Split(edges, p, k, r, TargetPath(t)[|r|]))
  {
    var e0 := Edge(p, k[|p|]);
    var t := edges[e0];
    var q := TargetPath(t);
    var edges' := Split(edges, p, k, r, q[|r|]);
    assert TargetOk(keys, inner, e0, t);
    SplitInner(keys, inner, edges, p, k, r);
    if r in inner {
      NoInnerBeyond(keys, inner, edges, p, k, r);
      assert false;
    }
    SplitTargets(keys, inner, edges, p, k, r);
    SplitDomain(keys, inner, edges, p, k, r);
  }

  lemma SplitTargets(keys: set<Key>, inner: set<Key>, edges: map<Edge, Target>, p: Key, k: Key, r: Key)
    requires StopsAt(keys, inner, edges, p, k) && Edge(p, k[|p|]) in edges && r !in inner
    requires var t := edges[Edge(p, k[|p|])]; Diverge(r, k, TargetPath(t)) && Under(p, k[|p|], r)
    ensures var t := edges[Edge(p, k[|p|])];
            var edges' := Split(edges, p, k, r, TargetPath(t)[|r|]);
            forall e | e in edges' :: e.path in inner + {r} && TargetOk(keys + {k}, inner + {r}, e, edges'[e])
  {
    var e0 := Edge(p, k[|p|]);
    var t := edges[e0];
    var q := TargetPath(t);
    var edges' := Split(edges, p, k, r, q[|r|]);
    forall e | e in edges'
      ensures e.path in inner + {r} && TargetOk(keys + {k}, inner + {r}, e, edges'[e])
    {
      if e == Edge(r, q[|r|]) {
        SplitOldTarget(keys, inner, p, k, r, t);
      } else if e == Edge(r, k[|r|]) {
        SplitNewLeaf(keys, inner, p, k, r, t);
      } else if e == e0 {
        SplitNewInner(keys, inner, p, k, r, t);
      } else {
        OtherEdges(keys, inner, edges, p, k);
        assert TargetOk(keys + {k}, inner, e, edges[e]);
      }
    }
  }

  /** What lies below the edge to be split: keys extending the old target. */
  ghost predicate Splits(keys: set<Key>, inner: set<Key>, p: Key, k: Key, r: Key, t: Target) {
    && |p| < |k| && TargetOk(keys, inner, Edge(p, k[|p|]), t)
    && Diverge(r, k, TargetPath(t)) && Under(p, k[|p|], r)
  }

  lemma KeysBelowSplit(keys: set<Key>, inner: set<Key>, p: Key, k: Key, r: Key, t: Target, c: Key)
    requires Splits(keys, inner, p, k, r, t) && c in keys && Prefix(r, c)
    ensures Prefix(TargetPath(t), c) && Under(r, TargetPath(t)[|r|], c)
  {
    PrefixUnder(p, k[|p|], r, c);
    PrefixTrans(r, TargetPath(t), c);
    SameByte(TargetPath(t), c, |r|);
  }

  lemma SplitOldTarget(keys: set<Key>, inner: set<Key>, p: Key, k: Key, r: Key, t: Target)
    requires Splits(keys, inner, p, k, r, t)
    ensures TargetOk(keys + {k}, inner + {r}, Edge(r, TargetPath(t)[|r|]), t)
  {
    var b := TargetPath(t)[|r|];
    forall c | c in keys + {k} && Under(r, b, c)
      ensures c in keys && Prefix(TargetPath(t), c) && Under(p, k[|p|], c)
    {
      KeysBelowSplit(keys, inner, p, k, r, t, c);
      PrefixUnder(p, k[|p|], r, c);
    }
  }

  lemma SplitNewLeaf(keys: set<Key>, inner: set<Key>, p: Key, k: Key, r: Key, t: Target)
    requires Splits(keys, inner, p, k, r, t)
    ensures TargetOk(keys + {k}, inner + {r}, Edge(r, k[|r|]), ToLeaf(k))
  {
    forall c | c in keys + {k} && Under(r, k[|r|], c)
      ensures c == k
    {
      if c != k {
        KeysBelowSplit(keys, inner, p, k, r, t, c);
        assert false;
      }
    }
  }

  lemma SplitNewInner(keys: set<Key>, inner: set<Key>, p: Key, k: Key, r: Key, t: Target)
    requires Splits(keys, inner, p, k, r, t)
    ensures TargetOk(keys + {k}, inner + {r}, Edge(p, k[|p|]), ToInner(r))
  {
    forall c | c in keys + {k} && Under(p, k[|p|], c)
      ensures Prefix(r, c)
    {
      if c != k {
        PrefixTrans(r, TargetPath(t), c);
      }
    }
  }

  lemma SplitDomain(keys: set<Key>, inner: set<Key>, edges: map<Edge, Target>, p: Key, k: Key, r: Key)
    requires StopsAt(keys, inner, edges, p, k) && Edge(p, k[|p|]) in edges
    requires var t := edges[Edge(p, k[|p|])]; Diverge(r, k, TargetPath(t)) && Under(p, k[|p|], r)
    ensures var t := edges[Edge(p, k[|p|])];
            var edges' := Split(edges, p, k, r, TargetPath(t)[|r|]);
            forall q, c | q in inner + {r} && c in keys + {k} && |q| < |c| && Prefix(q, c) :: Edge(q, c[|q|]) in edges'
  {
    var t := edges[Edge(p, k[|p|])];
    var edges' := Split(edges, p, k, r, TargetPath(t)[|r|]);
    forall q, c | q in inner + {r} && c in keys + {k} && |q| < |c| && Prefix(q, c)
      ensures Edge(q, c[|q|]) in edges'
    {
      if q == r && c != k {
        KeysBelowSplit(keys, inner, p, k, r, t, c);
      } else if q != r && c == k {
        OtherEdges(keys, inner, edges, p, k);
      }
    }
  }

  lemma SplitInner(keys: set<Key>, inner: set<Key>, edges: map<Edge, Target>, p: Key, k: Key, r: Key)
    requires StopsAt(keys, inner, edges, p, k) && Edge(p, k[|p|]) in edges
    requires var t := edges[Edge(p, k[|p|])]; Diverge(r, k, TargetPath(t)) && Under(p, k[|p|], r)
    ensures InnerOk(keys + {k}, inner + {r})
  {
    var e0 := Edge(p, k[|p|]);
    var q := TargetPath(edges[e0]);
    assert TargetOk(keys, inner, e0, edges[e0]);
    forall x, a | a in keys && Diverge(x, k, a)
      ensures x in inner + {r}
    {
      NewBranch(keys, inner, edges, p, k, x, a);
      if x !in inner {
        assert Prefix(q, a);
        DivergeExtends(r, k, q, a);
        DivergeOnce(x, r, k, a);
      }
    }
    var a := KeyUnder(keys, inner, e0, edges[e0]);
    DivergeExtends(r, k, q, a);
    InnerAfter(keys, inner, k, inner + {r});
  }

  lemma DivergeExtends(r: Key, k: Key, q: Key, a: Key)
    requires Diverge(r, k, q) && Prefix(q, a)
    ensures Diverge(r, k, a)
  {
    PrefixTrans(r, q, a);
    SameByte(q, a, |r|);
  }

  // ----- walking down, and how many inner nodes there are

  /** A key of the set is found by following its bytes. */
  lemma EdgeOfKey(keys: set<Key>, inner: set<Key>, edges: map<Edge, Target>, p: Key, k: Key)
    requires ShapeOk(keys, inner, edges) && k in keys && p in inner && Prefix(p, k) && |p| < |k|
    ensures var e := Edge(p, k[|p|]);
            e in edges && (edges[e] == ToLeaf(k) || (edges[e].ToInner? && Prefix(edges[e].path, k)))
  {
    var e := Edge(p, k[|p|]);
    assert Under(e.path, e.byte, k);
    assert TargetOk(keys, inner, e, edges[e]);
  }

  /** No key of a prefix-free universe ends at an inner node. */
  lemma KeyBeyondInner(keys: set<Key>, inner: set<Key>, p: Key, k: Key)
    requires InnerOk(keys, inner) && PrefixFree(keys + {k}) && p in inner && Prefix(p, k)
    ensures |p| < |k|
  {
    if p == [] {
      assert k in keys + {k};
    } else {
      var a, b := BelowInner(keys, inner, p);
      if |p| == |k| {
        assert false;
      }
    }
  }

  /** Every inner node but the root has at least two children. */
  lemma TwoChildren(keys: set<Key>, inner: set<Key>, edges: map<Edge, Target>, p: Key)
    returns (b: Byte, c: Byte)
    requires ShapeOk(keys, inner, edges) && p in inner && p != []
    ensures b != c && Edge(p, b) in edges && Edge(p, c) in edges
  {
    var x, y := BelowInner(keys, inner, p);
    b, c := x[|p|], y[|p|];
  }

  /** A target hangs under one edge only. */
  lemma OneEdgePerTarget(keys: set<Key>, inner: set<Key>, edges: map<Edge, Target>, e: Edge, f: Edge)
    requires ShapeOk(keys, inner, edges) && e in edges && f in edges && edges[e] == edges[f]
    ensures e == f
  {
    if |e.path| < |f.path| {
      NoEdgeAcross(keys, inner, edges, e, f);
    } else if |f.path| < |e.path| {
      NoEdgeAcross(keys, inner, edges, f, e);
    } else {
      var q := TargetPath(edges[e]);
      assert TargetOk(keys, inner, e, edges[e]) && TargetOk(keys, inner, f, edges[f]);
      assert e.path == q[..|e.path|] == f.path;
    }
  }

  lemma NoEdgeAcross(keys: set<Key>, inner: set<Key>, edges: map<Edge, Target>, e: Edge, f: Edge)
    requires ShapeOk(keys, inner, edges) && e in edges && f in edges && |e.path| < |f.path|
    ensures edges[e] != edges[f]
  {
    assert TargetOk(keys, inner, e, edges[e]) && TargetOk(keys, inner, f, edges[f]);
    if edges[e] == edges[f] {
      var k := KeyUnder(keys, inner, e, edges[e]);
      var q := TargetPath(edges[e]);
      assert Prefix(q, k);
      PrefixTrans(f.path, q, k);
      EdgeAbove(keys, inner, e, edges[e], f.path, k);
      assert false;
    }
  }

  /** Every inner node but the root, and every key, hangs under an edge. */
  lemma EdgeInto(keys: set<Key>, inner: set<Key>, edges: map<Edge, Target>, p: Key, t: Target) returns (e: Edge)
    requires ShapeOk(keys, inner, edges) && p in inner && |p| < |TargetPath(t)| && Prefix(p, TargetPath(t))
    requires PrefixFree(keys) && if t.ToInner? then t.path in inner else t.key in keys
    ensures e in edges && edges[e] == t
    decreases |TargetPath(t)| - |p|
  {
    var q := TargetPath(t);
    if t.ToLeaf? {
      e := Edge(p, q[|p|]);
      EdgeOfKey(keys, inner, edges, p, q);
    } else {
      var a, b := BelowInner(keys, inner, q);
      SameByte(q, a, |p|);
      PrefixTrans(p, q, a);
      e := Edge(p, q[|p|]);
      assert e in edges && TargetOk(keys, inner, e, edges[e]);
      PrefixUnder(p, q[|p|], q, a);
      PrefixUnder(p, q[|p|], q, b);
      PrefixOfDiverging(TargetPath(edges[e]), q, a, b);
    }
    if edges[e] != t {
      assert TargetOk(keys, inner, e, edges[e]);
      if t.ToLeaf? {
        assert keys + {t.key} == keys;
        KeyBeyondInner(keys, inner, edges[e].path, t.key);
      }
      e := EdgeInto(keys, inner, edges, edges[e].path, t);
    }
  }

  /** Fewer inner nodes below the root than keys. */
  lemma InnerCount(keys: set<Key>, inner: set<Key>)
    requires InnerOk(keys, inner) && keys != {}
    ensures |inner - {[]}| < |keys|
    decreases |keys|
  {
    var k :| k in keys;
    var rest := keys - {k};
    assert keys == rest + {k};
    var inner0 := set p | p in inner && (p == [] || Branch(rest, p));
    forall p | Branch(rest, p) ensures p in inner0 {
      var a, b :| a in rest && b in rest && Diverge(p, a, b);
      assert Branch(keys, p);
    }
    if rest == {} {
      assert inner - {[]} == {};
    } else {
      InnerCount(rest, inner0);
      OneNewBranch(rest, k, inner, inner0);
    }
  }

  lemma OneNewBranch(rest: set<Key>, k: Key, inner: set<Key>, inner0: set<Key>)
    requires InnerOk(rest + {k}, inner) && InnerOk(rest, inner0) && inner0 <= inner
    ensures |inner - {[]}| <= |inner0 - {[]}| + 1
  {
    var added := inner - inner0;
    if added == {} {
      assert inner - {[]} == inner0 - {[]};
    } else {
      var p :| p in added;
      forall q | q in added ensures q == p {
        FreshBranch(rest, k, inner, inner0, p);
        FreshBranch(rest, k, inner, inner0, q);
        var a :| a in rest && Diverge(p, k, a);
        var b :| b in rest && Diverge(q, k, b);
        if |p| < |q| {
          TwoFresh(rest, k, inner0, p, q, a, b);
        } else if |q| < |p| {
          TwoFresh(rest, k, inner0, q, p, b, a);
        } else {
          PrefixChain(p, q, k);
        }
      }
      assert added == {p} && p != [];
      assert inner == inner0 + {p};
      assert inner - {[]} == (inner0 - {[]}) + {p};
    }
  }

  lemma FreshBranch(rest: set<Key>, k: Key, inner: set<Key>, inner0: set<Key>, p: Key)
    requires InnerOk(rest + {k}, inner) && InnerOk(rest, inner0) && p in inner && p !in inner0
    ensures exists a :: a in rest && Diverge(p, k, a)
  {
    var a, b := BelowInner(rest + {k}, inner, p);
    if a in rest && b in rest {
      assert Branch(rest, p);
    }
    assert Diverge(p, k, if a == k then b else a);
  }

  lemma TwoFresh(rest: set<Key>, k: Key, inner0: set<Key>, p: Key, q: Key, a: Key, b: Key)
    requires InnerOk(rest, inner0) && a in rest && b in rest
    requires Diverge(p, k, a) && Diverge(q, k, b) && |p| < |q|
    ensures p in inner0
  {
    PrefixChain(p, q, k);
    PrefixTrans(p, q, b);
    SameByte(q, k, |p|);
    SameByte(q, b, |p|);
    assert Diverge(p, b, a);
    assert Branch(rest, p);
  }
}
