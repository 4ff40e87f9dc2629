/** Following a key down the tree: what each step of a lookup or insert may conclude. */
module ArtLookup {
  import opened TinyPtrs
  import opened DerefTables
  import opened Bytes
  import opened ArtShape
  import opened ArtNodes
  import opened ArtTables
  import opened ArtPhysical
  import opened ArtInvariant

  /** Every item lies in the table of its kind. */
  ghost predicate KindsMatch(store: Store) {
    forall s | s in store :: s.table == TagOf(store[s])
  }

  /** Following the pointer under byte b reaches exactly the target of that edge, or nothing. */
  lemma Follow(env: Env, store: Store, v: View, p: Key, b: Byte)
    requires Physical(env, store, v) && KindsMatch(store) && p in v.inner
    ensures NodeAt(store, v, p)
    ensures var n := NodeOf(store, v, p);
            var ptr := Child(n.body, b);
            && (Edge(p, b) !in v.edges <==> ptr == Null)
            && (Edge(p, b) in v.edges ==>
                  var t := v.edges[Edge(p, b)];
                  && env.tables.Wired() && ptr.Ptr? && ptr.special < 4
                  && env.tables.Locate(ptr, env.idHash(n.id, b)) == TargetSlot(v, t) && TargetSlot(v, t) in store
                  && (ptr.special == LEAF <==> t.ToLeaf?)
                  && (t.ToLeaf? ==> t.key in v.keys && store[TargetSlot(v, t)] == Leaf(v.keys[t.key])
                                    && env.loadKey(v.keys[t.key]) == t.key)
                  && (t.ToInner? ==> t.path in v.inner && NodeAt(store, v, t.path)
                                     && TargetSlot(v, t) == v.inner[t.path]
                                     && store[TargetSlot(v, t)] == Inner(NodeOf(store, v, t.path))
                                     && |NodeOf(store, v, t.path).prefix| == MAX_STORED_PREFIX
                                     && WellFormed(NodeOf(store, v, t.path).body)
                                     && Compressed(NodeOf(store, v, t.path), p, t.path)))
  {
    assert NodeAt(store, v, p) && EdgeOk(env, store, v, p, b);
    if Edge(p, b) in v.edges {
      var t := v.edges[Edge(p, b)];
      if t.ToLeaf? {
        assert LeafOk(env, store, v, t.key);
      }
    }
    hide Physical, Compressed;
  }

  /** Inner nodes further down than a path; the walk gets closer to running out of them at each step. */
  ghost function Deeper(v: View, p: Key): set<Key> {
    set q | q in v.inner.Keys && |q| > |p|
  }

  lemma DeeperShrinks(v: View, p: Key, q: Key)
    requires q in v.inner && |q| > |p|
    ensures Deeper(v, q) < Deeper(v, p)
  {
    assert q in Deeper(v, p) && q !in Deeper(v, q);
  }

  // ----- the prefix check of a lookup

  datatype PrefixResult = Match | NoMatch | OptimisticMatch

  /** The key ends inside the prefix or right after it, or differs from the stored part. */
  ghost predicate PrefixDiffers(n: Node, k: Key, start: nat)
    requires |n.prefix| == MAX_STORED_PREFIX
  {
    || |k| <= start + n.prefixLength
    || exists i :: 0 <= i < Min(n.prefixLength, MAX_STORED_PREFIX) && n.prefix[i] != k[start + i]
  }

  /** Compare the stored part of a prefix; a longer prefix is skipped unseen. */
  method CheckPrefix(n: Node, k: Key, start: nat) returns (res: PrefixResult, level: nat)
    requires |n.prefix| == MAX_STORED_PREFIX && start <= |k|
    ensures res == NoMatch <==> n.prefixLength > 0 && PrefixDiffers(n, k, start)
    ensures res == OptimisticMatch ==> n.prefixLength > MAX_STORED_PREFIX
    ensures res == Match ==> n.prefixLength <= MAX_STORED_PREFIX
    ensures res != NoMatch ==> level == start + n.prefixLength
  {
    level := start;
    if n.prefixLength > 0 {
      if |k| <= level + n.prefixLength {
        return NoMatch, level;
      }
      var i := 0;
      while i < Min(n.prefixLength, MAX_STORED_PREFIX)
        invariant i <= Min(n.prefixLength, MAX_STORED_PREFIX) && level == start + i
        invariant forall j | 0 <= j < i :: n.prefix[j] == k[start + j]
      {
        if n.prefix[i] != k[level] {
          return NoMatch, level;
        }
        level := level + 1;
        i := i + 1;
      }
      if n.prefixLength > MAX_STORED_PREFIX {
        level := level + (n.prefixLength - MAX_STORED_PREFIX);
        return OptimisticMatch, level;
      }
    }
    return Match, level;
  }

  /** The walk has reached the node at p: where its prefix starts, and whether the bytes so far were compared. */
  ghost predicate Reached(v: View, n: Node, up: Key, p: Key, k: Key, level: nat, exact: bool) {
    && level <= |k| && level <= |p| && n.prefixLength == |p| - level
    && (p == [] || Compressed(n, up, p)) && (p != [] ==> level == |up| + 1)
    && (k in v.keys ==> Prefix(p, k))
    && (exact ==> Prefix(p[..level], k))
  }

  /** A lookup in a prefix-free universe. */
  ghost predicate Searchable(v: View, k: Key) {
    ShapeOk(v.keys.Keys, v.inner.Keys, v.edges) && PrefixFree(v.keys.Keys + {k})
  }

  lemma NoMatchMeansAbsent(v: View, n: Node, up: Key, p: Key, k: Key, level: nat, exact: bool)
    requires Reached(v, n, up, p, k, level, exact) && p in v.inner && Searchable(v, k)
    requires n.prefixLength > 0 && |n.prefix| == MAX_STORED_PREFIX
    requires PrefixDiffers(n, k, level)
    ensures k !in v.keys
  {
    if k in v.keys {
      KeyBeyondInner(v.keys.Keys, v.inner.Keys, p, k);
      assert false;
    }
  }

  /** If the stored bytes match and there are no others, the whole path was compared. */
  lemma MatchIsExact(v: View, n: Node, up: Key, p: Key, k: Key, level: nat)
    requires |n.prefix| == MAX_STORED_PREFIX && n.prefixLength <= MAX_STORED_PREFIX
    requires Reached(v, n, up, p, k, level, true) && (n.prefixLength > 0 ==> !PrefixDiffers(n, k, level))
    ensures Prefix(p, k)
  {
    forall j | 0 <= j < |p| ensures k[j] == p[j] {
      if j < level {
        SameByte(p[..level], k, j);
      } else if p != [] {
        assert n.prefix[j - level] == p[|up| + 1 + (j - level)];
      }
    }
  }

  lemma AfterCheck(v: View, n: Node, up: Key, p: Key, k: Key, level: nat, exact: bool, res: PrefixResult)
    requires Reached(v, n, up, p, k, level, exact) && |n.prefix| == MAX_STORED_PREFIX
    requires n.prefixLength > 0 ==> !PrefixDiffers(n, k, level)
    requires res == Match ==> n.prefixLength <= MAX_STORED_PREFIX
    ensures level + n.prefixLength == |p|
    ensures exact && res == Match ==> Prefix(p, k)
  {
    if exact && res == Match {
      MatchIsExact(v, n, up, p, k, level);
    }
  }

  lemma RootReached(env: Env, store: Store, v: View, k: Key)
    requires Physical(env, store, v)
    ensures NodeAt(store, v, []) && |NodeOf(store, v, []).prefix| == MAX_STORED_PREFIX
    ensures Reached(v, NodeOf(store, v, []), [], [], k, 0, true)
  {
  }

  /** A leaf reached with every byte of the key compared holds the key, if the universe is prefix-free. */
  lemma ExactLeaf(v: View, p: Key, k: Key, leafKey: Key)
    requires EdgesOk(v.keys.Keys, v.inner.Keys, v.edges) && PrefixFree(v.keys.Keys + {k})
    requires p in v.inner && Prefix(p, k) && |p| == |k| - 1
    requires Edge(p, k[|p|]) in v.edges && v.edges[Edge(p, k[|p|])] == ToLeaf(leafKey)
    ensures leafKey == k
  {
    assert TargetOk(v.keys.Keys, v.inner.Keys, Edge(p, k[|p|]), ToLeaf(leafKey));
    assert k == p + [k[|p|]];
    assert Prefix(k, leafKey) by {
      assert leafKey[..|k|] == leafKey[..|p|] + [leafKey[|p|]];
    }
    assert leafKey in v.keys.Keys + {k} && k in v.keys.Keys + {k};
  }

  // ----- how a lookup ends

  lemma EndsAtNode(v: View, n: Node, up: Key, p: Key, k: Key, level: nat, exact: bool)
    requires Searchable(v, k) && Reached(v, n, up, p, k, level, exact) && p in v.inner && |k| <= |p|
    ensures k !in v.keys
  {
    if k in v.keys {
      KeyBeyondInner(v.keys.Keys, v.inner.Keys, p, k);
      assert false;
    }
  }

  lemma EndsAtFreeEdge(v: View, n: Node, up: Key, p: Key, k: Key, level: nat, exact: bool)
    requires Searchable(v, k) && Reached(v, n, up, p, k, level, exact) && p in v.inner
    requires |p| < |k| && Edge(p, k[|p|]) !in v.edges
    ensures k !in v.keys
  {
    if k in v.keys {
      EdgeOfKey(v.keys.Keys, v.inner.Keys, v.edges, p, k);
      assert false;
    }
  }

  lemma EndsAtLeaf(v: View, n: Node, up: Key, p: Key, k: Key, level: nat, exact: bool, leafKey: Key)
    requires Searchable(v, k) && Reached(v, n, up, p, k, level, exact) && p in v.inner
    requires |p| < |k| && Edge(p, k[|p|]) in v.edges && v.edges[Edge(p, k[|p|])] == ToLeaf(leafKey)
    ensures k in v.keys ==> leafKey == k
    ensures exact && |p| == |k| - 1 && Prefix(p, k) ==> leafKey == k
  {
    if k in v.keys {
      EdgeOfKey(v.keys.Keys, v.inner.Keys, v.edges, p, k);
    }
    if exact && |p| == |k| - 1 && Prefix(p, k) {
      ExactLeaf(v, p, k, leafKey);
    }
  }

  /**
   * Comparing the key looked for with the key of the leaf found answers for every key of the universe; where no byte
   * was skipped and the key ends, the answer is the leaf's value even without comparing.
   */
  lemma ComparisonDecides(v: View, loadKey: LoadKey, n: Node, up: Key, p: Key, k: Key, level: nat, exact: bool,
                          leafKey: Key)
    requires Searchable(v, k) && Reached(v, n, up, p, k, level, exact) && p in v.inner
    requires |p| < |k| && Edge(p, k[|p|]) in v.edges && v.edges[Edge(p, k[|p|])] == ToLeaf(leafKey)
    requires leafKey in v.keys && loadKey(v.keys[leafKey]) == leafKey
    ensures var tid, answer := v.keys[leafKey], if k in v.keys then v.keys[k] else 0;
            && (if loadKey(tid) == k then tid else 0) == answer
            && (exact && |p| == |k| - 1 && Prefix(p, k) ==> tid == answer)
  {
    EndsAtLeaf(v, n, up, p, k, level, exact, leafKey);
  }

  lemma Descends(v: View, n: Node, up: Key, p: Key, k: Key, level: nat, exact: bool, q: Key, m: Node, stillExact: bool)
    requires Searchable(v, k) && Reached(v, n, up, p, k, level, exact) && p in v.inner && q in v.inner
    requires |p| < |k| && Edge(p, k[|p|]) in v.edges && v.edges[Edge(p, k[|p|])] == ToInner(q) && Compressed(m, p, q)
    requires stillExact ==> Prefix(p, k)
    ensures Reached(v, m, p, q, k, |p| + 1, stillExact) && |q| > |p|
  {
    var e := Edge(p, k[|p|]);
    assert TargetOk(v.keys.Keys, v.inner.Keys, e, v.edges[e]);
    assert Under(p, k[|p|], q);
    if k in v.keys {
      EdgeOfKey(v.keys.Keys, v.inner.Keys, v.edges, p, k);
    }
    hide ShapeOk, TargetOk, PrefixFree, EdgesOk, InnerOk;
    if stillExact {
      OneByteFurther(p, k[|p|], q, k);
    }
  }

  lemma OneByteFurther(p: Key, b: Byte, q: Key, k: Key)
    requires Under(p, b, q) && Under(p, b, k)
    ensures Prefix(q[..|p| + 1], k)
  {
    assert q[..|p| + 1] == q[..|p|] + [q[|p|]];
    assert k[..|p| + 1] == k[..|p|] + [k[|p|]];
  }
}
