/**
 * How a set of words lies in a table of trie nodes. A word is stored in the node at its path if there is one, and
 * otherwise as a tagged pointer in the node above; every other pointer resolves, under the hashes of its edge, to a
 * node.
 */
module TrieShape {
  import opened Bytes
  import opened Primes
  import opened TinyPtrs
  import opened DerefTables

  datatype Node = Node(terminal: bool, kids: seq<TinyPtr>)

  /** Characters index the pointer array directly, so only those below 128 may occur. */
  predicate Ascii(w: Word) {
    forall i | 0 <= i < |w| :: w[i] < 128
  }

  function EmptyNode(terminal: bool): Node {
    Node(terminal, seq(256, _ => Null))
  }

  /** The table, and the hashes of an edge: of the path it ends or of the node it leaves, as the trie chooses. */
  datatype Env = Env(table: nat, buckets: Number, edgeHash: (Word, Slot, Byte) -> Hashes)

  ghost predicate Leads(env: Env, p: Word, s: Slot, c: Byte, ptr: TinyPtr, target: Slot) {
    && env.buckets.Plausible() && env.buckets.Exact() && ptr.Ptr?
    && Resolve(env.table, env.buckets, ptr, env.edgeHash(p, s, c)) == target
  }

  ghost predicate EdgeOk(env: Env, nodes: map<Word, Slot>, words: set<Word>, p: Word, c: Byte, ptr: TinyPtr)
    requires p in nodes
  {
    var q := p + [c];
    if q in nodes then Leads(env, p, nodes[p], c, ptr, nodes[q]) else ptr == if q in words then Tagged else Null
  }

  ghost predicate NodeOk(env: Env, objects: map<Slot, Node>, nodes: map<Word, Slot>, words: set<Word>, p: Word)
    requires p in nodes
  {
    && nodes[p] in objects && |objects[nodes[p]].kids| == 256
    && (objects[nodes[p]].terminal <==> p in words)
    && forall c: Byte :: EdgeOk(env, nodes, words, p, c, objects[nodes[p]].kids[c])
  }

  ghost predicate Injective(nodes: map<Word, Slot>) {
    forall p, q | p in nodes && q in nodes && nodes[p] == nodes[q] :: p == q
  }

  /** The nodes hold exactly these words, and the table holds exactly these nodes. */
  ghost predicate Sound(env: Env, objects: map<Slot, Node>, nodes: map<Word, Slot>, words: set<Word>) {
    && PrefixClosed(nodes.Keys) && Injective(nodes) && objects.Keys == nodes.Values
    && (forall w | w in words && w != [] :: Parent(w) in nodes)
    && forall p | p in nodes :: NodeOk(env, objects, nodes, words, p)
  }

  /** The proper prefixes of words, save the empty one. */
  ghost function ProperPrefixes(words: set<Word>): set<Word> {
    set w, i | w in words && 0 < i < |w| :: w[..i]
  }

  /** There is no node without a word further down, save the root. */
  ghost predicate Canonical(nodes: map<Word, Slot>, words: set<Word>) {
    nodes.Keys <= {[]} + ProperPrefixes(words)
  }

  // ----- size

  /** Some word is longer than p and starts with it. */
  ghost predicate Extended(words: set<Word>, p: Word) {
    exists w :: w in words && p < w
  }

  lemma {:induction false} PathDown(nodes: map<Word, Slot>, p: Word, i: nat)
    requires PrefixClosed(nodes.Keys) && p in nodes && i <= |p|
    ensures p[..i] in nodes
    decreases |p| - i
  {
    if i < |p| {
      PathDown(nodes, p, i + 1);
      assert Parent(p[..i + 1]) == p[..i];
    } else {
      assert p[..i] == p;
    }
  }

  lemma InjectiveSize(nodes: map<Word, Slot>)
    requires Injective(nodes)
    ensures |nodes.Values| == |nodes.Keys|
    decreases |nodes|
  {
    if nodes.Keys != {} {
      var p :| p in nodes;
      var rest := nodes - {p};
      InjectiveSize(rest);
      assert nodes.Keys == rest.Keys + {p};
      assert nodes.Values == rest.Values + {nodes[p]} by {
        forall s | s in nodes.Values ensures s in rest.Values + {nodes[p]} {
          var q :| q in nodes && nodes[q] == s;
          if q != p {
            assert q in rest && rest[q] == s;
          }
        }
      }
      assert nodes[p] !in rest.Values;
    } else {
      assert nodes.Values == {};
    }
  }

  lemma ExtendedIsPrefix(words: set<Word>, p: Word)
    requires p != []
    ensures Extended(words, p) <==> p in ProperPrefixes(words)
  {
    if Extended(words, p) {
      var w :| w in words && p < w;
      assert p == w[..|p|];
    }
    if p in ProperPrefixes(words) {
      var w, i :| w in words && 0 < i < |w| && p == w[..i];
      assert p < w;
    }
  }

  /** A word passes a node at each of its proper prefixes. */
  lemma ExtendedIsPath(nodes: map<Word, Slot>, words: set<Word>, p: Word)
    requires PrefixClosed(nodes.Keys) && (forall w | w in words && w != [] :: Parent(w) in nodes) && Extended(words, p)
    ensures p in nodes
  {
    var w :| w in words && p < w;
    PathDown(nodes, Parent(w), |p|);
    assert Parent(w)[..|p|] == p;
  }

  /** The paths of a canonical trie are a function of its words alone. */
  lemma CanonicalPaths(nodes: map<Word, Slot>, words: set<Word>)
    requires PrefixClosed(nodes.Keys) && (forall w | w in words && w != [] :: Parent(w) in nodes)
    requires Canonical(nodes, words)
    ensures nodes.Keys == {[]} + ProperPrefixes(words) && [] !in ProperPrefixes(words)
  {
    NoEmptyPrefix(words);
    hide ProperPrefixes, Extended;
    forall p: Word ensures p in nodes <==> p == [] || p in ProperPrefixes(words) {
      if p != [] {
        ExtendedIsPrefix(words, p);
        if Extended(words, p) {
          ExtendedIsPath(nodes, words, p);
        }
      }
    }
  }

  lemma NoEmptyPrefix(words: set<Word>)
    ensures [] !in ProperPrefixes(words)
  {
  }

  lemma PrefixesUnion(a: set<Word>, b: set<Word>)
    ensures ProperPrefixes(a + b) == ProperPrefixes(a) + ProperPrefixes(b)
  {
    forall p ensures p in ProperPrefixes(a + b) <==> p in ProperPrefixes(a) || p in ProperPrefixes(b) {
      if p in ProperPrefixes(a + b) {
        var w, i :| w in a + b && 0 < i < |w| && p == w[..i];
      }
      if p in ProperPrefixes(a) {
        var w, i :| w in a && 0 < i < |w| && p == w[..i];
        assert w in a + b;
      }
      if p in ProperPrefixes(b) {
        var w, i :| w in b && 0 < i < |w| && p == w[..i];
        assert w in a + b;
      }
    }
  }

  /** And so is its size. */
  lemma CanonicalSize(env: Env, objects: map<Slot, Node>, nodes: map<Word, Slot>, words: set<Word>)
    requires Sound(env, objects, nodes, words) && Canonical(nodes, words)
    ensures nodes.Keys == {[]} + ProperPrefixes(words)
    ensures |objects| == 1 + |ProperPrefixes(words)|
  {
    hide NodeOk, Injective, Canonical, ProperPrefixes, PrefixClosed;
    CanonicalPaths(nodes, words);
    InjectiveSize(nodes);
    assert |objects| == |objects.Keys|;
  }

  // ----- what changes at one node leaves the others alone

  lemma NodeKept(env: Env, objects: map<Slot, Node>, nodes: map<Word, Slot>, words: set<Word>,
                 objects': map<Slot, Node>, nodes': map<Word, Slot>, words': set<Word>, p: Word)
    requires p in nodes && NodeOk(env, objects, nodes, words, p) && p in nodes' && nodes'[p] == nodes[p]
    requires nodes[p] in objects' && objects'[nodes[p]] == objects[nodes[p]] && (p in words' <==> p in words)
    requires forall c: Byte :: p + [c] in nodes' <==> p + [c] in nodes
    requires forall c: Byte :: p + [c] in nodes ==> nodes'[p + [c]] == nodes[p + [c]]
    requires forall c: Byte :: p + [c] in words' <==> p + [c] in words
    ensures NodeOk(env, objects', nodes', words', p)
  {
    forall c: Byte ensures EdgeOk(env, nodes', words', p, c, objects[nodes[p]].kids[c]) {
      assert EdgeOk(env, nodes, words, p, c, objects[nodes[p]].kids[c]);
    }
  }

  /** The node at p with another pointer under c. */
  lemma NodeSet(env: Env, objects: map<Slot, Node>, nodes: map<Word, Slot>, words: set<Word>,
                objects': map<Slot, Node>, nodes': map<Word, Slot>, words': set<Word>, p: Word, c: Byte, ptr: TinyPtr)
    requires p in nodes && NodeOk(env, objects, nodes, words, p) && p in nodes' && nodes'[p] == nodes[p]
    requires nodes[p] in objects' && objects'[nodes[p]] == WithKid(objects[nodes[p]], c, ptr)
    requires p in words' <==> p in words
    requires forall d: Byte :: d != c ==> (p + [d] in nodes' <==> p + [d] in nodes)
    requires forall d: Byte :: d != c && p + [d] in nodes ==> nodes'[p + [d]] == nodes[p + [d]]
    requires forall d: Byte :: d != c ==> (p + [d] in words' <==> p + [d] in words)
    requires EdgeOk(env, nodes', words', p, c, ptr)
    ensures NodeOk(env, objects', nodes', words', p)
  {
    forall d: Byte ensures EdgeOk(env, nodes', words', p, d, objects'[nodes[p]].kids[d]) {
      assert EdgeOk(env, nodes, words, p, d, objects[nodes[p]].kids[d]);
    }
  }

  function WithKid(n: Node, c: Byte, ptr: TinyPtr): Node {
    if c < |n.kids| then n.(kids := n.kids[c := ptr]) else n
  }

  lemma OtherChild(p: Word, p0: Word, c0: Byte)
    requires p != p0
    ensures forall c: Byte :: p + [c] != p0 + [c0]
  {
    forall c: Byte ensures p + [c] != p0 + [c0] {
      LastByte(p, c, p0, c0);
    }
  }

  lemma OtherByte(p: Word, c0: Byte)
    ensures forall c: Byte :: c != c0 ==> p + [c] != p + [c0]
    ensures forall c: Byte :: p + [c] != p
  {
    forall c: Byte | c != c0 ensures p + [c] != p + [c0] {
      LastByte(p, c, p, c0);
    }
  }

  // ----- the changes a trie makes

  /** A new node below p takes over the word, if any, that was a tag there. */
  lemma Grown(env: Env, objects: map<Slot, Node>, nodes: map<Word, Slot>, words: set<Word>, p: Word, c: Byte, s: Slot,
              ptr: TinyPtr)
    requires Sound(env, objects, nodes, words) && p in nodes && p + [c] !in nodes && s !in objects
    requires Leads(env, p, nodes[p], c, ptr, s)
    ensures Sound(env, objects[s := EmptyNode(p + [c] in words)][nodes[p] := WithKid(objects[nodes[p]], c, ptr)],
                  nodes[p + [c] := s], words)
  {
    var q := p + [c];
    var nodes' := nodes[q := s];
    var objects' := objects[s := EmptyNode(q in words)][nodes[p] := WithKid(objects[nodes[p]], c, ptr)];
    ClosedMore(nodes.Keys, p, c);
    assert nodes'.Keys == nodes.Keys + {q};
    GrownSlots(objects, nodes, p, q, s, EmptyNode(q in words), WithKid(objects[nodes[p]], c, ptr));
    forall r | r in nodes' ensures NodeOk(env, objects', nodes', words, r) {
      if r == q {
        NewLeaf(env, objects', nodes, words, q, s);
      } else if r == p {
        OtherByte(p, c);
        NodeSet(env, objects, nodes, words, objects', nodes', words, p, c, ptr);
      } else {
        OtherChild(r, p, c);
        NodeKept(env, objects, nodes, words, objects', nodes', words, r);
      }
    }
  }

  lemma GrownSlots(objects: map<Slot, Node>, nodes: map<Word, Slot>, p: Word, q: Word, s: Slot, x: Node, y: Node)
    requires Injective(nodes) && objects.Keys == nodes.Values && p in nodes && q !in nodes && s !in objects
    ensures Injective(nodes[q := s]) && objects[s := x][nodes[p] := y].Keys == nodes[q := s].Values
    ensures nodes[p] in objects && nodes[p] != s
  {
    var nodes' := nodes[q := s];
    assert nodes'[q] == s;
    forall t | t in nodes.Values ensures t in nodes'.Values {
      var r :| r in nodes && nodes[r] == t;
      assert nodes'[r] == t;
    }
    assert forall r | r in nodes :: nodes[r] in nodes.Values;
  }

  /** Nothing lies below a path without a node. */
  lemma NewLeaf(env: Env, objects: map<Slot, Node>, nodes: map<Word, Slot>, words: set<Word>, q: Word, s: Slot)
    requires PrefixClosed(nodes.Keys) && (forall w | w in words && w != [] :: Parent(w) in nodes)
    requires q !in nodes && s in objects && objects[s] == EmptyNode(q in words)
    ensures NodeOk(env, objects, nodes[q := s], words, q)
  {
    var nodes', none := nodes[q := s], objects[s].kids;
    forall c: Byte ensures EdgeOk(env, nodes', words, q, c, none[c]) {
      ParentOfChild(q, c);
      assert |q + [c]| > |q|;
    }
  }

  /** A word becomes, or stops being, a tag below p. */
  lemma TagSet(env: Env, objects: map<Slot, Node>, nodes: map<Word, Slot>, words: set<Word>, p: Word, c: Byte, on: bool)
    requires Sound(env, objects, nodes, words) && p in nodes && p + [c] !in nodes
    ensures Sound(env, objects[nodes[p] := WithKid(objects[nodes[p]], c, if on then Tagged else Null)], nodes,
                  if on then words + {p + [c]} else words - {p + [c]})
  {
    var q := p + [c];
    var ptr := if on then Tagged else Null;
    var objects' := objects[nodes[p] := WithKid(objects[nodes[p]], c, ptr)];
    var words' := if on then words + {q} else words - {q};
    ParentOfChild(p, c);
    assert NodeOk(env, objects, nodes, words, p);
    assert objects'.Keys == objects.Keys;
    forall r | r in nodes ensures NodeOk(env, objects', nodes, words', r) {
      if r == p {
        OtherByte(p, c);
        NodeSet(env, objects, nodes, words, objects', nodes, words', p, c, ptr);
      } else {
        OtherChild(r, p, c);
        NodeKept(env, objects, nodes, words, objects', nodes, words', r);
      }
    }
  }

  /** A word with a node of its own comes or goes. */
  lemma TerminalSet(env: Env, objects: map<Slot, Node>, nodes: map<Word, Slot>, words: set<Word>, p: Word, on: bool)
    requires Sound(env, objects, nodes, words) && p in nodes
    ensures nodes[p] in objects
    ensures Sound(env, objects[nodes[p] := objects[nodes[p]].(terminal := on)], nodes,
                  if on then words + {p} else words - {p})
  {
    var objects' := objects[nodes[p] := objects[nodes[p]].(terminal := on)];
    var words' := if on then words + {p} else words - {p};
    assert NodeOk(env, objects, nodes, words, p);
    assert objects'.Keys == objects.Keys;
    assert p != [] ==> Parent(p) in nodes;
    forall r | r in nodes ensures NodeOk(env, objects', nodes, words', r) {
      assert NodeOk(env, objects, nodes, words, r);
      forall c: Byte ensures EdgeOk(env, nodes, words', r, c, objects[nodes[r]].kids[c]) {
        assert EdgeOk(env, nodes, words, r, c, objects[nodes[r]].kids[c]);
      }
    }
  }

  /** A node with no pointers goes; its word, if any, becomes a tag above. */
  lemma Pruned(env: Env, objects: map<Slot, Node>, nodes: map<Word, Slot>, words: set<Word>, p: Word, c: Byte)
    requires Sound(env, objects, nodes, words) && p in nodes && p + [c] in nodes && nodes[p + [c]] in objects
    requires forall k | k in objects[nodes[p + [c]]].kids :: k == Null
    ensures nodes[p] in objects
    ensures var n := WithKid(objects[nodes[p]], c, if p + [c] in words then Tagged else Null);
            Sound(env, (objects - {nodes[p + [c]]})[nodes[p] := n], nodes - {p + [c]}, words)
  {
    var q := p + [c];
    var ptr := if q in words then Tagged else Null;
    var nodes' := nodes - {q};
    assert NodeOk(env, objects, nodes, words, p);
    var objects' := (objects - {nodes[q]})[nodes[p] := WithKid(objects[nodes[p]], c, ptr)];
    NothingBelow(env, objects, nodes, words, q);
    PrunedSlots(objects, nodes, p, q, WithKid(objects[nodes[p]], c, ptr));
    ClosedLess(nodes.Keys, q);
    assert nodes'.Keys == nodes.Keys - {q};
    forall r | r in nodes' ensures NodeOk(env, objects', nodes', words, r) {
      assert NodeOk(env, objects, nodes, words, r);
      if r == p {
        OtherByte(p, c);
        NodeSet(env, objects, nodes, words, objects', nodes', words, p, c, ptr);
      } else {
        OtherChild(r, p, c);
        NodeKept(env, objects, nodes, words, objects', nodes', words, r);
      }
    }
  }

  lemma PrunedSlots(objects: map<Slot, Node>, nodes: map<Word, Slot>, p: Word, q: Word, x: Node)
    requires Injective(nodes) && objects.Keys == nodes.Values && p in nodes && q in nodes && p != q
    ensures nodes[p] != nodes[q] && nodes[p] in objects
    ensures Injective(nodes - {q}) && (objects - {nodes[q]})[nodes[p] := x].Keys == (nodes - {q}).Values
    ensures forall r | r in nodes && r != q :: nodes[r] in objects && nodes[r] != nodes[q]
  {
    var nodes' := nodes - {q};
    assert forall r | r in nodes :: nodes[r] in nodes.Values;
    assert forall r | r in nodes' :: nodes'[r] == nodes[r] && nodes'[r] in nodes'.Values;
    forall t | t in objects && t != nodes[q] ensures t in nodes'.Values {
      var r :| r in nodes && nodes[r] == t;
      assert nodes'[r] == t;
    }
  }

  lemma ClosedLess(paths: set<Word>, q: Word)
    requires PrefixClosed(paths) && q != [] && forall c: Byte :: q + [c] !in paths
    ensures PrefixClosed(paths - {q})
  {
    forall p | p in paths && p != [] ensures Parent(p) != q {
      assert p == Parent(p) + [p[|p| - 1]];
    }
  }

  /** Below a node without pointers there are neither nodes nor words. */
  lemma NothingBelow(env: Env, objects: map<Slot, Node>, nodes: map<Word, Slot>, words: set<Word>, q: Word)
    requires Sound(env, objects, nodes, words) && q in nodes && nodes[q] in objects
    requires forall k | k in objects[nodes[q]].kids :: k == Null
    ensures forall c: Byte :: q + [c] !in nodes && q + [c] !in words
    ensures forall w | w in words && w != [] :: Parent(w) != q
  {
    assert NodeOk(env, objects, nodes, words, q);
    forall c: Byte ensures q + [c] !in nodes && q + [c] !in words {
      assert EdgeOk(env, nodes, words, q, c, objects[nodes[q]].kids[c]);
      assert objects[nodes[q]].kids[c] in objects[nodes[q]].kids;
    }
    forall w | w in words && w != [] ensures Parent(w) != q {
      assert w == Parent(w) + [w[|w| - 1]];
    }
  }

  /** What is known about a node and a child of it. */
  lemma ParentAndChild(env: Env, objects: map<Slot, Node>, nodes: map<Word, Slot>, words: set<Word>, p: Word, c: Byte)
    requires Sound(env, objects, nodes, words) && p in nodes && p + [c] in nodes
    ensures [] in nodes && [] != p + [c] && nodes[p] != nodes[p + [c]] && nodes[p] in objects
    ensures nodes[p + [c]] in objects
    ensures |objects[nodes[p]].kids| == 256 && Leads(env, p, nodes[p], c, objects[nodes[p]].kids[c], nodes[p + [c]])
    ensures objects[nodes[p + [c]]].terminal <==> p + [c] in words
  {
    assert NodeOk(env, objects, nodes, words, p) && NodeOk(env, objects, nodes, words, p + [c]);
    assert EdgeOk(env, nodes, words, p, c, objects[nodes[p]].kids[c]);
    assert |p + [c]| != |p|;
  }

  lemma OneFurther(word: Word, i: nat)
    requires i < |word|
    ensures word[..i + 1] == word[..i] + [word[i]]
    ensures i + 1 < |word| ==> word[..i + 1] in ProperPrefixes({word})
  {
    assert word in {word};
  }

  /** What a pointer tells about the path below it. */
  lemma KidSays(env: Env, nodes: map<Word, Slot>, words: set<Word>, p: Word, c: Byte, ptr: TinyPtr)
    requires p in nodes && EdgeOk(env, nodes, words, p, c, ptr)
    ensures p + [c] in nodes <==> ptr.Ptr?
    ensures p + [c] !in nodes ==> (p + [c] in words <==> ptr == Tagged)
  {
  }

  // ----- canonical but for one path

  /** The only nodes that may be without a word further down lie on the way to q. */
  ghost predicate CanonicalBut(nodes: map<Word, Slot>, words: set<Word>, q: Word) {
    forall p | p in nodes && p != [] :: Extended(words, p) || p <= q
  }

  lemma CanonicalIsExtended(nodes: map<Word, Slot>, words: set<Word>)
    ensures Canonical(nodes, words) <==> forall p | p in nodes && p != [] :: Extended(words, p)
  {
    hide ProperPrefixes, Extended;
    NoEmptyPrefix(words);
    forall p: Word | p != [] ensures Extended(words, p) <==> p in ProperPrefixes(words) {
      ExtendedIsPrefix(words, p);
    }
  }

  lemma LessTrans(p: Word, q: Word, w: Word)
    requires p <= q && q < w
    ensures p < w
  {
    assert w[..|p|] == q[..|p|];
  }

  /** A tagged word goes: only nodes on the way to it may have lost their last word. */
  lemma WithoutTag(nodes: map<Word, Slot>, words: set<Word>, w: Word)
    requires Canonical(nodes, words) && w != []
    ensures CanonicalBut(nodes, words - {w}, Parent(w))
  {
    CanonicalIsExtended(nodes, words);
    forall p | p in nodes && p != [] ensures Extended(words - {w}, p) || p <= Parent(w) {
      var x :| x in words && p < x;
      if x != w {
        assert x in words - {w};
      }
    }
  }

  /** A word with a node of its own goes: the node had, and keeps, a longer word below it. */
  lemma WithoutFlag(nodes: map<Word, Slot>, words: set<Word>, w: Word)
    requires Canonical(nodes, words) && w in nodes
    ensures Canonical(nodes, words - {w})
  {
    CanonicalIsExtended(nodes, words);
    CanonicalIsExtended(nodes, words - {w});
    forall p | p in nodes && p != [] ensures Extended(words - {w}, p) {
      var x :| x in words && p < x;
      if x == w {
        var y :| y in words && w < y;
        LessTrans(p, w, y);
        assert y in words - {w};
      } else {
        assert x in words - {w};
      }
    }
  }

  /** Something lies below q after all. */
  lemma StillNeeded(nodes: map<Word, Slot>, words: set<Word>, q: Word, c: Byte)
    requires CanonicalBut(nodes, words, q) && (q + [c] in nodes || q + [c] in words)
    ensures Canonical(nodes, words)
  {
    CanonicalIsExtended(nodes, words);
    var child := q + [c];
    assert q < child && !(child <= q);
    var w :| w in words && (w == child || child < w);
    if w != child {
      LessTrans(q, child, w);
    }
    NowTagged(nodes, words, q, w);
  }

  lemma NowTagged(nodes: map<Word, Slot>, words: set<Word>, q: Word, w: Word)
    requires CanonicalBut(nodes, words, q) && w in words && q < w
    ensures Canonical(nodes, words)
  {
    CanonicalIsExtended(nodes, words);
    forall p | p in nodes && p != [] ensures Extended(words, p) {
      if p <= q {
        LessTrans(p, q, w);
      }
    }
  }

  lemma OneShorter(nodes: map<Word, Slot>, words: set<Word>, word: Word, j: nat)
    requires 0 < j <= |word| && CanonicalBut(nodes, words, word[..j])
    ensures CanonicalBut(nodes - {word[..j]}, words, word[..j - 1])
  {
    forall p | p in nodes && p != [] && p != word[..j] ensures Extended(words, p) || p <= word[..j - 1] {
      if p <= word[..j] {
        assert |p| < j;
      }
    }
  }

  lemma NothingLeft(nodes: map<Word, Slot>, words: set<Word>)
    requires CanonicalBut(nodes, words, [])
    ensures Canonical(nodes, words)
  {
    CanonicalIsExtended(nodes, words);
  }
}
