/** A set of words in a trie of tiny pointers whose shape stays canonical: removal prunes what it leaves empty. */
module TinyTries2 {
  import opened Wrappers
  import opened Bytes
  import opened TinyPtrs
  import opened DerefTables
  import opened TrieShape
  import opened TrieStores

  /** The hashes of an edge come from where its upper node lies. */
  type AddressHash = (Slot, Byte) -> Hashes

  datatype Stop = Stop(byte: Byte, node: Slot)

  class TinyTrie2 {
    const store: TrieStore
    const addressHash: AddressHash

    ghost predicate Valid()
      reads store, store.table
    {
      && store.Valid()
      && forall p: Word, s: Slot, c: Byte :: store.env.edgeHash(p, s, c) == addressHash(s, c)
    }

    /** The words stored. */
    ghost function Words(): set<Word>
      reads store
    {
      store.words
    }

    /** No node without a word further down, save the root. */
    ghost predicate Pruned()
      reads store
    {
      Canonical(store.nodes, store.words)
    }

    constructor (table: DerefTable<Node>, root: Slot, addressHash: AddressHash)
      requires table.Valid() && table.Indexed() && table.objects == map[root := EmptyNode(false)]
      ensures Valid() && Pruned() && Words() == {} && store.table == table && fresh(store)
    {
      hide DerefTable.Valid;
      store := new TrieStore(table, root, (p: Word, s: Slot, c: Byte) => addressHash(s, c));
      this.addressHash := addressHash;
    }

    method Size() returns (n: nat)
      requires Valid()
      ensures n == |Words()|
    {
      n := store.count;
    }

    /** The number of nodes is a function of the words. */
    method NodeCount() returns (n: int)
      requires Valid()
      ensures n == |store.nodes|
      ensures Pruned() ==> n == 1 + |ProperPrefixes(Words())|
    {
      hide NodeOk, Canonical, ProperPrefixes, PrefixClosed;
      n := store.table.size;
      InjectiveSize(store.nodes);
      assert |store.table.objects.Keys| == |store.table.objects|;
      if Pruned() {
        CanonicalSize(store.env, store.table.objects, store.nodes, store.words);
      }
    }

    // ----- inserting

    /** The node above the last byte of a word; missing nodes are made. None where the source throws. */
    method CreateParentNode(word: Word) returns (r: Option<Slot>)
      requires Valid() && word != [] && Ascii(word)
      modifies store`nodes, store.table
      ensures Valid()
      ensures old(store.nodes.Keys) <= store.nodes.Keys <= old(store.nodes.Keys) + ProperPrefixes({word})
      ensures r.Some? ==> store.At(r.value, Parent(word))
      ensures r.None? <==> store.Stuck(word)
    {
      hide TrieStore.Valid, ProperPrefixes;
      store.RootHere();
      var cur := store.root;
      var i := 0;
      assert word[..0] == [];
      while i < |word| - 1
        invariant i <= |word| - 1 && Valid() && store.At(cur, word[..i])
        invariant old(store.nodes.Keys) <= store.nodes.Keys <= old(store.nodes.Keys) + ProperPrefixes({word})
      {
        var c := word[i];
        OneFurther(word, i);
        var next := store.StepDown(cur, c, addressHash(cur, c), word[..i]);
        if next.None? {
          assert store.Blocked(word[..i], word[i]);
          return None;
        }
        cur := next.value;
        i := i + 1;
      }
      assert word[..i] == Parent(word);
      store.NotStuck(word);
      return Some(cur);
    }

    /**
     * Add a word; tells whether it is new. None where a full table makes the source throw; the words are then as
     * before.
     */
    method Insert(word: Word) returns (r: Option<bool>)
      requires Valid() && Ascii(word)
      modifies store, store.table
      ensures Valid()
      ensures Words() == if r.Some? then old(Words()) + {word} else old(Words())
      ensures r.Some? ==> (r.value <==> word !in old(Words()))
      ensures r.None? <==> store.Stuck(word)
      ensures r.Some? && old(Pruned()) ==> Pruned()
    {
      hide TrieStore.Valid, TrieStore.Blocked, ProperPrefixes;
      var isNew;
      if word == [] {
        store.RootHere();
        isNew := store.SetTerminal(store.root, true, []);
      } else {
        var parent := CreateParentNode(word);
        if parent.None? {
          return None;
        }
        var c := word[|word| - 1];
        assert word == Parent(word) + [c];
        isNew := store.InsertLast(parent.value, c, addressHash(parent.value, c), Parent(word));
        store.NotStuck(word);
      }
      PrefixesUnion(old(store.words), {word});
      return Some(isNew);
    }

    // ----- looking up

    method GetParentNode(word: Word) returns (r: Option<Slot>)
      requires Valid() && word != [] && Ascii(word)
      ensures r.Some? ==> store.At(r.value, Parent(word))
      ensures r.None? ==> word !in Words()
    {
      hide TrieStore.Valid, EdgeOk;
      store.RootHere();
      var cur := store.root;
      var i := 0;
      assert word[..0] == [];
      while i < |word| - 1
        invariant i <= |word| - 1 && store.At(cur, word[..i])
      {
        var c := word[i];
        OneFurther(word, i);
        var ptr := store.Kid(cur, c, word[..i]);
        KidSays(store.env, store.nodes, store.words, word[..i], c, ptr);
        if ptr == Null || ptr == Tagged {
          if word in store.words {
            store.WordPath(word, i + 1);
          }
          return None;
        }
        cur := store.Follow(cur, c, ptr, addressHash(cur, c), word[..i]);
        i := i + 1;
      }
      return Some(cur);
    }

    method Contains(word: Word) returns (found: bool)
      requires Valid() && Ascii(word)
      ensures found <==> word in Words()
    {
      hide TrieStore.Valid;
      if word == [] {
        store.RootHere();
        found := store.IsTerminal(store.root, []);
      } else {
        var parent := GetParentNode(word);
        if parent.None? {
          return false;
        }
        var c := word[|word| - 1];
        assert word == Parent(word) + [c];
        found := store.ContainsLast(parent.value, c, addressHash(parent.value, c), Parent(word));
      }
    }

    // ----- removing

    /** The nodes a walk down a word has come past, each with the byte that led to it. */
    ghost predicate OnPath(path: seq<Stop>, word: Word)
      reads store
    {
      && 0 < |path| <= |word| + 1
      && forall j | 0 <= j < |path| :: store.At(path[j].node, word[..j]) && (j > 0 ==> path[j].byte == word[j - 1])
    }

    /** Take a word out; tells whether it was there. */
    method Remove(word: Word) returns (was: bool)
      requires Valid() && Ascii(word)
      modifies store, store.table
      ensures Valid() && Words() == old(Words()) - {word} && (was <==> word in old(Words()))
      ensures old(Pruned()) ==> Pruned()
    {
      hide TrieStore.Valid, EdgeOk, Canonical;
      store.RootHere();
      assert word[..0] == [];
      var path := [Stop(0, store.root)];
      var i := 0;
      while i < |word|
        invariant i <= |word| && unchanged(store, store.table) && OnPath(path, word) && |path| == i + 1
      {
        var c, cur := word[i], path[i].node;
        OneFurther(word, i);
        var ptr := store.Kid(cur, c, word[..i]);
        KidSays(store.env, store.nodes, store.words, word[..i], c, ptr);
        if ptr == Null || (ptr == Tagged && i < |word| - 1) {
          NotThere(word, i);
          return false;
        }
        if ptr == Tagged {
          assert word[..i + 1] == word;
          store.SetTag(cur, c, false, word[..i]);
          if old(Pruned()) {
            WithoutTag(store.nodes, old(store.words), word);
          }
          Prune(path, word);
          return true;
        }
        var next := store.Follow(cur, c, ptr, addressHash(cur, c), word[..i]);
        path := path + [Stop(c, next)];
        i := i + 1;
      }
      assert word[..i] == word;
      was := store.SetTerminal(path[i].node, false, word);
      if old(Pruned()) {
        WithoutFlag(store.nodes, old(store.words), word);
      }
    }

    /** The walk stopped: the word is not stored. */
    lemma NotThere(word: Word, i: nat)
      requires Valid() && i < |word| && word[..i + 1] !in store.nodes
      requires i == |word| - 1 ==> word[..i + 1] !in store.words
      ensures word !in store.words
    {
      hide TrieStore.Valid;
      assert word[..|word|] == word;
      if word in store.words && i < |word| - 1 {
        store.WordPath(word, i + 1);
      }
    }

    /** Free the nodes at the end of the path that are empty now, up to the first that is not, or was a word. */
    method Prune(path: seq<Stop>, ghost word: Word)
      requires Valid() && OnPath(path, word) && |path| <= |word|
      modifies store`nodes, store.table
      ensures Valid()
      ensures old(CanonicalBut(store.nodes, store.words, word[..|path| - 1])) ==> Pruned()
    {
      hide TrieStore.Valid, ProperPrefixes, EdgeOk;
      var j := |path| - 1;
      while j > 0
        invariant 0 <= j < |path| && Valid() && OnPath(path[..j + 1], word) && store.words == old(store.words)
        invariant old(CanonicalBut(store.nodes, store.words, word[..|path| - 1])) ==>
                    CanonicalBut(store.nodes, store.words, word[..j])
      {
        var node, c, above := path[j].node, path[j].byte, path[j - 1].node;
        assert path[..j + 1][j] == path[j] && path[..j + 1][j - 1] == path[j - 1];
        OneFurther(word, j - 1);
        var n := store.ChildCount(node, word[..j]);
        if n > 0 {
          ghost var d := store.SomeKid(word[..j]);
          if old(CanonicalBut(store.nodes, store.words, word[..|path| - 1])) {
            StillNeeded(store.nodes, store.words, word[..j], d);
          }
          return;
        }
        ghost var before := store.nodes;
        var terminal := store.Unlink(above, c, addressHash(above, c), node, word[..j - 1]);
        if old(CanonicalBut(store.nodes, store.words, word[..|path| - 1])) {
          OneShorter(before, store.words, word, j);
        }
        assert path[..j] == path[..j + 1][..j];
        assert OnPath(path[..j], word);
        if terminal {
          if old(CanonicalBut(store.nodes, store.words, word[..|path| - 1])) {
            NowTagged(store.nodes, store.words, word[..j - 1], word[..j]);
          }
          return;
        }
        j := j - 1;
      }
      if old(CanonicalBut(store.nodes, store.words, word[..|path| - 1])) {
        assert word[..0] == [];
        NothingLeft(store.nodes, store.words);
      }
    }
  }
}
