/** A set of words in a trie of tiny pointers that hashes paths; removal leaves the nodes in place. */
module TinyTries {
  import opened Wrappers
  import opened Bytes
  import opened Primes
  import opened TinyPtrs
  import opened DerefTables
  import opened TableSizing
  import opened TrieShape
  import opened TrieStores
  import opened NodeCounts

  /** One more byte of a path is mixed into both hashes. */
  type HashStep = (Byte, Hashes) -> Hashes

  function PathHash(step: HashStep, init: Hashes, p: Word): Hashes {
    if p == [] then init else step(p[|p| - 1], PathHash(step, init, Parent(p)))
  }

  class TinyTrie {
    const store: TrieStore
    const step: HashStep
    const init: Hashes

    /** Every word that was ever inserted. */
    ghost var ever: set<Word>

    ghost predicate Valid()
      reads this, store, store.table
    {
      && store.Valid() && store.words <= ever
      && forall p: Word, s: Slot, c: Byte :: store.env.edgeHash(p, s, c) == PathHash(step, init, p + [c])
    }

    ghost function Words(): set<Word>
      reads store
    {
      store.words
    }

    /** There is a node for each proper prefix of each word ever inserted, and no other. */
    ghost predicate Exact()
      reads this, store
    {
      store.nodes.Keys == {[]} + ProperPrefixes(ever)
    }

    constructor (table: DerefTable<Node>, root: Slot, step: HashStep, init: Hashes)
      requires table.Valid() && table.Indexed() && table.objects == map[root := EmptyNode(false)]
      ensures Valid() && Exact() && ever == {} == Words() && store.table == table && fresh(store)
    {
      hide DerefTable.Valid, PathHash;
      store := new TrieStore(table, root, (p: Word, s: Slot, c: Byte) => PathHash(step, init, p + [c]));
      this.step, this.init := step, init;
      ever := {};
    }

    method Size() returns (n: nat)
      requires Valid()
      ensures n == |Words()|
    {
      n := store.count;
    }

    method NodeCount() returns (n: int)
      requires Valid()
      ensures n == |store.nodes|
      ensures Exact() ==> n == 1 + |ProperPrefixes(ever)|
    {
      hide NodeOk, ProperPrefixes, PrefixClosed, PathHash;
      n := store.table.size;
      InjectiveSize(store.nodes);
      assert |store.table.objects.Keys| == |store.table.objects|;
      NoEmptyPrefix(ever);
    }

    lemma HashHere(word: Word, i: nat, h: Hashes)
      requires i < |word| && h == PathHash(step, init, word[..i])
      ensures step(word[i], h) == PathHash(step, init, word[..i] + [word[i]])
    {
      assert Parent(word[..i] + [word[i]]) == word[..i];
    }

    // ----- inserting

    /** The node above the last byte of a word and the hash of its path; missing nodes are made. */
    method CreateParentNode(word: Word) returns (r: Option<(Slot, Hashes)>)
      requires Valid() && word != [] && Ascii(word)
      modifies store`nodes, store.table
      ensures Valid()
      ensures old(store.nodes.Keys) <= store.nodes.Keys <= old(store.nodes.Keys) + ProperPrefixes({word})
      ensures r.Some? ==> store.At(r.value.0, Parent(word)) && r.value.1 == PathHash(step, init, Parent(word))
      ensures r.None? <==> store.Stuck(word)
    {
      hide TrieStore.Valid, ProperPrefixes, PathHash;
      store.RootHere();
      var cur := store.root;
      var h := init;
      var i := 0;
      assert word[..0] == [];
      RootHash();
      while i < |word| - 1
        invariant i <= |word| - 1 && Valid() && store.At(cur, word[..i]) && h == PathHash(step, init, word[..i])
        invariant old(store.nodes.Keys) <= store.nodes.Keys <= old(store.nodes.Keys) + ProperPrefixes({word})
      {
        var c := word[i];
        OneFurther(word, i);
        HashHere(word, i, h);
        h := step(c, h);
        var next := store.StepDown(cur, c, h, word[..i]);
        if next.None? {
          assert store.Blocked(word[..i], word[i]);
          return None;
        }
        cur := next.value;
        i := i + 1;
      }
      assert word[..i] == Parent(word);
      store.NotStuck(word);
      return Some((cur, h));
    }

    lemma RootHash()
      ensures PathHash(step, init, []) == init
    {
    }

    /**
     * Add a word; tells whether it is new. None where a full table makes the source throw; the words are then as
     * before.
     */
    method Insert(word: Word) returns (r: Option<bool>)
      requires Valid() && Ascii(word)
      modifies this, store, store.table
      ensures Valid()
      ensures Words() == if r.Some? then old(Words()) + {word} else old(Words())
      ensures ever == if r.Some? then old(ever) + {word} else old(ever)
      ensures r.Some? ==> (r.value <==> word !in old(Words()))
      ensures r.None? <==> store.Stuck(word)
      ensures r.Some? && old(Exact()) ==> Exact()
    {
      hide TrieStore.Valid, TrieStore.Blocked, ProperPrefixes, PathHash;
      var isNew;
      if word == [] {
        store.RootHere();
        isNew := store.SetTerminal(store.root, true, []);
        NothingProper();
      } else {
        var parent := CreateParentNode(word);
        if parent.None? {
          return None;
        }
        var n := |word| - 1;
        var c := word[n];
        assert word == Parent(word) + [c];
        HashHere(word, n, parent.value.1);
        AllPassed(word);
        isNew := store.InsertLast(parent.value.0, c, step(c, parent.value.1), Parent(word));
        store.NotStuck(word);
      }
      PrefixesUnion(ever, {word});
      ever := ever + {word};
      return Some(isNew);
    }

    lemma NothingProper()
      ensures ProperPrefixes({[]}) == {}
    {
    }

    /** A path to the parent of a word passes all its proper prefixes. */
    lemma AllPassed(word: Word)
      requires store.Valid() && word != [] && Parent(word) in store.nodes
      ensures ProperPrefixes({word}) <= store.nodes.Keys
    {
      hide NodeOk, Injective, DerefTable.Valid;
      forall p | p in ProperPrefixes({word}) ensures p in store.nodes {
        var i :| 0 < i < |word| && p == word[..i];
        PathDown(store.nodes, Parent(word), i);
        assert Parent(word)[..i] == p;
      }
    }

    // ----- looking up and removing

    method GetParentNode(word: Word) returns (r: Option<Slot>, h: Hashes)
      requires Valid() && word != [] && Ascii(word)
      ensures r.Some? ==> store.At(r.value, Parent(word)) && h == PathHash(step, init, Parent(word))
      ensures r.None? ==> word !in Words()
    {
      hide TrieStore.Valid, EdgeOk, PathHash;
      store.RootHere();
      var cur := store.root;
      h := init;
      var i := 0;
      assert word[..0] == [];
      RootHash();
      while i < |word| - 1
        invariant i <= |word| - 1 && store.At(cur, word[..i]) && h == PathHash(step, init, word[..i])
      {
        var c := word[i];
        OneFurther(word, i);
        HashHere(word, i, h);
        h := step(c, h);
        var ptr := store.Kid(cur, c, word[..i]);
        KidSays(store.env, store.nodes, store.words, word[..i], c, ptr);
        if ptr == Null || ptr == Tagged {
          if word in store.words {
            store.WordPath(word, i + 1);
          }
          return None, h;
        }
        cur := store.Follow(cur, c, ptr, h, word[..i]);
        i := i + 1;
      }
      return Some(cur), h;
    }

    method Contains(word: Word) returns (found: bool)
      requires Valid() && Ascii(word)
      ensures found <==> word in Words()
    {
      hide TrieStore.Valid, PathHash;
      if word == [] {
        store.RootHere();
        found := store.IsTerminal(store.root, []);
      } else {
        var parent, h := GetParentNode(word);
        if parent.None? {
          return false;
        }
        var n := |word| - 1;
        var c := word[n];
        assert word == Parent(word) + [c];
        HashHere(word, n, h);
        found := store.ContainsLast(parent.value, c, step(c, h), Parent(word));
      }
    }

    /** Take a word out; tells whether it was there. No node goes. */
    method Remove(word: Word) returns (was: bool)
      requires Valid() && Ascii(word)
      modifies store, store.table
      ensures Valid() && Words() == old(Words()) - {word} && (was <==> word in old(Words()))
      ensures store.nodes == old(store.nodes)
    {
      hide TrieStore.Valid, PathHash, EdgeOk;
      if word == [] {
        store.RootHere();
        was := store.SetTerminal(store.root, false, []);
        return;
      }
      var parent, h := GetParentNode(word);
      if parent.None? {
        return false;
      }
      var n := |word| - 1;
      var c := word[n];
      assert word == Parent(word) + [c];
      HashHere(word, n, h);
      var ptr := store.Kid(parent.value, c, Parent(word));
      KidSays(store.env, store.nodes, store.words, Parent(word), c, ptr);
      if ptr == Null {
        return false;
      }
      if ptr == Tagged {
        store.SetTag(parent.value, c, false, Parent(word));
        return true;
      }
      var t := store.Follow(parent.value, c, ptr, step(c, h), Parent(word));
      was := store.SetTerminal(t, false, word);
    }

    // ----- building at once

    /**
     * Size the table by the predicted node count, then insert the words one by one. None where the buckets do not fit
     * 32 bits, not ok where an insert throws.
     */
    static method BulkCreate(primes: seq<Number>, words: seq<Word>, format: Format, step: HashStep, init: Hashes)
      returns (r: Option<TinyTrie>, ok: bool, ghost counts: seq<nat>)
      requires GoodTable(primes) && format.Valid() && format.Entries() >= 7
      requires NodeCounts.Sorted(words) && forall w | w in words :: Ascii(w)
      ensures |counts| == SIZE && forall j | 0 <= j < SIZE :: counts[j] == |WithKids(Range(words, 0, |words|), [], j)|
      ensures r.Some? <==> Indexable(primes, Total(counts), format.Entries())
      ensures r.Some? ==> fresh(r.value) && r.value.Valid() && r.value.store.table.entries == format.Entries()
                          && RowOf(primes, Total(counts), format.Entries(), r.value.store.table.buckets)
      ensures r.Some? && ok ==> r.value.Exact() && r.value.Words() == r.value.ever == Range(words, 0, |words|)
      ensures r.Some? && ok ==>
                (|r.value.store.nodes| == Total(counts) - counts[0] <==> exists w :: w in words && w != [])
      ensures r.Some? && !ok ==> exists w :: w in words && r.value.store.Stuck(w)
    {
      hide DerefTable.Valid, TrieStore.Valid, PathHash, WithKids, PathsFrom, NodeCounts.Sorted, ProperPrefixes, RowOf,
           Indexable, GoodTable;
      var histogram := ComputeNodeCounts(words);
      counts := histogram;
      var sum := SumUp(histogram);
      var t := NewTable<Node>(primes, 0, sum, format);
      if t.None? {
        return None, false, counts;
      }
      var table := t.value;
      var h := Hashes(0, 0);
      table.EmptyHasRoom(h, {});
      var p := table.Allocate(h, 0, EmptyNode(false));
      var trie := new TinyTrie(table, Resolve(0, table.buckets, p.value, h), step, init);
      ok := FillFrom(words, trie);
      if ok {
        Predicted(words, counts, trie);
      }
      return Some(trie), ok, counts;
    }

    /** Insert all words into an empty trie. */
    static method FillFrom(words: seq<Word>, trie: TinyTrie) returns (ok: bool)
      requires trie.Valid() && trie.Exact() && trie.ever == {} && forall w | w in words :: Ascii(w)
      modifies trie, trie.store, trie.store.table
      ensures trie.Valid()
      ensures ok ==> trie.Exact() && trie.Words() == trie.ever == Range(words, 0, |words|)
      ensures !ok ==> exists w :: w in words && trie.store.Stuck(w)
    {
      hide DerefTable.Valid, TrieStore.Valid, PathHash, ProperPrefixes;
      var i := 0;
      assert Range(words, 0, 0) == {};
      while i < |words|
        invariant i <= |words| && trie.Valid() && trie.Exact() && trie.Words() == trie.ever == Range(words, 0, i)
      {
        var added := trie.Insert(words[i]);
        if added.None? {
          return false;
        }
        assert Range(words, 0, i + 1) == Range(words, 0, i) + {words[i]};
        i := i + 1;
      }
      return true;
    }

    static method SumUp(h: seq<nat>) returns (sum: nat)
      ensures sum == Total(h)
    {
      sum := 0;
      var i := 0;
      while i < |h|
        invariant i <= |h| && sum == Total(h[..i])
      {
        assert h[..i + 1][..i] == h[..i];
        sum := sum + h[i];
        i := i + 1;
      }
      assert h[..i] == h;
    }
  }

  // ----- the prediction

  /** A prefix with something behind it is a proper prefix of some word. */
  lemma InnerOrRoot(words: set<Word>, p: Word)
    requires p != []
    ensures p in PathsFrom(words, []) && NextBytes(words, p) != {} <==> p in ProperPrefixes(words)
  {
    AnyFrom(words);
    InPaths(words, [], p);
    if p in ProperPrefixes(words) {
      var w, i :| w in words && 0 < i < |w| && p == w[..i];
      assert p < w && w[|p|] in NextBytes(words, p);
    }
    if NextBytes(words, p) != {} {
      var c :| c in NextBytes(words, p);
      var w :| w in words && p < w;
      assert p == w[..|p|];
    }
  }

  lemma AnyFrom(words: set<Word>)
    ensures AllFrom(words, [])
  {
  }

  lemma RootPath(words: set<Word>)
    ensures [] in PathsFrom(words, []) && NextBytes(words, []) != {} <==> exists w :: w in words && w != []
  {
    AnyFrom(words);
    InPaths(words, [], []);
    forall w | w in words && w != [] ensures NextBytes(words, []) != {} && [] in PathsFrom(words, []) {
      assert [] < w && w[0] in NextBytes(words, []);
    }
  }

  /** The prefixes that are no leaves are the nodes of a trie over the words. */
  lemma InnerCount(words: set<Word>)
    ensures |PathsFrom(words, [])| - |WithKids(words, [], 0)| == 1 + |ProperPrefixes(words)|
            <==> exists w :: w in words && w != []
  {
    var inner := PathsFrom(words, []) - WithKids(words, [], 0);
    RootPath(words);
    NoEmptyPrefix(words);
    forall p ensures p in inner <==> p in PathsFrom(words, []) && NextBytes(words, p) != {} {
    }
    hide PathsFrom, NextBytes, ProperPrefixes;
    forall p: Word | p != [] ensures p in inner <==> p in ProperPrefixes(words) {
      InnerOrRoot(words, p);
    }
    var root: Word := [];
    assert inner == (if root in inner then {root} else {}) + ProperPrefixes(words);
    assert WithKids(words, [], 0) <= PathsFrom(words, []);
  }

  lemma Predicted(words: seq<Word>, counts: seq<nat>, trie: TinyTrie)
    requires trie.Valid() && trie.Exact() && trie.ever == Range(words, 0, |words|) && |counts| == SIZE
    requires counts[0] == |WithKids(Range(words, 0, |words|), [], 0)|
    requires Total(counts) == |PathsFrom(Range(words, 0, |words|), [])|
    ensures |trie.store.nodes| == Total(counts) - counts[0] <==> exists w :: w in words && w != []
  {
    hide TrieStore.Valid, WithKids, PathsFrom, ProperPrefixes, PathHash, Total;
    var all := Range(words, 0, |words|);
    InnerCount(all);
    NoEmptyPrefix(all);
    var root: Word := [];
    assert |trie.store.nodes.Keys| == |trie.store.nodes|;
    assert |{root} + ProperPrefixes(all)| == 1 + |ProperPrefixes(all)|;
    assert forall w :: w in words <==> w in all;
  }
}
