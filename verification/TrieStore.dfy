/** What a tagged trie does at one node; tries differ in how they hash an edge and in what a removal leaves behind. */
module TrieStores {
  import opened Wrappers
  import opened Bytes
  import opened TinyPtrs
  import opened DerefTables
  import opened TrieShape

  class TrieStore {
    const table: DerefTable<Node>
    const root: Slot
    ghost const env: Env
    var count: nat

    /** The node at each path, and the words stored. */
    ghost var nodes: map<Word, Slot>
    ghost var words: set<Word>

    ghost predicate Valid()
      reads this, table
    {
      && (this as object) != table && table.Valid() && table.Indexed() && env.table == table.table
      && env.buckets == table.buckets
      && Sound(env, table.objects, nodes, words) && nodes[[]] == root && count == |words|
    }

    /** Slot s holds the node at path p. */
    ghost predicate At(s: Slot, p: Word)
      reads this
    {
      p in nodes && nodes[p] == s
    }

    /** There is no node under byte c of the node at p, and both candidate buckets for it are full. */
    ghost predicate Blocked(p: Word, c: Byte)
      reads this, table
    {
      && p in nodes && p + [c] !in nodes
      && table.Indexed() && table.NoRoom(env.edgeHash(p, nodes[p], c), table.objects.Keys)
    }

    /** Some node the word needs has no place. */
    ghost predicate Stuck(word: Word)
      reads this, table
    {
      exists i | 0 <= i < |word| - 1 :: Blocked(word[..i], word[i])
    }

    /** A word whose parent has a node needs no other. */
    lemma NotStuck(word: Word)
      requires Valid() && word != [] && Parent(word) in nodes
      ensures !Stuck(word)
    {
      hide DerefTable.Valid, NodeOk, Injective, DerefTable.NoRoom;
      forall i | 0 <= i < |word| - 1 ensures !Blocked(word[..i], word[i]) {
        PathDown(nodes, Parent(word), i + 1);
        assert Parent(word)[..i + 1] == word[..i + 1] == word[..i] + [word[i]];
      }
    }

    constructor (table: DerefTable<Node>, root: Slot, ghost edgeHash: (Word, Slot, Byte) -> Hashes)
      requires table.Valid() && table.Indexed() && table.objects == map[root := EmptyNode(false)]
      ensures Valid() && nodes == map[[] := root] && words == {} && this.table == table && this.root == root
      ensures env.edgeHash == edgeHash
    {
      hide DerefTable.Valid;
      this.table, this.root, count := table, root, 0;
      env := Env(table.table, table.buckets, edgeHash);
      nodes, words := map[[] := root], {};
    }

    /** The pointer under byte c of the node at p: to a node, a tag, or nothing. */
    method Kid(s: Slot, c: Byte, ghost p: Word) returns (ptr: TinyPtr)
      requires Valid() && At(s, p)
      ensures EdgeOk(env, nodes, words, p, c, ptr)
    {
      hide DerefTable.Valid, PrefixClosed, Injective, EdgeOk;
      assert NodeOk(env, table.objects, nodes, words, p);
      var n := table.Read(s);
      ptr := n.kids[c];
    }

    /** Dereference a pointer that leads to a node. */
    method Follow(s: Slot, c: Byte, ptr: TinyPtr, h: Hashes, ghost p: Word) returns (t: Slot)
      requires Valid() && At(s, p) && EdgeOk(env, nodes, words, p, c, ptr) && ptr.Ptr? && h == env.edgeHash(p, s, c)
      ensures At(t, p + [c])
    {
      hide DerefTable.Valid, PrefixClosed, Injective, Sound;
      t := Resolve(table.table, table.buckets, ptr, h);
    }

    /** A new node under byte c; it is terminal if the pointer was a tag. */
    method CreateChild(s: Slot, c: Byte, h: Hashes, tagged: bool, ghost p: Word) returns (r: Option<Slot>)
      requires Valid() && At(s, p) && p + [c] !in nodes && (tagged <==> p + [c] in words) && h == env.edgeHash(p, s, c)
      modifies this`nodes, table
      ensures Valid()
      ensures nodes == match r case None => old(nodes) case Some(t) => old(nodes)[p + [c] := t]
      ensures r.None? ==> Blocked(p, c) && table.objects == old(table.objects)
      ensures r.Some? ==> !old(Blocked(p, c))
    {
      hide DerefTable.Valid, PrefixClosed, Injective, NodeOk, Sound, DerefTable.NoRoom;
      var a := table.Allocate(h, 0, EmptyNode(tagged));
      if a.None? {
        return None;
      }
      var t := Resolve(table.table, table.buckets, a.value, h);
      Grown(env, old(table.objects), nodes, words, p, c, t, a.value);
      SlotLive(p);
      var n := table.Read(s);
      table.Write(s, WithKid(n, c, a.value));
      nodes := nodes[p + [c] := t];
      return Some(t);
    }

    twostate lemma SlotLive(p: Word)
      requires old(Valid()) && p in nodes && nodes == old(nodes) && words == old(words)
      ensures nodes[p] in old(table.objects)
    {
      assert NodeOk(env, old(table.objects), nodes, words, p);
    }

    /** Go down one byte, making the node if there is none. */
    method StepDown(s: Slot, c: Byte, h: Hashes, ghost p: Word) returns (r: Option<Slot>)
      requires Valid() && At(s, p) && h == env.edgeHash(p, s, c)
      modifies this`nodes, table
      ensures Valid() && old(nodes.Keys) <= nodes.Keys <= old(nodes.Keys) + {p + [c]}
      ensures r.Some? ==> At(r.value, p + [c])
      ensures r.None? <==> old(Blocked(p, c))
      ensures r.None? ==> nodes == old(nodes) && table.objects == old(table.objects)
    {
      hide DerefTable.Valid, PrefixClosed, Injective, NodeOk, Sound, DerefTable.NoRoom;
      var ptr := Kid(s, c, p);
      if ptr == Null || ptr == Tagged {
        r := CreateChild(s, c, h, ptr == Tagged, p);
      } else {
        var t := Follow(s, c, ptr, h, p);
        r := Some(t);
      }
    }

    // ----- words

    method SetTag(s: Slot, c: Byte, on: bool, ghost p: Word)
      requires Valid() && At(s, p) && p + [c] !in nodes && (on <==> p + [c] !in words)
      modifies this`words, this`count, table
      ensures Valid() && words == if on then old(words) + {p + [c]} else old(words) - {p + [c]}
    {
      hide DerefTable.Valid, PrefixClosed, Injective, NodeOk;
      TagSet(env, table.objects, nodes, words, p, c, on);
      SlotLive(p);
      var n := table.Read(s);
      table.Write(s, WithKid(n, c, if on then Tagged else Null));
      ghost var before := words;
      words := if on then words + {p + [c]} else words - {p + [c]};
      CountOne(before, p + [c], on);
      count := if on then count + 1 else count - 1;
    }

    lemma CountOne(ws: set<Word>, w: Word, on: bool)
      requires on <==> w !in ws
      ensures |if on then ws + {w} else ws - {w}| == if on then |ws| + 1 else |ws| - 1
    {
    }

    /** Set or clear the flag of a node; tells whether that changed anything. */
    method SetTerminal(s: Slot, on: bool, ghost p: Word) returns (changed: bool)
      requires Valid() && At(s, p)
      modifies this`words, this`count, table
      ensures Valid() && words == if on then old(words) + {p} else old(words) - {p}
      ensures changed <==> on == (p !in old(words))
    {
      hide DerefTable.Valid, PrefixClosed, Injective, NodeOk, Sound;
      InTable(p);
      TerminalOk(p, on);
      var n := table.Read(s);
      changed := n.terminal != on;
      table.Write(s, n.(terminal := on));
      ghost var before := words;
      words := if on then words + {p} else words - {p};
      if changed {
        CountOne(before, p, on);
        count := if on then count + 1 else count - 1;
      } else {
        assert words == before;
      }
    }

    lemma InTable(p: Word)
      requires Valid() && p in nodes
      ensures nodes[p] in table.objects && (table.objects[nodes[p]].terminal <==> p in words)
    {
      hide DerefTable.Valid;
      assert NodeOk(env, table.objects, nodes, words, p);
    }

    lemma TerminalOk(p: Word, on: bool)
      requires Valid() && p in nodes && nodes[p] in table.objects
      ensures Sound(env, table.objects[nodes[p] := table.objects[nodes[p]].(terminal := on)], nodes,
                    if on then words + {p} else words - {p})
    {
      hide DerefTable.Valid, Sound;
      TerminalSet(env, table.objects, nodes, words, p, on);
    }

    /** The last byte of a word to insert: a tag if there is no node there, else that node's flag. */
    method InsertLast(s: Slot, c: Byte, h: Hashes, ghost p: Word) returns (isNew: bool)
      requires Valid() && At(s, p) && h == env.edgeHash(p, s, c)
      modifies this`words, this`count, table
      ensures Valid() && words == old(words) + {p + [c]} && (isNew <==> p + [c] !in old(words))
    {
      hide DerefTable.Valid, PrefixClosed, Injective, NodeOk, Sound;
      var ptr := Kid(s, c, p);
      if ptr == Tagged {
        assert words == words + {p + [c]};
        return false;
      }
      if ptr == Null {
        SetTag(s, c, true, p);
        return true;
      }
      var t := Follow(s, c, ptr, h, p);
      isNew := SetTerminal(t, true, p + [c]);
    }

    /** The last byte of a word to look up. */
    method ContainsLast(s: Slot, c: Byte, h: Hashes, ghost p: Word) returns (found: bool)
      requires Valid() && At(s, p) && h == env.edgeHash(p, s, c)
      ensures found <==> p + [c] in words
    {
      hide DerefTable.Valid, PrefixClosed, Injective, NodeOk, Sound;
      var ptr := Kid(s, c, p);
      if ptr == Null {
        return false;
      }
      if ptr == Tagged {
        return true;
      }
      var t := Follow(s, c, ptr, h, p);
      found := IsTerminal(t, p + [c]);
    }

    method IsTerminal(s: Slot, ghost p: Word) returns (t: bool)
      requires Valid() && At(s, p)
      ensures t <==> p in words
    {
      hide DerefTable.Valid, PrefixClosed, Injective, EdgeOk;
      assert NodeOk(env, table.objects, nodes, words, p);
      var n := table.Read(s);
      t := n.terminal;
    }

    /** A word is in reach only through the nodes at its proper prefixes. */
    lemma WordPath(w: Word, i: nat)
      requires Valid() && w in words && i < |w|
      ensures w[..i] in nodes
    {
      hide DerefTable.Valid, NodeOk, Injective;
      PathDown(nodes, Parent(w), i);
      assert Parent(w)[..i] == w[..i];
    }

    lemma RootHere()
      requires Valid()
      ensures At(root, [])
    {
      hide DerefTable.Valid, NodeOk, Injective;
    }

    // ----- taking nodes out

    /** How many pointers of a node are in use. */
    method ChildCount(s: Slot, ghost p: Word) returns (n: nat)
      requires Valid() && At(s, p)
      ensures s in table.objects && n == CountKids(table.objects[s].kids)
    {
      hide DerefTable.Valid, PrefixClosed, Injective, EdgeOk;
      assert NodeOk(env, table.objects, nodes, words, p);
      var node := table.Read(s);
      n := 0;
      var i := 0;
      while i < |node.kids|
        invariant i <= |node.kids| && n == CountKids(node.kids[..i])
      {
        assert node.kids[..i + 1][..i] == node.kids[..i];
        n := n + if node.kids[i] != Null then 1 else 0;
        i := i + 1;
      }
      assert node.kids[..i] == node.kids;
    }

    lemma SomeKid(p: Word) returns (c: Byte)
      requires Valid() && p in nodes && nodes[p] in table.objects && CountKids(table.objects[nodes[p]].kids) > 0
      ensures p + [c] in nodes || p + [c] in words
    {
      hide DerefTable.Valid, PrefixClosed, Injective;
      assert NodeOk(env, table.objects, nodes, words, p);
      var kids := table.objects[nodes[p]].kids;
      NoKids(kids);
      var i :| 0 <= i < |kids| && kids[i] != Null;
      c := i;
      assert EdgeOk(env, nodes, words, p, c, kids[c]);
    }

    /** Free a node without pointers; its word, if it is one, becomes a tag in the node above. */
    method Unlink(s: Slot, c: Byte, h: Hashes, t: Slot, ghost p: Word) returns (terminal: bool)
      requires Valid() && At(s, p) && At(t, p + [c]) && h == env.edgeHash(p, s, c)
      requires t in table.objects && CountKids(table.objects[t].kids) == 0
      modifies this`nodes, table
      ensures Valid() && nodes == old(nodes) - {p + [c]} && (terminal <==> p + [c] in words)
    {
      hide DerefTable.Valid, PrefixClosed, Injective, NodeOk, Sound, EdgeOk;
      NoKids(table.objects[t].kids);
      UnlinkOk(p, c);
      var m := table.Read(t);
      terminal := m.terminal;
      var n := table.Read(s);
      table.Free(n.kids[c], h);
      table.Write(s, WithKid(n, c, if terminal then Tagged else Null));
      nodes := nodes - {p + [c]};
    }

    lemma UnlinkOk(p: Word, c: Byte)
      requires Valid() && p in nodes && p + [c] in nodes && nodes[p + [c]] in table.objects
      requires forall k | k in table.objects[nodes[p + [c]]].kids :: k == Null
      ensures nodes[p] in table.objects && nodes[p] != nodes[p + [c]] && |table.objects[nodes[p]].kids| == 256
      ensures Leads(env, p, nodes[p], c, table.objects[nodes[p]].kids[c], nodes[p + [c]])
      ensures table.objects[nodes[p + [c]]].terminal <==> p + [c] in words
      ensures [] in nodes - {p + [c]} && (nodes - {p + [c]})[[]] == root
      ensures var objects := table.objects;
              var n := WithKid(objects[nodes[p]], c, if p + [c] in words then Tagged else Null);
              Sound(env, (objects - {nodes[p + [c]]})[nodes[p] := n], nodes - {p + [c]}, words)
    {
      hide DerefTable.Valid, Sound;
      ParentAndChild(env, table.objects, nodes, words, p, c);
      Pruned(env, table.objects, nodes, words, p, c);
    }
  }

  function CountKids(kids: seq<TinyPtr>): nat {
    if kids == [] then 0 else CountKids(kids[..|kids| - 1]) + if kids[|kids| - 1] != Null then 1 else 0
  }

  lemma {:induction false} NoKids(kids: seq<TinyPtr>)
    ensures CountKids(kids) == 0 <==> forall k | k in kids :: k == Null
  {
    if kids != [] {
      var n := |kids| - 1;
      NoKids(kids[..n]);
      assert kids[n] in kids && forall k | k in kids[..n] :: k in kids;
      assert forall k | k in kids :: k == kids[n] || k in kids[..n];
    }
  }
}
