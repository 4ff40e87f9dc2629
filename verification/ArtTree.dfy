/** The tree itself, used by one thread at a time. */
module ArtTrees {
  import opened Wrappers
  import opened Primes
  import opened TinyPtrs
  import opened DerefTables
  import opened TableSizing
  import opened DeletionLists
  import opened Bytes
  import opened ArtShape
  import opened ArtNodes
  import opened ArtTables
  import opened ArtEpoch
  import opened ArtPhysical
  import opened ArtInvariant
  import opened ArtLookup
  import opened ArtInsert
  import opened ArtReady

  /** The slots of a bucket when five bits of a pointer are the index. */
  const ART_ENTRIES: nat := 31

  lemma ArtEntries()
    ensures ART_FORMAT.Valid() && ART_FORMAT.Entries() == ART_ENTRIES
  {
    assert Pow2(5) == 32;
  }

  function EmptyRoot(id: nat): Node {
    Node(id, 0, Zeros(MAX_STORED_PREFIX, 0), EmptyN256())
  }

  lemma EmptyTreeOk(env: Env, root: Slot, id: nat)
    ensures TreeOk(env, map[root := Inner(EmptyRoot(id))], View(map[], map[[] := root], map[], map[]), {}, {})
  {
    var v := View(map[], map[[] := root], map[], map[]);
    assert EdgesFrom(v.edges, []) == {};
  }

  lemma TablesMatch(tables: ArtDerefTables)
    requires tables.Valid()
    ensures KindsMatch(tables.store)
  {
  }

  lemma NothingPending(tables: ArtDerefTables, es: seq<PendingDelete>)
    requires es == []
    ensures SetOf(Slots(tables, es)) == {}
  {
  }

  class Tree {
    const tables: ArtDerefTables
    const epoche: Epoche
    const idHash: IdHash
    const loadKey: LoadKey
    const root: Slot

    /** The keys stored, and where everything lives. */
    ghost var v: View
    /** Slots allocated by inserts that then ran out of space. */
    ghost var leaked: set<Slot>

    ghost function Environment(): Env {
      Env(tables, idHash, loadKey)
    }

    ghost function Pending(): set<Slot>
      reads this, epoche, epoche.list
    {
      SetOf(Slots(tables, epoche.Pending()))
    }

    ghost predicate Apart() {
      && epoche.tables == tables
      && (this as object) !in tables.Repr() && (this as object) != epoche && (this as object) != epoche.list
      && (epoche as object) !in tables.Repr() && (epoche.list as object) !in tables.Repr()
      && (epoche as object) != epoche.list
    }

    ghost predicate Valid()
      reads this, epoche, epoche.list, tables.Repr()
    {
      && Apart() && epoche.Valid() && tables.Wired() && tables.Valid() && KindsMatch(tables.store)
      && TreeOk(Environment(), tables.store, v, Pending(), leaked)
      && [] in v.inner && v.inner[[]] == root
    }

    /** What the tree stores under each key of the universe; zero stands for nothing. */
    ghost function Contents(): map<Key, Tid>
      reads this
    {
      v.keys
    }

    /** A root with no children, in a table that holds nothing else. */
    constructor (tables: ArtDerefTables, root: Slot, id: nat, idHash: IdHash, loadKey: LoadKey)
      requires tables.Wired() && tables.Valid() && tables.store == map[root := Inner(EmptyRoot(id))]
      ensures Valid() && Contents() == map[] && leaked == {} && this.tables == tables && fresh(epoche)
      ensures fresh(epoche.list)
    {
      hide DerefTable.Valid, ArtDerefTables.NoRoom, AgreeAll, TreeOk, KindsMatch, DeletionList.Valid, PendingOk;
      this.tables, this.root, this.idHash, this.loadKey := tables, root, idHash, loadKey;
      epoche := new Epoche(tables);
      v := View(map[], map[[] := root], map[], map[]);
      leaked := {};
      new;
      EmptyTreeOk(Environment(), root, id);
      TablesMatch(tables);
      NothingPending(tables, epoche.Pending());
    }

    /**
     * An empty tree over four empty tables of the given capacities; its root is the one slot allocated under zero
     * hashes. None where the buckets of some table do not fit 32 bits.
     */
    static method Create(primes: seq<Number>, n4: nat, n16: nat, n256: nat, leaf: nat, id: nat, idHash: IdHash,
                         loadKey: LoadKey) returns (r: Option<Tree>)
      requires GoodTable(primes)
      ensures r.Some? <==> Indexable(primes, n4, ART_ENTRIES) && Indexable(primes, n16, ART_ENTRIES)
                           && Indexable(primes, n256, ART_ENTRIES) && Indexable(primes, leaf, ART_ENTRIES)
      ensures r.Some? ==>
                fresh(r.value) && fresh(r.value.tables.Repr()) && fresh(r.value.epoche) && fresh(r.value.epoche.list)
      ensures r.Some? ==> r.value.Valid() && r.value.Contents() == map[] && r.value.leaked == {}
      ensures r.Some? ==>
                var t := r.value.tables;
                && RowOf(primes, n4, ART_ENTRIES, t.n4.buckets) && RowOf(primes, n16, ART_ENTRIES, t.n16.buckets)
                && RowOf(primes, n256, ART_ENTRIES, t.n256.buckets) && RowOf(primes, leaf, ART_ENTRIES, t.leaf.buckets)
                && t.n4.entries == t.n16.entries == t.n256.entries == t.leaf.entries == ART_ENTRIES
    {
      hide RowOf, Indexable, GoodTable, Tree.Valid;
      var b4 := RowFor(primes, n4, ART_ENTRIES);
      var b16 := RowFor(primes, n16, ART_ENTRIES);
      var b256 := RowFor(primes, n256, ART_ENTRIES);
      var bLeaf := RowFor(primes, leaf, ART_ENTRIES);
      if b4.None? || b16.None? || b256.None? || bLeaf.None? {
        return None;
      }
      var tree := Over(b4.value, b16.value, b256.value, bLeaf.value, id, idHash, loadKey);
      return Some(tree);
    }

    static method Over(b4: Number, b16: Number, b256: Number, bLeaf: Number, id: nat, idHash: IdHash, loadKey: LoadKey)
      returns (tree: Tree)
      requires b4.Plausible() && b4.Exact() && b16.Plausible() && b16.Exact()
      requires b256.Plausible() && b256.Exact() && bLeaf.Plausible() && bLeaf.Exact()
      ensures fresh(tree) && fresh(tree.tables.Repr()) && fresh(tree.epoche) && fresh(tree.epoche.list)
      ensures tree.Valid() && tree.Contents() == map[] && tree.leaked == {}
      ensures var t := tree.tables;
              && t.n4.buckets == b4 && t.n16.buckets == b16 && t.n256.buckets == b256 && t.leaf.buckets == bLeaf
              && t.n4.entries == t.n16.entries == t.n256.entries == t.leaf.entries == ART_ENTRIES
    {
      ArtEntries();
      hide DerefTable.Valid, ArtDerefTables.NoRoom, AgreeAll, DeletionList.Valid, PendingOk, Entries, Slots, SetOf,
           TreeOk;
      var tables := new ArtDerefTables(b4, b16, b256, bLeaf);
      var h := Hashes(0, 0);
      tables.EmptyHasRoom(h, N256_TAG, tables.store.Keys);
      var p := tables.CreateN256(h, Inner(EmptyRoot(id)));
      tree := new Tree(tables, tables.Locate(p.value, h), id, idHash, loadKey);
    }

    method CheckKey(tid: Tid, k: Key) returns (r: Tid)
      ensures r == if loadKey(tid) == k then tid else 0
    {
      var kt := loadKey(tid);
      r := if k == kt then tid else 0;
    }

    /** The value stored under k, or zero. */
    method Lookup(k: Key) returns (tid: Tid)
      requires Valid() && PrefixFree(Contents().Keys + {k})
      modifies epoche
      ensures Valid() && Contents() == old(Contents())
      ensures tid == if k in Contents() then Contents()[k] else 0
      ensures k in Contents() ==> tid != 0
      ensures Now() == old(Now()).(announced := old(epoche.currentEpoch))
    {
      hide DerefTable.Valid, ArtDerefTables.NoRoom, AgreeAll, TreeOk, KindsMatch, DeletionList.Valid, PendingOk,
           PrefixFree, SetOf, Slots, Entries;
      epoche.Enter();
      tid := Find(k);
    }

    method Find(k: Key) returns (tid: Tid)
      requires Valid() && PrefixFree(v.keys.Keys + {k})
      ensures tid == if k in v.keys then v.keys[k] else 0
      ensures k in v.keys ==> tid != 0
    {
      hide Valid, Epoche.Valid, DerefTable.Valid, AgreeAll, KindsMatch, TreeOk, ShapeOk, PrefixFree, Physical,
           Searchable, NodeAt, NodeOf, Reached, PrefixDiffers, Compressed, WellFormed, Child, TargetSlot;
      ghost var env, st, w := Env(tables, idHash, loadKey), tables.store, v;
      ghost var p, up: Key := [], [];
      Start(k);
      var x := tables.Read(root);
      var n := x.node;
      var level: nat := 0;
      var exact := true;
      var done := false;
      tid := 0;
      while !done
        invariant !done ==> p in w.inner && NodeAt(st, w, p) && n == NodeOf(st, w, p)
        invariant !done ==> |n.prefix| == MAX_STORED_PREFIX && WellFormed(n.body) && level <= |k|
        invariant !done ==> Reached(w, n, up, p, k, level, exact)
        invariant done ==> tid == if k in w.keys then w.keys[k] else 0
        decreases !done, Deeper(w, p)
      {
        done, tid, n, level, exact, up, p := Visit(k, n, level, exact, up, p);
      }
    }

    /** One round: check the node's prefix and follow the next byte of the key. */
    method Visit(k: Key, n: Node, level: nat, exact: bool, ghost up: Key, ghost p: Key)
      returns (done: bool, tid: Tid, n': Node, level': nat, exact': bool, ghost up': Key, ghost p': Key)
      requires tables.Valid() && tables.Wired() && KindsMatch(tables.store)
      requires Physical(Env(tables, idHash, loadKey), tables.store, v) && Searchable(v, k)
      requires p in v.inner && NodeAt(tables.store, v, p) && n == NodeOf(tables.store, v, p)
      requires |n.prefix| == MAX_STORED_PREFIX && WellFormed(n.body) && level <= |k|
      requires Reached(v, n, up, p, k, level, exact)
      ensures done ==> tid == if k in v.keys then v.keys[k] else 0
      ensures !done ==> p' in v.inner && NodeAt(tables.store, v, p') && n' == NodeOf(tables.store, v, p')
      ensures !done ==> |n'.prefix| == MAX_STORED_PREFIX && WellFormed(n'.body) && level' <= |k|
      ensures !done ==> Reached(v, n', up', p', k, level', exact') && Deeper(v, p') < Deeper(v, p)
    {
      hide DerefTable.Valid, ArtDerefTables.NoRoom, AgreeAll, KindsMatch, ShapeOk, PrefixFree, Physical, Searchable,
           NodeAt, NodeOf, Reached, PrefixDiffers, Compressed, WellFormed, Child, TargetSlot;
      done, tid, n', level', exact', up', p' := true, 0, n, level, exact, up, p;
      var res, next := CheckPrefix(n, k, level);
      if res == NoMatch {
        NoMatchMeansAbsent(v, n, up, p, k, level, exact);
        return;
      }
      AfterCheck(v, n, up, p, k, level, exact, res);
      exact' := exact && res == Match;
      if |k| <= next {
        EndsAtNode(v, n, up, p, k, level, exact);
        return;
      }
      var b := k[next];
      Follow(Env(tables, idHash, loadKey), tables.store, v, p, b);
      var ptr := GetChild(n.body, b);
      if ptr == Null {
        EndsAtFreeEdge(v, n, up, p, k, level, exact);
        return;
      }
      ghost var t := v.edges[Edge(p, b)];
      var x := tables.Read(tables.Locate(ptr, idHash(n.id, b)));
      if ptr.special == LEAF {
        ComparisonDecides(v, loadKey, n, up, p, k, level, exact, t.key);
        tid := x.tid;
        if next < |k| - 1 || !exact' {
          tid := CheckKey(tid, k);
        }
        return;
      }
      Descends(v, n, up, p, k, level, exact, t.path, x.node, exact');
      DeeperShrinks(v, p, t.path);
      done, n', level', up', p' := false, x.node, next + 1, p, t.path;
    }

    /** Where every walk begins. */
    lemma Start(k: Key)
      requires Valid() && PrefixFree(v.keys.Keys + {k})
      ensures var env, st := Env(tables, idHash, loadKey), tables.store;
              && Physical(env, st, v) && Searchable(v, k) && KindsMatch(st) && tables.Valid() && tables.Wired()
              && [] in v.inner && root in st && NodeAt(st, v, []) && st[root] == Inner(NodeOf(st, v, []))
              && |NodeOf(st, v, []).prefix| == MAX_STORED_PREFIX && WellFormed(NodeOf(st, v, []).body)
              && Reached(v, NodeOf(st, v, []), [], [], k, 0, true)
              && (forall q | q in v.keys :: v.keys[q] != 0 && loadKey(v.keys[q]) == q)
    {
      RootReached(Environment(), tables.store, v, k);
      assert forall q | q in v.keys :: LeafOk(Environment(), tables.store, v, q);
      hide Reached, ShapeOk, PrefixFree, KindsMatch, ArtDerefTables.Valid, EdgeOk, Epoche.Valid, Conserved, Kinds,
           Injective;
    }

    // ----- inserting

    ghost function Now(): Moment
      reads this, epoche, epoche.list, tables
    {
      Moment(tables.store, v, leaked, epoche.list.labels, epoche.threshold, epoche.currentEpoch, epoche.localEpoch)
    }

    /** What an insert did. */
    twostate predicate Outcome(k: Key, tid: Tid, ok: bool)
      reads this, epoche, epoche.list, tables
    {
      ArtReady.Outcome(tables, idHash, old(Now()), Now(), k, tid, ok)
    }

    /** The reclaimer's part of the invariant survives any growth of the tables. */
    ghost predicate StillPending(st: Store)
      reads this, epoche, epoche.list, tables.Repr()
    {
      && Apart() && tables.Wired() && tables.Valid() && epoche.list.Valid()
      && (epoche.list.labels != [] ==> epoche.list.labels[0].epoch <= epoche.currentEpoch)
      && PendingOk(tables, epoche.Pending(), st)
      && st.Keys <= tables.store.Keys
    }

    /** The tree is w from here on; the slot of the old node or leaf, if any, waits to be freed. */
    method Commit(ghost w: View, ghost st: Store, p: TinyPtr, h: Hashes, ghost a: Moment, ghost k: Key, ghost tid: Tid,
                  ghost way: Way, ghost needs: seq<Need>)
      requires StillPending(st) && p.Ptr? && p.special < 4
      requires tables.Locate(p, h) in tables.store && tables.Locate(p, h) !in Pending()
      requires TreeOk(Environment(), tables.store, w, Pending() + {tables.Locate(p, h)}, leaked)
      requires [] in w.inner && w.inner[[]] == root
      requires Now() == a.(store := tables.store) && w.keys == v.keys[k := tid]
      requires Goes(a.store, v, k, way) && Needs(idHash, a.store, v, k, way) == needs && !way.Beside?
      requires Retired(idHash, a.store, v, k, way) == PendingDelete(p, h)
      requires Served(tables, a.store.Keys, tables.store.Keys, needs, true)
      modifies this`v, epoche, epoche.list
      ensures Valid() && ArtReady.Outcome(tables, idHash, a, Now(), k, tid, true)
    {
      hide DerefTable.Valid, ArtDerefTables.NoRoom, AgreeAll, DeletionList.Valid, TreeOk, PendingOk, KindsMatch,
           Entries, Slots, SetOf, Epoche.Valid, ArtReady.Outcome, Goes, Needs, Retired, Served, WithEntry;
      TablesMatch(tables);
      MarkOld(st, p, h);
      v := w;
      Stored(tables, idHash, a, Now(), k, tid, way, needs, PendingDelete(p, h));
    }

    method MarkOld(ghost st: Store, p: TinyPtr, h: Hashes)
      requires StillPending(st) && p.Ptr? && p.special < 4 && tables.Locate(p, h) !in Pending()
      requires tables.Locate(p, h) in tables.store
      modifies epoche, epoche.list
      ensures epoche.Valid() && Pending() == old(Pending()) + {tables.Locate(p, h)}
      ensures epoche.list.labels == WithEntry(old(epoche.list.labels), PendingDelete(p, h), old(epoche.currentEpoch))
      ensures epoche.threshold == old(epoche.threshold) + 1 && epoche.currentEpoch == old(epoche.currentEpoch)
      ensures epoche.localEpoch == old(epoche.localEpoch)
    {
      hide DerefTable.Valid, ArtDerefTables.NoRoom, AgreeAll, DeletionList.Valid, PendingOk, Entries, Slots, SetOf,
           Inserted;
      PendingOkGrows(tables, epoche.Pending(), st, tables.store);
      ghost var before := Slots(tables, epoche.Pending());
      NotPending(before, tables.Locate(p, h));
      ghost var at := epoche.MarkNodeForDeletion(p, h);
      SetOfInserted(before, at, tables.Locate(p, h));
    }

    /** The tree is w from here on, and nothing was unlinked. */
    method CommitOnly(ghost w: View, ghost st: Store)
      requires StillPending(st) && TreeOk(Environment(), tables.store, w, Pending(), leaked)
      requires [] in w.inner && w.inner[[]] == root
      modifies this`v
      ensures Valid() && Now() == old(Now()).(v := w)
    {
      hide DerefTable.Valid, ArtDerefTables.NoRoom, AgreeAll, DeletionList.Valid, TreeOk, PendingOk, KindsMatch,
           Entries, Slots, SetOf;
      PendingOkGrows(tables, epoche.Pending(), st, tables.store);
      TablesMatch(tables);
      v := w;
    }

    /** An allocation failed: the tree stays, and what was allocated before is lost. */
    method Lose(ghost st: Store, ghost lost: set<Slot>, ghost a: Moment, ghost k: Key, ghost tid: Tid, ghost way: Way,
                ghost needs: seq<Need>)
      requires StillPending(st) && TreeOk(Environment(), st, v, Pending(), leaked) && Lost(st, tables.store, lost)
      requires [] in v.inner && v.inner[[]] == root
      requires Now() == a.(store := tables.store)
      requires Goes(a.store, v, k, way) && Needs(idHash, a.store, v, k, way) == needs
      requires Served(tables, a.store.Keys, tables.store.Keys, needs, false)
      modifies this`leaked
      ensures Valid() && ArtReady.Outcome(tables, idHash, a, Now(), k, tid, false)
    {
      hide DerefTable.Valid, ArtDerefTables.NoRoom, AgreeAll, DeletionList.Valid, TreeOk, PendingOk, KindsMatch,
           Entries, Slots, SetOf, Lost, ArtReady.Outcome, Goes, Needs, Served;
      PendingOkGrows(tables, epoche.Pending(), st, tables.store);
      TablesMatch(tables);
      LostOk(Environment(), st, tables.store, v, Pending(), leaked, lost);
      leaked := leaked + lost;
      RanOut(tables, idHash, a, Now(), k, tid, way, needs);
    }

    // ----- the walk of an insert

    /** The node an insert has come to is in place, and its body is readable. */
    lemma Standing(k: Key, x: Place)
      requires Valid() && At(tables.store, v, k, x)
      ensures tables.Valid() && tables.Wired() && KindsMatch(tables.store) && Physical(Environment(), tables.store, v)
      ensures WellFormed(x.node.body)
    {
      hide DerefTable.Valid, ArtDerefTables.NoRoom, AgreeAll, DeletionList.Valid, PendingOk, Entries, Slots, SetOf,
           PrefixFree, Physical, Child, WellFormed, ShapeOk, Kinds, Conserved, KindsMatch, Prefix, Compressed;
    }

    lemma StartInsert(k: Key)
      requires Valid()
      ensures root in tables.store && tables.store[root].Inner?
      ensures At(tables.store, v, k,
                 Place(root, tables.store[root].node, Null, root, tables.store[root].node, 0, 0, [], []))
    {
      hide DerefTable.Valid, ArtDerefTables.NoRoom, AgreeAll, DeletionList.Valid, PendingOk, Entries, Slots, SetOf,
           PrefixFree, Child, WellFormed, ShapeOk, Kinds, Conserved, KindsMatch, Compressed, EdgeOk, LeafOk,
           Injective;
    }

    /** One round: compare the node's prefix in full, then follow the next byte of the key or change the tree. */
    method InsertVisit(k: Key, tid: Tid, x: Place) returns (done: bool, ok: bool, x': Place)
      requires Valid() && Insertable(v, k) && loadKey(tid) == k && tid != 0 && At(tables.store, v, k, x)
      modifies this, tables.Repr(), epoche, epoche.list
      ensures Valid() && (done ==> Outcome(k, tid, ok))
      ensures !done ==>
                unchanged(this, epoche, epoche.list) && tables.store == old(tables.store)
                && At(tables.store, v, k, x') && Deeper(v, x'.path) < Deeper(v, x.path)
    {
      hide Valid, DerefTable.Valid, ArtDerefTables.NoRoom, AgreeAll, Physical, KindsMatch, At, Insertable,
           WellFormed, Child, PartsAt, Under;
      done, ok, x' := true, false, x;
      Standing(k, x);
      var matches, level, byte, rest := CheckPrefixPessimistic(tables, Env(tables, idHash, loadKey), v, x, k);
      if !matches {
        ok := SplitPrefix(k, tid, x, level, byte, rest);
        return;
      }
      GoesOn(v, tables.store, k, x);
      var b := k[level];
      var ptr := GetChild(x.node.body, b);
      EdgeHere(Environment(), tables.store, v, k, x, b);
      if ptr == Null {
        if IsFull(x.node.body) {
          ok := InsertGrow(k, tid, x, b);
        } else {
          ok := InsertPlain(k, tid, x, b);
        }
        return;
      }
      if ptr.special == LEAF {
        ok := SplitLeaf(k, tid, x, level + 1, b, ptr);
        return;
      }
      var at := tables.Locate(ptr, idHash(x.node.id, b));
      var next := tables.Read(at);
      done := false;
      x' := Place(at, next.node, ptr, x.slot, x.node, b, level + 1, x.path, v.edges[Edge(x.path, b)].path);
      InsertDescends(Environment(), tables.store, v, k, x, x');
    }

    method InsertGuarded(k: Key, tid: Tid) returns (ok: bool)
      requires Valid() && Insertable(v, k) && loadKey(tid) == k && tid != 0
      modifies this, tables.Repr(), epoche, epoche.list
      ensures Valid() && Outcome(k, tid, ok)
    {
      hide Valid, DerefTable.Valid, ArtDerefTables.NoRoom, AgreeAll, Physical, KindsMatch, At, Insertable;
      StartInsert(k);
      var node := ReadRoot();
      var x := Place(root, node, Null, root, node, 0, 0, [], []);
      var done := false;
      ok := false;
      while !done
        invariant Valid()
        invariant !done ==> unchanged(this, epoche, epoche.list) && tables.store == old(tables.store)
        invariant !done ==> At(tables.store, v, k, x)
        invariant done ==> Outcome(k, tid, ok)
        decreases !done, Deeper(v, x.path)
      {
        done, ok, x := InsertVisit(k, tid, x);
      }
    }

    method ReadRoot() returns (node: Node)
      requires Valid() && root in tables.store && tables.store[root].Inner?
      ensures node == tables.store[root].node
    {
      hide DerefTable.Valid, ArtDerefTables.NoRoom, AgreeAll, DeletionList.Valid, TreeOk, PendingOk, KindsMatch,
           Entries, Slots, SetOf;
      var x := tables.Read(root);
      node := x.node;
    }

    /** The guarded operation ends, and with it, now and then, a cleanup. */
    method Exit(others: seq<nat>) returns (ghost freed: set<Slot>)
      requires Valid()
      modifies epoche, epoche.list, tables.Repr()
      ensures Valid() && v == old(v) && leaked == old(leaked)
      ensures tables.store == old(tables.store) - freed && Pending() == old(Pending()) - freed
      ensures freed <= old(Pending()) && freed <= old(tables.store.Keys)
      ensures Exited(tables, old(Now()), others, Now(), freed)
    {
      hide DerefTable.Valid, ArtDerefTables.NoRoom, AgreeAll, DeletionList.Valid, TreeOk, PendingOk, KindsMatch,
           Entries, Slots, SetOf, Cleaned;
      ghost var st, pend := tables.store, Pending();
      PendingLive();
      freed := epoche.ExitAndCleanup(others);
      TablesMatch(tables);
      AfterCleanup(Environment(), st, tables.store, v, pend, leaked, freed);
    }

    lemma PendingLive()
      requires Valid()
      ensures Pending() <= tables.store.Keys
    {
      hide DerefTable.Valid, AgreeAll, DeletionList.Valid, TreeOk, KindsMatch, Entries;
    }

    /**
     * Store a new key. The insert announces the current epoch. On its way w it fails exactly if one of its needs has
     * both candidate buckets full, and the tree keeps its contents then. What it retires waits, at moment m, and the
     * cleanup at its end frees what no announced epoch can reach.
     */
    method Insert(k: Key, tid: Tid, others: seq<nat>) returns (ok: bool, ghost w: Way, ghost m: Moment,
                                                               ghost freed: set<Slot>)
      requires Valid() && PrefixFree(Contents().Keys + {k}) && k !in Contents() && loadKey(tid) == k && tid != 0
      modifies this, tables.Repr(), epoche, epoche.list
      ensures Valid()
      ensures Contents() == if ok then old(Contents())[k := tid] else old(Contents())
      ensures ok ==> leaked == old(leaked)
      ensures var a := old(Now()).(announced := old(epoche.currentEpoch));
              Ran(tables, idHash, a, m, Now(), k, tid, others, ok, w, freed)
      ensures Pending() == SetOf(Slots(tables, Entries(m.labels))) - freed
    {
      hide DerefTable.Valid, ArtDerefTables.NoRoom, AgreeAll, TreeOk, KindsMatch, DeletionList.Valid, PendingOk,
           PrefixFree, SetOf, Slots, Entries, Took, Exited, ArtReady.Outcome;
      epoche.Enter();
      CanInsert(k);
      ghost var a := Now();
      ok := InsertGuarded(k, tid);
      m := Now();
      w := TheWay(tables, idHash, a, m, k, tid, ok);
      freed := Exit(others);
      RanMeans(tables, idHash, a, m, Now(), k, tid, others, ok, w, freed);
    }

    lemma CanInsert(k: Key)
      requires Valid() && PrefixFree(v.keys.Keys + {k}) && k !in v.keys
      ensures Insertable(v, k)
    {
      hide DerefTable.Valid, ArtDerefTables.NoRoom, AgreeAll, DeletionList.Valid, PendingOk, Entries, Slots, SetOf,
           PrefixFree, Physical, ShapeOk, Kinds, Conserved, KindsMatch;
    }

    // ----- changing the tree

    /** A free byte of a node with room. */
    method InsertPlain(k: Key, tid: Tid, x: Place, b: Byte) returns (ok: bool)
      requires Valid() && Insertable(v, k) && loadKey(tid) == k && tid != 0
      requires At(tables.store, v, k, x) && Prefix(x.path, k) && |x.path| < |k| && b == k[|x.path|]
      requires Edge(x.path, b) !in v.edges && !IsFull(x.node.body) && Child(x.node.body, b) == Null
      modifies this, tables.Repr()
      ensures Valid() && Outcome(k, tid, ok)
    {
      hide DerefTable.Valid, ArtDerefTables.NoRoom, AgreeAll, DeletionList.Valid, TreeOk, PendingOk, KindsMatch,
           Entries, Slots, SetOf, ShapeOk, PrefixFree, ChildSet, Compressed,
           ArtReady.Outcome, Goes, Needs, Retired, Served, WithEntry;
      ghost var st, a := tables.store, Now();
      ghost var w, needs := Beside(x.path), [Need(idHash(x.node.id, b), LEAF)];
      WayBeside(idHash, st, v, k, x);
      ghost var sK, ptr, n';
      ok, sK, ptr, n' := WritePlain(tables, idHash, x.slot, x.node, b, tid);
      if ok {
        PlainReady(Environment(), st, v, Pending(), leaked, k, tid, x, sK, ptr, n');
        CommitOnly(WithLeaf(v, x.path, k, tid, sK), st);
        Stored(tables, idHash, a, Now(), k, tid, w, needs, PendingDelete(Null, idHash(x.node.id, b)));
      } else {
        CommitOnly(v, st);
        RanOut(tables, idHash, a, Now(), k, tid, w, needs);
      }
    }

    /** A full node gives way to a bigger copy of itself. */
    method InsertGrow(k: Key, tid: Tid, x: Place, b: Byte) returns (ok: bool)
      requires Valid() && Insertable(v, k) && loadKey(tid) == k && tid != 0
      requires At(tables.store, v, k, x) && Prefix(x.path, k) && |x.path| < |k| && b == k[|x.path|]
      requires Edge(x.path, b) !in v.edges && IsFull(x.node.body) && Child(x.node.body, b) == Null
      modifies this, tables.Repr(), epoche, epoche.list
      ensures Valid() && Outcome(k, tid, ok)
    {
      hide DerefTable.Valid, ArtDerefTables.NoRoom, AgreeAll, DeletionList.Valid, TreeOk, PendingOk, KindsMatch,
           Entries, Slots, SetOf, ShapeOk, PrefixFree, ChildSet, Compressed, Child, At, Insertable, Prefix,
           ArtReady.Outcome, Goes, Needs, Retired, Served, WithEntry;
      ghost var st, a := tables.store, Now();
      NotRootWhenFull(k, x);
      ghost var w := Growing(x.path, Edge(x.up, x.byte));
      ghost var needs := [Need(idHash(x.parent.id, x.byte), Tag(x.node.body) + 1), Need(idHash(x.node.id, b), LEAF)];
      WayGrowing(idHash, st, v, k, x);
      ghost var lost, s, copy, ptr, sK, big, ptrK, u;
      ok, lost, s, copy, ptr, sK, big, ptrK, u :=
        WriteGrowth(tables, idHash, x.node, b, tid, x.parentSlot, x.parent, x.byte);
      if ok {
        ghost var g := GrowReady(Environment(), st, v, Pending(), leaked, k, tid, x, s, copy, ptr, sK, big, ptrK, u);
        Commit(GrownView(v, g), st, x.ptr, idHash(x.parent.id, x.byte), a, k, tid, w, needs);
      } else {
        Lose(st, lost, a, k, tid, w, needs);
      }
    }

    /**
     * Split the edge from the node at p at r: a new node there takes the new leaf and the old target, which is moved
     * because the edge above it changes.
     */
    method Split(k: Key, tid: Tid, slot: Slot, parent: Node, byte: Byte, prefix: seq<Byte>, length: nat, kByte: Byte,
                 oldByte: Byte, item: Item, ptr: TinyPtr, ghost p: Key, ghost r: Key, ghost t: Target)
      returns (ok: bool)
      requires Valid() && Insertable(v, k) && loadKey(tid) == k && tid != 0
      requires SplitPoint(tables.store, v, k, p, parent, r, t) && FrontOf(prefix, length, p, r)
      requires |p| < |k| && |r| < |k| && byte == k[|p|] && kByte == k[|r|] && oldByte == TargetPath(t)[|r|]
      requires kByte != oldByte
      requires slot in tables.store && tables.store[slot] == Inner(parent) && slot == v.inner[p]
      requires WellFormed(parent.body) && Child(parent.body, byte) == ptr != Null
      requires MovedTarget(tables.store, v, t, r, item)
      requires PointsTo(tables, ptr, idHash(parent.id, byte), TargetSlot(v, t))
      requires TargetSlot(v, t) in tables.store && TargetSlot(v, t) !in Pending()
      modifies this, tables.Repr(), epoche, epoche.list
      ensures Valid() && Outcome(k, tid, ok)
    {
      hide DerefTable.Valid, ArtDerefTables.NoRoom, AgreeAll, DeletionList.Valid, TreeOk, PendingOk, KindsMatch,
           Entries, Slots, SetOf, ShapeOk, PrefixFree, ChildSet, Compressed, Child, SplitPoint, WellFormed,
           TargetSlot, NodeChildSet, MovedTarget, ArtReady.Outcome, Goes, Needs, Retired, Served, WithEntry;
      ghost var st, a := tables.store, Now();
      ghost var lost, sR, nR, sK, ptrK, sT, ptrT, u, ptrR, id;
      ok, lost, sR, nR, sK, ptrK, sT, ptrT, u, ptrR, id :=
        WriteSplit(tables, idHash, slot, parent, byte, prefix, length, kByte, tid, oldByte, item);
      ghost var w, needs := Parting(p, r, id), [Need(idHash(parent.id, byte), N4_TAG), Need(idHash(id, kByte), LEAF),
                                                Need(idHash(id, oldByte), TagOf(item))];
      WayParting(idHash, st, v, k, p, parent, r, t, item, id);
      if ok {
        FrontCompressed(nR, prefix, length, p, r);
        ghost var y := Splitting(p, k, tid, r, sR, nR, sK, ptrK, sT, item, ptrT, u, ptrR);
        SplitReady(Environment(), st, v, Pending(), leaked, t, parent, y);
        Commit(SplitView(v, y), st, ptr, idHash(parent.id, byte), a, k, tid, w, needs);
      } else {
        Lose(st, lost, a, k, tid, w, needs);
      }
    }

    /** The key leaves the path of a node inside its prefix: a new node takes the front of the prefix. */
    method SplitPrefix(k: Key, tid: Tid, x: Place, level: nat, byte: Byte, rest: seq<Byte>) returns (ok: bool)
      requires Valid() && Insertable(v, k) && loadKey(tid) == k && tid != 0
      requires At(tables.store, v, k, x) && x.path != [] && x.level <= level && PartsAt(x.path, k, level, byte, rest)
      modifies this, tables.Repr(), epoche, epoche.list
      ensures Valid() && Outcome(k, tid, ok)
    {
      hide Valid, DerefTable.Valid, ArtDerefTables.NoRoom, AgreeAll, ShapeOk, PrefixFree, Compressed, Child,
           WellFormed;
      ReplaceNode(k, x);
      PrefixSplitPoint(Environment(), tables.store, v, k, x, level, byte, rest);
      PrefixSplitPieces(tables.store, v, k, x, level, byte, rest);
      var item := Inner(SetPrefix(x.node, rest, x.node.prefixLength - (level - x.level + 1)));
      ok := Split(k, tid, x.parentSlot, x.parent, x.byte, x.node.prefix, level - x.level, k[level], byte, item, x.ptr,
                  x.up, k[..level], ToInner(x.path));
    }

    /** The byte where two keys of the universe part; they agree up to n. */
    method CommonPrefix(k: Key, key: Key, n: nat) returns (m: nat)
      requires Insertable(v, k) && key in v.keys && n <= |k| && n <= |key| && k[..n] == key[..n]
      ensures n <= m < |k| && m < |key| && k[..m] == key[..m] && k[m] != key[m]
    {
      hide ShapeOk, PrefixFree;
      m := n;
      KeysGoOn(v, k, key, m);
      while key[m] == k[m]
        invariant n <= m < |k| && m < |key| && k[..m] == key[..m]
        decreases |k| - m
      {
        assert k[..m + 1] == k[..m] + [k[m]] && key[..m + 1] == key[..m] + [key[m]];
        m := m + 1;
        KeysGoOn(v, k, key, m);
      }
    }

    /** The edge the key would take holds a leaf: a new node takes both where their keys part. */
    method SplitLeaf(k: Key, tid: Tid, x: Place, level: nat, b: Byte, ptr: TinyPtr) returns (ok: bool)
      requires Valid() && Insertable(v, k) && loadKey(tid) == k && tid != 0
      requires At(tables.store, v, k, x) && Under(x.path, b, k)
      requires Edge(x.path, b) in v.edges && v.edges[Edge(x.path, b)].ToLeaf? && Child(x.node.body, b) == ptr
      requires level == |x.path| + 1
      modifies this, tables.Repr(), epoche, epoche.list
      ensures Valid() && Outcome(k, tid, ok)
    {
      hide DerefTable.Valid, ArtDerefTables.NoRoom, AgreeAll, DeletionList.Valid, TreeOk, PendingOk, KindsMatch,
           Entries, Slots, SetOf, ShapeOk, PrefixFree, Child, WellFormed, Insertable;
      ghost var t := v.edges[Edge(x.path, b)];
      LeafBelow(k, x, b, ptr, t.key);
      var leaf := tables.Read(tables.Locate(ptr, idHash(x.node.id, b)));
      var key := loadKey(leaf.tid);
      var n := CommonPrefix(k, key, level);
      LeafSplitPoint(Environment(), tables.store, v, k, x.path, x.node, key, n);
      ok := Split(k, tid, x.slot, x.node, b, k[level..], n - level, k[n], key[n], Leaf(leaf.tid), ptr, x.path, k[..n],
                  t);
    }

    /** What the edge to a leaf says about it. */
    lemma LeafBelow(k: Key, x: Place, b: Byte, ptr: TinyPtr, key: Key)
      requires Valid() && Insertable(v, k)
      requires At(tables.store, v, k, x) && Under(x.path, b, k)
      requires Edge(x.path, b) in v.edges && v.edges[Edge(x.path, b)] == ToLeaf(key) && Child(x.node.body, b) == ptr
      ensures ptr != Null && ptr.Ptr? && ptr.special < 4 && tables.Wired() && WellFormed(x.node.body)
      ensures x.slot in tables.store && tables.store[x.slot] == Inner(x.node)
      ensures key in v.keys && TargetSlot(v, ToLeaf(key)) == tables.Locate(ptr, idHash(x.node.id, b))
      ensures var s := tables.Locate(ptr, idHash(x.node.id, b));
              s in tables.store && s !in Pending() && tables.store[s] == Leaf(v.keys[key])
              && loadKey(v.keys[key]) == key
      ensures |x.path| + 1 <= |key| && k[..|x.path| + 1] == key[..|x.path| + 1]
    {
      hide DerefTable.Valid, ArtDerefTables.NoRoom, AgreeAll, DeletionList.Valid, PendingOk, Entries, Slots, SetOf,
           PrefixFree, At, Physical, Child, WellFormed, ShapeOk, Kinds, Conserved, KindsMatch, Under;
      LeafEdge(Environment(), tables.store, v, Pending(), leaked, k, x, b, key);
    }

    /** What the edge above a node to be replaced says about it. */
    lemma NotRootWhenFull(k: Key, x: Place)
      requires Valid() && Insertable(v, k) && At(tables.store, v, k, x) && IsFull(x.node.body)
      ensures x.path != []
      ensures ReplaceFacts(k, x)
    {
      FullIsNotRoot(Environment(), tables.store, v, x);
      ReplaceNode(k, x);
    }

    /** The old node is live, in the tree, reached by the pointer in its parent, and not the root. */
    ghost predicate ReplaceFacts(k: Key, x: Place)
      reads this, epoche, epoche.list, tables.Repr()
    {
      && x.parentSlot in tables.store && tables.store[x.parentSlot] == Inner(x.parent) && WellFormed(x.parent.body)
      && Child(x.parent.body, x.byte) != Null && x.ptr.Ptr? && x.ptr.special < 4
      && tables.Wired() && tables.Locate(x.ptr, idHash(x.parent.id, x.byte)) == x.slot
      && x.slot in tables.store && x.slot !in Pending() && WellFormed(x.node.body)
      && |x.node.prefix| == MAX_STORED_PREFIX
    }

    lemma ReplaceNode(k: Key, x: Place)
      requires Valid() && At(tables.store, v, k, x) && x.path != []
      ensures ReplaceFacts(k, x)
    {
      hide DerefTable.Valid, ArtDerefTables.NoRoom, AgreeAll, DeletionList.Valid, PendingOk, Entries, Slots, SetOf,
           ShapeOk, PrefixFree, Physical, Compressed, Child;
      Follow(Environment(), tables.store, v, x.up, x.byte);
      InUse(tables.store, v, Pending(), leaked, x.path);
    }
  }

  lemma TheWay(tables: ArtDerefTables, idHash: IdHash, a: Moment, b: Moment, k: Key, tid: Tid, ok: bool)
    returns (w: Way)
    requires ArtReady.Outcome(tables, idHash, a, b, k, tid, ok)
    ensures Took(tables, idHash, a, b, k, tid, ok, w)
  {
    hide Took;
    w :| Took(tables, idHash, a, b, k, tid, ok, w);
  }

  lemma InUse(store: Store, v: View, pending: set<Slot>, leaked: set<Slot>, p: Key)
    requires Conserved(store, v, pending, leaked) && p in v.inner
    ensures v.inner[p] in store && v.inner[p] !in pending
  {
    InnerUsed(v, p);
  }

  lemma LeafInUse(store: Store, v: View, pending: set<Slot>, leaked: set<Slot>, k: Key)
    requires Conserved(store, v, pending, leaked) && k in v.leaves
    ensures v.leaves[k] in store && v.leaves[k] !in pending
  {
    assert v.leaves[k] in Used(v);
  }

  lemma LeafEdge(env: Env, store: Store, v: View, pending: set<Slot>, leaked: set<Slot>, k: Key, x: Place, b: Byte,
                 key: Key)
    requires Physical(env, store, v) && KindsMatch(store) && ShapeOk(v.keys.Keys, v.inner.Keys, v.edges)
    requires Conserved(store, v, pending, leaked) && At(store, v, k, x) && Under(x.path, b, k)
    requires Edge(x.path, b) in v.edges && v.edges[Edge(x.path, b)] == ToLeaf(key)
    ensures var ptr := Child(x.node.body, b);
            && ptr.Ptr? && ptr.special < 4 && env.tables.Wired() && WellFormed(x.node.body)
            && x.slot in store && store[x.slot] == Inner(x.node) && key in v.keys
            && var s := env.tables.Locate(ptr, env.idHash(x.node.id, b));
               && TargetSlot(v, ToLeaf(key)) == s && s in store && s !in pending
               && store[s] == Leaf(v.keys[key]) && env.loadKey(v.keys[key]) == key
    ensures |x.path| < |key| && key[..|x.path| + 1] == k[..|x.path| + 1]
  {
    hide Physical, ShapeOk, KindsMatch, Conserved, Child, WellFormed, Compressed;
    Follow(env, store, v, x.path, b);
    LeafKept(v, env, store, key);
    LeafInUse(store, v, pending, leaked, key);
    LeafUnder(v, x.path, b, key, k);
  }

  lemma LeafKept(v: View, env: Env, store: Store, key: Key)
    requires Physical(env, store, v) && key in v.keys
    ensures key in v.leaves
  {
  }

  lemma LeafUnder(v: View, p: Key, b: Byte, key: Key, k: Key)
    requires ShapeOk(v.keys.Keys, v.inner.Keys, v.edges) && Edge(p, b) in v.edges && v.edges[Edge(p, b)] == ToLeaf(key)
    requires Under(p, b, k)
    ensures |p| < |key| && key[..|p| + 1] == k[..|p| + 1]
  {
    assert TargetOk(v.keys.Keys, v.inner.Keys, Edge(p, b), ToLeaf(key));
    OneByteFurther(p, b, key, k);
  }

  /** Freeing slots that wait to be freed leaves the tree as it is. */
  lemma AfterCleanup(env: Env, st: Store, st': Store, v: View, pending: set<Slot>, leaked: set<Slot>, freed: set<Slot>)
    requires TreeOk(env, st, v, pending, leaked) && st' == st - freed && freed <= pending
    ensures TreeOk(env, st', v, pending - freed, leaked)
  {
    hide ShapeOk, PrefixFree, Physical, Kinds, Used;
    OutsideSlots(env, st, st', v);
  }

  lemma GoesOn(v: View, store: Store, k: Key, x: Place)
    requires Insertable(v, k) && At(store, v, k, x) && Prefix(x.path, k)
    ensures |x.path| < |k|
  {
    KeyBeyondInner(v.keys.Keys, v.inner.Keys, x.path, k);
  }

  /** What the pointer under the next byte of the key says about the edge there. */
  lemma EdgeHere(env: Env, store: Store, v: View, k: Key, x: Place, b: Byte)
    requires Physical(env, store, v) && KindsMatch(store) && At(store, v, k, x)
    requires Prefix(x.path, k) && |x.path| < |k| && b == k[|x.path|]
    ensures Under(x.path, b, k)
    ensures var ptr, e := Child(x.node.body, b), Edge(x.path, b);
            && (ptr == Null <==> e !in v.edges)
            && (e in v.edges ==>
                  && env.tables.Wired() && ptr.Ptr? && ptr.special < 4 && (ptr.special == LEAF <==> v.edges[e].ToLeaf?)
                  && env.tables.Locate(ptr, env.idHash(x.node.id, b)) in store
                  && (v.edges[e].ToInner? ==> store[env.tables.Locate(ptr, env.idHash(x.node.id, b))].Inner?))
  {
    hide Physical, KindsMatch, Child, WellFormed, Compressed;
    Follow(env, store, v, x.path, b);
  }

  lemma InsertDescends(env: Env, store: Store, v: View, k: Key, x: Place, x': Place)
    requires Physical(env, store, v) && KindsMatch(store) && Insertable(v, k) && At(store, v, k, x)
    requires var b := x'.byte;
             && Under(x.path, b, k) && Edge(x.path, b) in v.edges && v.edges[Edge(x.path, b)].ToInner?
             && x'.ptr == Child(x.node.body, b) && x'.parentSlot == x.slot && x'.parent == x.node
             && x'.ptr.Ptr? && x'.ptr.special < 4 && env.tables.Wired()
             && x'.slot == env.tables.Locate(x'.ptr, env.idHash(x.node.id, b)) && x'.slot in store
             && store[x'.slot] == Inner(x'.node) && x'.level == |x.path| + 1
             && x'.up == x.path && x'.path == v.edges[Edge(x.path, b)].path
    ensures At(store, v, k, x') && Deeper(v, x'.path) < Deeper(v, x.path)
  {
    var e := Edge(x.path, x'.byte);
    hide Physical, KindsMatch, Child, WellFormed, PrefixFree, InnerOk;
    Follow(env, store, v, x.path, x'.byte);
    assert TargetOk(v.keys.Keys, v.inner.Keys, e, v.edges[e]);
    assert Under(x.path, x'.byte, x'.path);
    OneByteFurther(x.path, x'.byte, x'.path, k);
    DeeperShrinks(v, x.path, x'.path);
  }

  lemma NotPending(s: seq<Slot>, x: Slot)
    requires x !in SetOf(s)
    ensures x !in s
  {
  }

  lemma SetOfInserted(s: seq<Slot>, at: nat, x: Slot)
    requires at <= |s|
    ensures SetOf(Inserted(s, at, x)) == SetOf(s) + {x}
  {
  }

  lemma PendingOkGrows(t: ArtDerefTables, es: seq<PendingDelete>, st: Store, st': Store)
    requires PendingOk(t, es, st) && st.Keys <= st'.Keys
    ensures PendingOk(t, es, st')
  {
  }
}
