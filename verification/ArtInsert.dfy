/** The walk of an insert: prefixes are compared in full, and it ends where the new key leaves the tree. */
module ArtInsert {
  import opened Wrappers
  import opened Primes
  import opened TinyPtrs
  import opened DerefTables
  import opened Bytes
  import opened ArtShape
  import opened ArtNodes
  import opened ArtTables
  import opened ArtPhysical
  import opened ArtInvariant
  import opened ArtLookup

  /** A key to be inserted: new, of a prefix-free universe. */
  ghost predicate Insertable(v: View, k: Key) {
    ShapeOk(v.keys.Keys, v.inner.Keys, v.edges) && PrefixFree(v.keys.Keys + {k}) && k !in v.keys
  }

  /** The node an insert has come to: its slot, its path, and the pointer in its parent that led there. */
  datatype Place = Place(slot: Slot, node: Node, ptr: TinyPtr, parentSlot: Slot, parent: Node, byte: Byte, level: nat,
                         ghost up: Key, ghost path: Key)

  ghost predicate At(store: Store, v: View, k: Key, x: Place) {
    && x.path in v.inner && x.slot == v.inner[x.path] && NodeAt(store, v, x.path) && x.node == NodeOf(store, v, x.path)
    && x.level <= |k| && x.level <= |x.path| && x.node.prefixLength == |x.path| - x.level
    && Prefix(x.path[..x.level], k)
    && (x.path != [] ==>
          && x.up in v.inner && x.parentSlot == v.inner[x.up] && NodeAt(store, v, x.up)
          && x.parent == NodeOf(store, v, x.up)
          && Edge(x.up, x.byte) in v.edges && v.edges[Edge(x.up, x.byte)] == ToInner(x.path)
          && Child(x.parent.body, x.byte) == x.ptr && Under(x.up, x.byte, k) && x.level == |x.up| + 1
          && Compressed(x.node, x.up, x.path))
  }

  // ----- some key below a node

  lemma HasChild(env: Env, store: Store, v: View, p: Key)
    requires Physical(env, store, v) && KindsMatch(store) && ShapeOk(v.keys.Keys, v.inner.Keys, v.edges)
    requires p in v.inner && p != []
    ensures NodeAt(store, v, p) && exists b :: Child(NodeOf(store, v, p).body, b) != Null
  {
    var b, c := TwoChildren(v.keys.Keys, v.inner.Keys, v.edges, p);
    hide Physical, ShapeOk;
    Follow(env, store, v, p, b);
  }

  /** Whatever child is taken, its path or key extends the path of the node. */
  lemma ChildExtends(v: View, p: Key, q: Key, b: Byte)
    requires ShapeOk(v.keys.Keys, v.inner.Keys, v.edges) && Prefix(p, q) && Edge(q, b) in v.edges
    ensures q in v.inner && Prefix(p, TargetPath(v.edges[Edge(q, b)])) && |q| < |TargetPath(v.edges[Edge(q, b)])|
  {
    var t := v.edges[Edge(q, b)];
    assert TargetOk(v.keys.Keys, v.inner.Keys, Edge(q, b), t);
    assert Prefix(q, TargetPath(t));
    PrefixTrans(p, q, TargetPath(t));
  }

  /** The value of some leaf below the node at p; its key starts with p. */
  method GetAnyChildTid(tables: ArtDerefTables, env: Env, ghost v: View, n: Node, ghost p: Key) returns (tid: Tid)
    requires env.tables == tables && tables.Valid() && tables.Wired() && KindsMatch(tables.store)
    requires Physical(env, tables.store, v) && ShapeOk(v.keys.Keys, v.inner.Keys, v.edges)
    requires p in v.inner && p != [] && NodeAt(tables.store, v, p) && n == NodeOf(tables.store, v, p)
    requires WellFormed(n.body)
    ensures env.loadKey(tid) in v.keys && Prefix(p, env.loadKey(tid))
  {
    hide DerefTable.Valid, AgreeAll, KindsMatch, ShapeOk, Physical, NodeAt, NodeOf, WellFormed, Child, Compressed,
         TargetSlot;
    var node := n;
    ghost var q := p;
    while true
      invariant q in v.inner && q != [] && Prefix(p, q)
      invariant NodeAt(tables.store, v, q) && node == NodeOf(tables.store, v, q) && WellFormed(node.body)
      decreases Deeper(v, q)
    {
      HasChild(env, tables.store, v, q);
      var ptr, b := GetAnyChild(node.body);
      Follow(env, tables.store, v, q, b);
      ChildExtends(v, p, q, b);
      var x := tables.Read(tables.Locate(ptr, env.idHash(node.id, b)));
      if ptr.special == LEAF {
        return x.tid;
      }
      DeeperShrinks(v, q, v.edges[Edge(q, b)].path);
      node, q := x.node, v.edges[Edge(q, b)].path;
    }
  }

  // ----- the full prefix check

  lemma KeyGoesOn(v: View, p: Key, k: Key, level: nat)
    requires Insertable(v, k) && p in v.inner && level <= |p| && level <= |k| && Prefix(p[..level], k)
    ensures level < |k|
  {
    if level == |k| && p != [] {
      assert k == p[..level];
      var a, b := BelowInner(v.keys.Keys, v.inner.Keys, p);
      PrefixTrans(k, p, a);
    }
    if p == [] {
      assert k in v.keys.Keys + {k};
    }
  }

  /** Where the path of a node and a key part, and what is left of the path behind that byte, as far as it is stored. */
  ghost predicate PartsAt(p: Key, k: Key, level: nat, byte: Byte, rest: seq<Byte>) {
    && level < |p| && level < |k| && p[..level] == k[..level] && p[level] == byte != k[level]
    && |rest| == MAX_STORED_PREFIX
    && forall i | 0 <= i < Min(|p| - level - 1, MAX_STORED_PREFIX) :: rest[i] == p[level + 1 + i]
  }

  function CopyRest(s: seq<Byte>, from: nat, len: nat): (r: seq<Byte>)
    requires len <= MAX_STORED_PREFIX && from + len <= |s|
    ensures |r| == MAX_STORED_PREFIX && forall i | 0 <= i < len :: r[i] == s[from + i]
  {
    seq(MAX_STORED_PREFIX, i => if 0 <= i < len then s[from + i] else 0)
  }

  /** Byte i of a prefix: stored, or taken from a key below the node. */
  lemma PrefixByte(x: Place, kt: Key, i: nat)
    requires x.path != [] && Compressed(x.node, x.up, x.path) && x.level == |x.up| + 1 && i < x.node.prefixLength
    requires i >= MAX_STORED_PREFIX ==> Prefix(x.path, kt)
    ensures x.level + i < |x.path|
    ensures i < MAX_STORED_PREFIX ==> x.node.prefix[i] == x.path[x.level + i]
    ensures i >= MAX_STORED_PREFIX ==> |kt| >= |x.path| && kt[x.level + i] == x.path[x.level + i]
  {
  }

  /** The bytes behind position i of the prefix, as far as they will be stored. */
  method RestOfPrefix(tables: ArtDerefTables, env: Env, ghost v: View, x: Place, key: Key, i: nat)
    returns (rest: seq<Byte>)
    requires env.tables == tables && tables.Valid() && tables.Wired() && KindsMatch(tables.store)
    requires Physical(env, tables.store, v) && ShapeOk(v.keys.Keys, v.inner.Keys, v.edges)
    requires x.path in v.inner && x.path != [] && NodeAt(tables.store, v, x.path)
    requires x.node == NodeOf(tables.store, v, x.path) && WellFormed(x.node.body)
    requires Compressed(x.node, x.up, x.path) && x.level == |x.up| + 1 && i < x.node.prefixLength
    requires i >= MAX_STORED_PREFIX ==> Prefix(x.path, key)
    ensures |rest| == MAX_STORED_PREFIX
    ensures forall j | 0 <= j < Min(x.node.prefixLength - i - 1, MAX_STORED_PREFIX) ::
              x.level + i + 1 + j < |x.path| && rest[j] == x.path[x.level + i + 1 + j]
  {
    hide DerefTable.Valid, AgreeAll, KindsMatch, ShapeOk, Physical, WellFormed, Child, TargetSlot, NodeAt, NodeOf;
    if x.node.prefixLength > MAX_STORED_PREFIX {
      var kt := key;
      if i < MAX_STORED_PREFIX {
        var tid := GetAnyChildTid(tables, env, v, x.node, x.path);
        kt := env.loadKey(tid);
      }
      rest := CopyRest(kt, x.level + i + 1, Min(x.node.prefixLength - i - 1, MAX_STORED_PREFIX));
    } else {
      rest := CopyRest(x.node.prefix, i + 1, x.node.prefixLength - i - 1);
    }
  }

  method CheckPrefixPessimistic(tables: ArtDerefTables, env: Env, ghost v: View, x: Place, k: Key)
    returns (matches: bool, level: nat, byte: Byte, rest: seq<Byte>)
    requires env.tables == tables && tables.Valid() && tables.Wired() && KindsMatch(tables.store)
    requires Physical(env, tables.store, v) && Insertable(v, k) && At(tables.store, v, k, x)
    ensures matches ==> level == |x.path| && Prefix(x.path, k)
    ensures !matches ==> x.path != [] && x.level <= level && PartsAt(x.path, k, level, byte, rest)
  {
    hide DerefTable.Valid, AgreeAll, KindsMatch, ShapeOk, PrefixFree, Physical, WellFormed, Child, TargetSlot;
    level, byte, rest := x.level, 0, [];
    var kt: Key := [];
    var i := 0;
    while i < x.node.prefixLength
      invariant i <= x.node.prefixLength && level == x.level + i
      invariant level <= |k| && Prefix(x.path[..level], k)
      invariant i > MAX_STORED_PREFIX ==> Prefix(x.path, kt)
    {
      if i == MAX_STORED_PREFIX {
        var tid := GetAnyChildTid(tables, env, v, x.node, x.path);
        kt := env.loadKey(tid);
      }
      PrefixByte(x, kt, i);
      KeyGoesOn(v, x.path, k, level);
      var cur := if i >= MAX_STORED_PREFIX then kt[level] else x.node.prefix[i];
      if cur != k[level] {
        rest := RestOfPrefix(tables, env, v, x, kt, i);
        return false, level, cur, rest;
      }
      level := level + 1;
      i := i + 1;
    }
    return true, level, byte, rest;
  }

  // ----- what an insert writes

  /** Slots taken before an allocation failed; they stay live and unused. */
  ghost predicate Lost(before: Store, after: Store, lost: set<Slot>) {
    && after.Keys == before.Keys + lost && lost !! before.Keys
    && forall s | s in before :: after[s] == before[s]
  }

  /** An item to be allocated: the hashes of its edge, and its kind. */
  datatype Need = Need(hashes: Hashes, tag: nat)

  /** Need number i finds both its candidate buckets full, with one slot taken for each need before it. */
  ghost predicate Starves(tables: ArtDerefTables, before: set<Slot>, after: set<Slot>, needs: seq<Need>, i: nat)
    requires tables.Wired()
  {
    && i < |needs| && before <= after && |after - before| == i
    && tables.NoRoom(needs[i].hashes, needs[i].tag, after)
    && forall j | 0 <= j < i :: !tables.NoRoom(needs[j].hashes, needs[j].tag, before)
  }

  /** Either all needs are met, and there was room for each, or one of them starves. */
  ghost predicate Served(tables: ArtDerefTables, before: set<Slot>, after: set<Slot>, needs: seq<Need>, ok: bool)
    requires tables.Wired()
  {
    if ok then forall x | x in needs :: !tables.NoRoom(x.hashes, x.tag, before)
    else exists i :: Starves(tables, before, after, needs, i)
  }

  lemma StillNoRoom(tables: ArtDerefTables, h: Hashes, tag: nat, used: set<Slot>, more: set<Slot>)
    requires tables.Wired() && tables.NoRoom(h, tag, used) && used <= more
    ensures tables.NoRoom(h, tag, more)
  {
  }

  lemma RoomBefore(tables: ArtDerefTables, h: Hashes, tag: nat, used: set<Slot>, more: set<Slot>)
    requires tables.Wired() && !tables.NoRoom(h, tag, more) && used <= more
    ensures !tables.NoRoom(h, tag, used)
  {
    if tables.NoRoom(h, tag, used) {
      StillNoRoom(tables, h, tag, used, more);
    }
  }

  lemma OneMoreNeed(tables: ArtDerefTables, before: set<Slot>, after: set<Slot>, needs: seq<Need>, x: Need)
    requires tables.Wired() && Served(tables, before, after, needs, false)
    ensures Served(tables, before, after, needs + [x], false)
  {
    var i :| Starves(tables, before, after, needs, i);
    assert Starves(tables, before, after, needs + [x], i);
  }

  lemma NothingNeeded(tables: ArtDerefTables, used: set<Slot>)
    requires tables.Wired()
    ensures Served(tables, used, used, [], true)
  {
  }

  lemma OneServed(tables: ArtDerefTables, before: set<Slot>, after: set<Slot>, x: Need)
    requires tables.Wired() && !tables.NoRoom(x.hashes, x.tag, before)
    ensures Served(tables, before, after, [x], true)
  {
  }

  lemma ServedAnyway(tables: ArtDerefTables, before: set<Slot>, after: set<Slot>, more: set<Slot>, needs: seq<Need>)
    requires tables.Wired() && Served(tables, before, after, needs, true)
    ensures Served(tables, before, more, needs, true)
  {
  }

  lemma OneMoreServed(tables: ArtDerefTables, before: set<Slot>, after: set<Slot>, more: set<Slot>, needs: seq<Need>,
                      x: Need)
    requires tables.Wired() && Served(tables, before, after, needs, true)
    requires !tables.NoRoom(x.hashes, x.tag, after) && before <= after
    ensures Served(tables, before, more, needs + [x], true)
  {
    RoomBefore(tables, x.hashes, x.tag, before, after);
  }

  lemma NextStarves(tables: ArtDerefTables, before: set<Slot>, lost: set<Slot>, after: set<Slot>, needs: seq<Need>,
                    x: Need)
    requires tables.Wired() && Served(tables, before, after, needs, true) && lost !! before && after == before + lost
    requires |lost| == |needs| && tables.NoRoom(x.hashes, x.tag, after)
    ensures Served(tables, before, after, needs + [x], false)
  {
    forall j | 0 <= j < |needs| ensures !tables.NoRoom(needs[j].hashes, needs[j].tag, before) {
      assert needs[j] in needs;
    }
    StarvesAt(tables, before, lost, needs + [x], |needs|);
  }

  lemma FirstStarves(tables: ArtDerefTables, used: set<Slot>, x: Need)
    requires tables.Wired() && tables.NoRoom(x.hashes, x.tag, used)
    ensures Served(tables, used, used, [x], false)
  {
    assert used + {} == used;
    StarvesAt(tables, used, {}, [x], 0);
  }

  lemma StarvesAt(tables: ArtDerefTables, before: set<Slot>, lost: set<Slot>, needs: seq<Need>, i: nat)
    requires tables.Wired() && i < |needs| && lost !! before && |lost| == i
    requires tables.NoRoom(needs[i].hashes, needs[i].tag, before + lost)
    requires forall j | 0 <= j < i :: !tables.NoRoom(needs[j].hashes, needs[j].tag, before)
    ensures Served(tables, before, before + lost, needs, false)
  {
    assert before + lost - before == lost;
    assert Starves(tables, before, before + lost, needs, i);
  }

  /** A leaf under a free byte of a node with room. */
  method WritePlain(tables: ArtDerefTables, idHash: IdHash, s: Slot, n: Node, b: Byte, tid: Tid)
    returns (ok: bool, ghost sK: Slot, ghost ptr: TinyPtr, ghost n': Node)
    requires tables.Valid() && tables.Wired() && s in tables.store && tables.store[s] == Inner(n)
    requires WellFormed(n.body) && !IsFull(n.body) && Child(n.body, b) == Null
    modifies tables.Repr()
    ensures tables.Valid()
    ensures Served(tables, old(tables.store).Keys, tables.store.Keys, [Need(idHash(n.id, b), LEAF)], ok)
    ensures !ok ==> tables.store == old(tables.store)
    ensures ok ==> sK !in old(tables.store) && tables.store == old(tables.store)[sK := Leaf(tid)][s := Inner(n')]
    ensures ok ==> NodeChildSet(n, n', b, ptr) && n'.body.count == (n.body.count + 1) % 256
    ensures ok ==> PointsTo(tables, ptr, idHash(n.id, b), sK)
  {
    hide WellFormed, Child, DerefTable.Valid, AgreeAll, ArtDerefTables.NoRoom, Served;
    sK, ptr, n' := s, Null, n;
    var r := tables.CreateLeaf(idHash(n.id, b), Leaf(tid));
    if r.None? {
      FirstStarves(tables, tables.store.Keys, Need(idHash(n.id, b), LEAF));
      return false, sK, ptr, n';
    }
    var body := Insert(n.body, b, r.value);
    tables.Write(s, Inner(n.(body := body)));
    OneServed(tables, old(tables.store).Keys, tables.store.Keys, Need(idHash(n.id, b), LEAF));
    return true, tables.Locate(r.value, idHash(n.id, b)), r.value, n.(body := body);
  }

  /** Allocate an item in the table of its kind. */
  method Allocate(tables: ArtDerefTables, h: Hashes, item: Item) returns (r: Option<TinyPtr>)
    requires tables.Valid() && tables.Wired()
    modifies tables.Repr()
    ensures tables.Valid() && tables.Allocated(old(tables.store), h, item, r, tables.store)
  {
    if item.Leaf? {
      r := tables.CreateLeaf(h, item);
    } else {
      r := tables.CreateNode(h, item);
    }
  }

  /** Where an allocated pointer points. */
  ghost predicate PointsTo(tables: ArtDerefTables, p: TinyPtr, h: Hashes, s: Slot) {
    tables.Wired() && p.Ptr? && p.special < 4 && tables.Locate(p, h) == s
  }

  /** The next need of several; those before it have been met. */
  method AllocateNext(tables: ArtDerefTables, h: Hashes, x: Item, ghost before: set<Slot>, ghost lost: set<Slot>,
                      ghost needs: seq<Need>)
    returns (ok: bool, s: Slot, p: TinyPtr)
    requires tables.Valid() && tables.Wired() && tables.store.Keys == before + lost && lost !! before
    requires |lost| == |needs| && Served(tables, before, tables.store.Keys, needs, true)
    modifies tables.Repr()
    ensures tables.Valid()
    ensures Served(tables, before, tables.store.Keys, needs + [Need(h, TagOf(x))], ok)
    ensures if ok then s !in old(tables.store) && tables.store == old(tables.store)[s := x]
                       && PointsTo(tables, p, h, s) && s.table == TagOf(x)
            else tables.store == old(tables.store)
  {
    hide DerefTable.Valid, AgreeAll, ArtDerefTables.NoRoom, Served;
    ghost var middle := tables.store.Keys;
    var r := Allocate(tables, h, x);
    if r.None? {
      NextStarves(tables, before, lost, tables.store.Keys, needs, Need(h, TagOf(x)));
      return false, Slot(LEAF, 0, 0), Null;
    }
    OneMoreServed(tables, before, middle, tables.store.Keys, needs, Need(h, TagOf(x)));
    return true, tables.Locate(r.value, h), r.value;
  }

  method AllocateFirst(tables: ArtDerefTables, h: Hashes, x: Item) returns (ok: bool, s: Slot, p: TinyPtr)
    requires tables.Valid() && tables.Wired()
    modifies tables.Repr()
    ensures tables.Valid()
    ensures Served(tables, old(tables.store).Keys, tables.store.Keys, [Need(h, TagOf(x))], ok)
    ensures if ok then s !in old(tables.store) && tables.store == old(tables.store)[s := x]
                       && PointsTo(tables, p, h, s) && s.table == TagOf(x)
            else tables.store == old(tables.store)
  {
    hide DerefTable.Valid, AgreeAll, ArtDerefTables.NoRoom, Served;
    NothingNeeded(tables, tables.store.Keys);
    assert [] + [Need(h, TagOf(x))] == [Need(h, TagOf(x))];
    ok, s, p := AllocateNext(tables, h, x, tables.store.Keys, {}, []);
  }

  method AllocateTwo(tables: ArtDerefTables, h1: Hashes, x1: Item, h2: Hashes, x2: Item)
    returns (ok: bool, ghost lost: set<Slot>, s1: Slot, p1: TinyPtr, s2: Slot, p2: TinyPtr)
    requires tables.Valid() && tables.Wired()
    modifies tables.Repr()
    ensures tables.Valid()
    ensures !ok ==> Lost(old(tables.store), tables.store, lost)
    ensures Served(tables, old(tables.store).Keys, tables.store.Keys, [Need(h1, TagOf(x1)), Need(h2, TagOf(x2))], ok)
    ensures ok ==> s1 !in old(tables.store) && s2 !in old(tables.store) && s1 != s2
    ensures ok ==> tables.store == old(tables.store)[s1 := x1][s2 := x2]
    ensures ok ==> PointsTo(tables, p1, h1, s1) && PointsTo(tables, p2, h2, s2)
    ensures ok ==> s1.table == TagOf(x1) && s2.table == TagOf(x2)
  {
    hide DerefTable.Valid, AgreeAll, ArtDerefTables.NoRoom, Served;
    lost, s2, p2 := {}, Slot(LEAF, 0, 0), Null;
    ghost var before, one, y := tables.store.Keys, [Need(h1, TagOf(x1))], Need(h2, TagOf(x2));
    assert one + [y] == [Need(h1, TagOf(x1)), y];
    ok, s1, p1 := AllocateFirst(tables, h1, x1);
    if ok {
      lost := {s1};
      ok, s2, p2 := AllocateNext(tables, h2, x2, before, lost, one);
    } else {
      OneMoreNeed(tables, before, tables.store.Keys, one, y);
    }
  }

  method AllocateThree(tables: ArtDerefTables, h1: Hashes, x1: Item, h2: Hashes, x2: Item, h3: Hashes, x3: Item)
    returns (ok: bool, ghost lost: set<Slot>, s1: Slot, p1: TinyPtr, s2: Slot, p2: TinyPtr, s3: Slot, p3: TinyPtr)
    requires tables.Valid() && tables.Wired()
    modifies tables.Repr()
    ensures tables.Valid()
    ensures !ok ==> Lost(old(tables.store), tables.store, lost)
    ensures Served(tables, old(tables.store).Keys, tables.store.Keys,
                   [Need(h1, TagOf(x1)), Need(h2, TagOf(x2)), Need(h3, TagOf(x3))], ok)
    ensures ok ==> s1 !in old(tables.store) && s2 !in old(tables.store) && s3 !in old(tables.store)
    ensures ok ==> s1 != s2 && s1 != s3 && s2 != s3
    ensures ok ==> tables.store == old(tables.store)[s1 := x1][s2 := x2][s3 := x3]
    ensures ok ==> PointsTo(tables, p1, h1, s1) && PointsTo(tables, p2, h2, s2) && PointsTo(tables, p3, h3, s3)
    ensures ok ==> s1.table == TagOf(x1)
  {
    hide DerefTable.Valid, AgreeAll, ArtDerefTables.NoRoom, Served;
    p3, s3 := Null, Slot(LEAF, 0, 0);
    ok, lost, s1, p1, s2, p2 := AllocateTwo(tables, h1, x1, h2, x2);
    ghost var before, two, z :=
      old(tables.store).Keys, [Need(h1, TagOf(x1)), Need(h2, TagOf(x2))], Need(h3, TagOf(x3));
    assert two + [z] == [Need(h1, TagOf(x1)), Need(h2, TagOf(x2)), z];
    if ok {
      lost := {s1, s2};
      ok, s3, p3 := AllocateNext(tables, h3, x3, before, lost, two);
    } else {
      OneMoreNeed(tables, before, tables.store.Keys, two, z);
    }
  }

  /** A full node: a bigger copy with the same id gets the new leaf, and the parent's pointer moves to the copy. */
  method WriteGrowth(tables: ArtDerefTables, idHash: IdHash, n: Node, b: Byte, tid: Tid,
                   sP: Slot, parent: Node, byte: Byte)
    returns (ok: bool, ghost lost: set<Slot>, ghost s: Slot, ghost copy: Node, ghost ptr: TinyPtr, ghost sK: Slot,
             ghost big: Node, ghost ptrK: TinyPtr, ghost u: Node)
    requires tables.Valid() && tables.Wired() && sP in tables.store && tables.store[sP] == Inner(parent)
    requires WellFormed(n.body) && IsFull(n.body) && Child(n.body, b) == Null
    requires WellFormed(parent.body) && Child(parent.body, byte) != Null
    modifies tables.Repr()
    ensures tables.Valid()
    ensures !ok ==> Lost(old(tables.store), tables.store, lost)
    ensures Served(tables, old(tables.store).Keys, tables.store.Keys,
                   [Need(idHash(parent.id, byte), Tag(n.body) + 1), Need(idHash(n.id, b), LEAF)], ok)
    ensures ok ==> s !in old(tables.store) && sK !in old(tables.store) && sK != s
    ensures ok ==> tables.store == old(tables.store)[sP := Inner(u)][sK := Leaf(tid)][s := Inner(big)]
    ensures ok ==> SameHead(n, copy) && WellFormed(copy.body) && Tag(copy.body) == Tag(n.body) + 1
                   && copy.body.count == n.body.count && forall y :: Child(copy.body, y) == Child(n.body, y)
    ensures ok ==> NodeChildSet(copy, big, b, ptrK) && big.body.count == (copy.body.count + 1) % 256
    ensures ok ==> PointsTo(tables, ptrK, idHash(n.id, b), sK)
    ensures ok ==> NodeChildSet(parent, u, byte, ptr) && u.body.count == parent.body.count
    ensures ok ==> PointsTo(tables, ptr, idHash(parent.id, byte), s)
  {
    hide WellFormed, Child, DerefTable.Valid, AgreeAll, ArtDerefTables.NoRoom, Served;
    copy, big, u := n, n, parent;
    var bigger := CopyToBigger(n.body);
    var c := n.(body := bigger);
    var at, p, atK, pK;
    ok, lost, at, p, atK, pK :=
      AllocateTwo(tables, idHash(parent.id, byte), Inner(c), idHash(n.id, b), Leaf(tid));
    ghost var middle := tables.store.Keys;
    s, ptr, sK, ptrK := at, p, atK, pK;
    if ok {
      copy := c;
      big, u := FinishGrowth(tables, at, c, b, pK, sP, parent, byte, p, old(tables.store), atK, tid);
      ServedAnyway(tables, old(tables.store).Keys, middle, tables.store.Keys,
                   [Need(idHash(parent.id, byte), Tag(n.body) + 1), Need(idHash(n.id, b), LEAF)]);
    }
  }

  /** The copy, allocated like the leaf, gets the leaf's pointer, and the parent the copy's. */
  method FinishGrowth(tables: ArtDerefTables, at: Slot, c: Node, b: Byte, pK: TinyPtr, sP: Slot, parent: Node,
                      byte: Byte, p: TinyPtr, ghost st: Store, ghost atK: Slot, ghost tid: Tid)
    returns (ghost big: Node, ghost u: Node)
    requires tables.Valid() && tables.store == st[at := Inner(c)][atK := Leaf(tid)] && at != atK
    requires at !in st && atK !in st && sP in st && st[sP] == Inner(parent) && at.table == Tag(c.body)
    requires WellFormed(c.body) && !IsFull(c.body) && Child(c.body, b) == Null && pK.Ptr?
    requires WellFormed(parent.body) && Child(parent.body, byte) != Null && p.Ptr?
    modifies tables.Repr()
    ensures tables.Valid() && tables.store == st[sP := Inner(u)][atK := Leaf(tid)][at := Inner(big)]
    ensures NodeChildSet(c, big, b, pK) && big.body.count == (c.body.count + 1) % 256
    ensures NodeChildSet(parent, u, byte, p) && u.body.count == parent.body.count
  {
    hide WellFormed, Child, DerefTable.Valid, AgreeAll;
    var grown := Insert(c.body, b, pK);
    var changed := Change(parent.body, byte, p);
    OverwriteLast(st, at, Inner(c), Inner(c.(body := grown)), atK, Leaf(tid), sP, Inner(parent.(body := changed)));
    tables.Write(at, Inner(c.(body := grown)));
    tables.Write(sP, Inner(parent.(body := changed)));
    big, u := c.(body := grown), parent.(body := changed);
  }

  /** Overwrite the prefix of a node; an empty prefix leaves the old bytes behind. */
  function SetPrefix(n: Node, prefix: seq<Byte>, length: nat): (r: Node)
    requires |n.prefix| == MAX_STORED_PREFIX && Min(length, MAX_STORED_PREFIX) <= |prefix|
    ensures r.id == n.id && r.body == n.body && r.prefixLength == length && |r.prefix| == MAX_STORED_PREFIX
    ensures forall i | 0 <= i < Min(length, MAX_STORED_PREFIX) :: r.prefix[i] == prefix[i]
  {
    var m := Min(length, MAX_STORED_PREFIX);
    Node(n.id, length,
         seq(MAX_STORED_PREFIX, i requires 0 <= i < MAX_STORED_PREFIX => if i < m then prefix[i] else n.prefix[i]),
             n.body)
  }

  /** A new N4 with the given prefix, over the new leaf and the old target, which moves with the edge above it. */
  method WriteSplit(tables: ArtDerefTables, idHash: IdHash, sP: Slot, parent: Node, byte: Byte,
                    prefix: seq<Byte>, length: nat, kByte: Byte, tid: Tid, oldByte: Byte, item: Item)
    returns (ok: bool, ghost lost: set<Slot>, ghost sR: Slot, ghost nR: Node, ghost sK: Slot, ghost ptrK: TinyPtr,
             ghost sT: Slot, ghost ptrT: TinyPtr, ghost u: Node, ghost ptrR: TinyPtr, ghost newId: nat)
    requires tables.Valid() && tables.Wired() && sP in tables.store && tables.store[sP] == Inner(parent)
    requires WellFormed(parent.body) && Child(parent.body, byte) != Null
    requires Min(length, MAX_STORED_PREFIX) <= |prefix| && kByte != oldByte
    modifies tables.Repr()
    ensures tables.Valid()
    ensures !ok ==> Lost(old(tables.store), tables.store, lost)
    ensures Served(tables, old(tables.store).Keys, tables.store.Keys,
                   [Need(idHash(parent.id, byte), N4_TAG), Need(idHash(newId, kByte), LEAF),
                    Need(idHash(newId, oldByte), TagOf(item))], ok)
    ensures ok ==> sR !in old(tables.store) && sK !in old(tables.store) && sT !in old(tables.store)
                   && sR != sK && sR != sT && sK != sT
    ensures ok ==> tables.store == old(tables.store)[sR := Inner(nR)][sK := Leaf(tid)][sT := item][sP := Inner(u)]
    ensures ok ==> nR.id == newId && nR.prefixLength == length && |nR.prefix| == MAX_STORED_PREFIX
                   && forall i | 0 <= i < Min(length, MAX_STORED_PREFIX) :: nR.prefix[i] == prefix[i]
    ensures ok ==> WellFormed(nR.body) && nR.body.N4? && nR.body.count == 2
                   && forall y :: Child(nR.body, y) == if y == kByte then ptrK else if y == oldByte then ptrT else Null
    ensures ok ==> PointsTo(tables, ptrK, idHash(nR.id, kByte), sK)
    ensures ok ==> PointsTo(tables, ptrT, idHash(nR.id, oldByte), sT)
    ensures ok ==> NodeChildSet(parent, u, byte, ptrR) && u.body.count == parent.body.count
    ensures ok ==> PointsTo(tables, ptrR, idHash(parent.id, byte), sR)
  {
    hide WellFormed, Child, DerefTable.Valid, AgreeAll, ArtDerefTables.NoRoom, Served;
    nR, u := parent, parent;
    var id: nat := *;
    newId := id;
    var node := SetPrefix(Node(id, 0, Zeros(MAX_STORED_PREFIX, 0), EmptyN4()), prefix, length);
    var at, p, atK, pK, atT, pT;
    ok, lost, at, p, atK, pK, atT, pT :=
      AllocateThree(tables, idHash(parent.id, byte), Inner(node), idHash(id, kByte), Leaf(tid), idHash(id, oldByte),
                    item);
    ghost var middle := tables.store.Keys;
    sR, ptrR, sK, ptrK, sT, ptrT := at, p, atK, pK, atT, pT;
    if ok {
      var body := TwoEntries(kByte, pK, oldByte, pT);
      var changed := Change(parent.body, byte, p);
      OverwriteFirst(old(tables.store), at, Inner(node), Inner(node.(body := body)), atK, Leaf(tid), atT, item);
      tables.Write(at, Inner(node.(body := body)));
      tables.Write(sP, Inner(parent.(body := changed)));
      nR, u := node.(body := body), parent.(body := changed);
      ServedAnyway(tables, old(tables.store).Keys, middle, tables.store.Keys,
                   [Need(idHash(parent.id, byte), N4_TAG), Need(idHash(newId, kByte), LEAF),
                    Need(idHash(newId, oldByte), TagOf(item))]);
    }
  }

  lemma OverwriteFirst(st: Store, s1: Slot, x1: Item, y1: Item, s2: Slot, x2: Item, s3: Slot, x3: Item)
    requires s1 != s2 && s1 != s3
    ensures st[s1 := x1][s2 := x2][s3 := x3][s1 := y1] == st[s1 := y1][s2 := x2][s3 := x3]
  {
  }

  lemma OverwriteLast(st: Store, s1: Slot, x1: Item, y1: Item, s2: Slot, x2: Item, sP: Slot, u: Item)
    requires s1 != s2 && s1 != sP && s2 != sP
    ensures st[s1 := x1][s2 := x2][s1 := y1][sP := u] == st[sP := u][s2 := x2][s1 := y1]
  {
  }

  method TwoEntries(b: Byte, p: TinyPtr, c: Byte, q: TinyPtr) returns (body: Body)
    requires b != c && p.Ptr? && q.Ptr?
    ensures WellFormed(body) && body.N4? && body.count == 2
    ensures forall y :: Child(body, y) == if y == b then p else if y == c then q else Null
  {
    body := Insert(EmptyN4(), b, p);
    body := Insert(body, c, q);
  }
}
