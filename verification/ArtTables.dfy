/** The four tables behind a tree; the special bits of a tiny pointer say which one it belongs to. */
module ArtTables {
  import opened Wrappers
  import opened Primes
  import opened TinyPtrs
  import opened DerefTables
  import opened ArtNodes

  type Tid = nat

  datatype Item = Inner(node: Node) | Leaf(tid: Tid)

  type Store = map<Slot, Item>

  /** One byte: two special bits for the kind, one hash bit, five bits of index. */
  const ART_FORMAT: Format := Format(8, 2)

  function TagOf(x: Item): (tag: nat)
    ensures tag < 4
  {
    match x case Inner(node) => Tag(node.body) case Leaf(_) => LEAF
  }

  /** The part of the store in one table. */
  ghost predicate Agree(part: Store, table: nat, store: Store) {
    && (forall s | s in part :: s.table == table)
    && (forall s: Slot | s.table == table :: s in store <==> s in part)
    && (forall s | s in part :: store[s] == part[s])
  }

  lemma AgreeUpdate(part: Store, table: nat, store: Store, s: Slot, x: Item)
    requires Agree(part, table, store)
    ensures Agree(if s.table == table then part[s := x] else part, table, store[s := x])
    ensures s.table == table ==> (s in store <==> s in part)
  {
  }

  lemma AgreeRemoval(part: Store, table: nat, store: Store, s: Slot)
    requires Agree(part, table, store)
    ensures Agree(if s.table == table then part - {s} else part, table, store - {s})
    ensures s.table == table ==> (s in store <==> s in part)
  {
  }

  ghost predicate AgreeAll(a: Store, b: Store, c: Store, d: Store, store: Store) {
    Agree(a, LEAF, store) && Agree(b, N4_TAG, store) && Agree(c, N16_TAG, store) && Agree(d, N256_TAG, store)
  }

  /** Changing one table changes the store in the same way. */
  lemma UpdateAll(a: Store, b: Store, c: Store, d: Store, store: Store, s: Slot, x: Item)
    requires AgreeAll(a, b, c, d, store)
    ensures s.table == LEAF ==> AgreeAll(a[s := x], b, c, d, store[s := x]) && (s in store <==> s in a)
    ensures s.table == N4_TAG ==> AgreeAll(a, b[s := x], c, d, store[s := x]) && (s in store <==> s in b)
    ensures s.table == N16_TAG ==> AgreeAll(a, b, c[s := x], d, store[s := x]) && (s in store <==> s in c)
    ensures s.table == N256_TAG ==> AgreeAll(a, b, c, d[s := x], store[s := x]) && (s in store <==> s in d)
  {
    hide Agree;
    AgreeUpdate(a, LEAF, store, s, x);
    AgreeUpdate(b, N4_TAG, store, s, x);
    AgreeUpdate(c, N16_TAG, store, s, x);
    AgreeUpdate(d, N256_TAG, store, s, x);
  }

  lemma RemoveAll(a: Store, b: Store, c: Store, d: Store, store: Store, s: Slot)
    requires AgreeAll(a, b, c, d, store)
    ensures s.table == LEAF ==> AgreeAll(a - {s}, b, c, d, store - {s}) && (s in store <==> s in a)
    ensures s.table == N4_TAG ==> AgreeAll(a, b - {s}, c, d, store - {s}) && (s in store <==> s in b)
    ensures s.table == N16_TAG ==> AgreeAll(a, b, c - {s}, d, store - {s}) && (s in store <==> s in c)
    ensures s.table == N256_TAG ==> AgreeAll(a, b, c, d - {s}, store - {s}) && (s in store <==> s in d)
  {
    hide Agree;
    AgreeRemoval(a, LEAF, store, s);
    AgreeRemoval(b, N4_TAG, store, s);
    AgreeRemoval(c, N16_TAG, store, s);
    AgreeRemoval(d, N256_TAG, store, s);
  }

  lemma LookupAll(a: Store, b: Store, c: Store, d: Store, store: Store, s: Slot)
    requires AgreeAll(a, b, c, d, store) && s in store
    ensures s.table == LEAF ==> s in a && a[s] == store[s]
    ensures s.table == N4_TAG ==> s in b && b[s] == store[s]
    ensures s.table == N16_TAG ==> s in c && c[s] == store[s]
    ensures s.table == N256_TAG ==> s in d && d[s] == store[s]
  {
  }

  class ArtDerefTables {
    const leaf: DerefTable<Item>
    const n4: DerefTable<Item>
    const n16: DerefTable<Item>
    const n256: DerefTable<Item>

    /** Everything live in the four tables. */
    ghost var store: Store

    ghost function Repr(): set<object> {
      {this, leaf, n4, n16, n256}
    }

    predicate Wired() {
      && leaf.Indexed() && n4.Indexed() && n16.Indexed() && n256.Indexed()
      && leaf.table == LEAF && n4.table == N4_TAG && n16.table == N16_TAG && n256.table == N256_TAG
    }

    /** The store is what the tables hold; every item is in the table of its kind. */
    ghost predicate Valid()
      reads Repr()
    {
      && Wired()
      && leaf.Valid() && n4.Valid() && n16.Valid() && n256.Valid()
      && AgreeAll(leaf.objects, n4.objects, n16.objects, n256.objects, store)
      && (forall s | s in store :: s.table == TagOf(store[s]))
    }

    /** The table a kind lives in. */
    function TableOf(tag: nat): (t: DerefTable<Item>) {
      if tag == LEAF then leaf else if tag == N4_TAG then n4 else if tag == N16_TAG then n16 else n256
    }

    /** What a tiny pointer means under the hashes of the edge that owns it. */
    function Locate(p: TinyPtr, h: Hashes): (s: Slot)
      requires Wired() && p.Ptr? && p.special < 4
      ensures s.table == p.special
    {
      Resolve(p.special, TableOf(p.special).buckets, p, h)
    }

    /** Every slot that an item of a kind could have under these hashes is in use. */
    ghost predicate NoRoom(h: Hashes, tag: nat, used: set<Slot>)
      requires Wired()
    {
      TableOf(tag).NoRoom(h, used)
    }

    lemma EmptyHasRoom(h: Hashes, tag: nat, used: set<Slot>)
      requires Valid() && used == {}
      ensures !NoRoom(h, tag, used)
    {
      hide DerefTable.NoRoom, AgreeAll;
      TableOf(tag).EmptyHasRoom(h, used);
    }

    /** Whether there is room depends on one table alone. */
    lemma RoomInTable(h: Hashes, tag: nat)
      requires Valid() && tag < 4
      ensures NoRoom(h, tag, store.Keys) <==> TableOf(tag).NoRoom(h, TableOf(tag).objects.Keys)
    {
      hide DerefTable.Valid;
      var t := TableOf(tag);
      assert t.table == tag;
      SameBucket(t, BucketOf(t.buckets, h.first), tag);
      SameBucket(t, BucketOf(t.buckets, h.second), tag);
    }

    lemma SameBucket(t: DerefTable<Item>, b: nat, tag: nat)
      requires Valid() && tag < 4 && t == TableOf(tag)
      ensures BucketFull(tag, b, t.entries, store.Keys) <==> BucketFull(tag, b, t.entries, t.objects.Keys)
    {
      hide DerefTable.Valid;
      assert forall i: nat :: Slot(tag, b, i) in store <==> Slot(tag, b, i) in t.objects;
    }

    constructor (b4: Number, b16: Number, b256: Number, bLeaf: Number)
      requires b4.Plausible() && b4.Exact() && b16.Plausible() && b16.Exact()
      requires b256.Plausible() && b256.Exact() && bLeaf.Plausible() && bLeaf.Exact()
      ensures Valid() && fresh(Repr()) && store == map[]
      ensures n4.buckets == b4 && n16.buckets == b16 && n256.buckets == b256 && leaf.buckets == bLeaf
      ensures n4.entries == n16.entries == n256.entries == leaf.entries == ART_FORMAT.Entries()
    {
      hide DerefTable.Valid;
      leaf := new DerefTable<Item>(LEAF, bLeaf, ART_FORMAT);
      n4 := new DerefTable<Item>(N4_TAG, b4, ART_FORMAT);
      n16 := new DerefTable<Item>(N16_TAG, b16, ART_FORMAT);
      n256 := new DerefTable<Item>(N256_TAG, b256, ART_FORMAT);
      store := map[];
    }

    /**
     * One more live item under the pointer handed out; or nothing at all where the source throws, because both
     * candidate buckets are full.
     */
    ghost predicate Allocated(before: Store, h: Hashes, x: Item, r: Option<TinyPtr>, after: Store)
      requires Wired()
    {
      match r
      case None => after == before && NoRoom(h, TagOf(x), before.Keys)
      case Some(p) =>
        && p.Ptr? && p.special == TagOf(x) && Locate(p, h) !in before && after == before[Locate(p, h) := x]
        && !NoRoom(h, TagOf(x), before.Keys)
    }

    method CreateLeaf(h: Hashes, x: Item) returns (r: Option<TinyPtr>)
      requires Valid() && x.Leaf?
      modifies Repr()
      ensures Valid() && Allocated(old(store), h, x, r, store)
    {
      hide DerefTable.Valid, DerefTable.NoRoom, Resolve, AgreeAll;
      RoomInTable(h, LEAF);
      r := leaf.Allocate(h, LEAF, x);
      if r.Some? {
        UpdateAll(old(leaf.objects), n4.objects, n16.objects, n256.objects, store, Locate(r.value, h), x);
        store := store[Locate(r.value, h) := x];
      }
    }

    method CreateN4(h: Hashes, x: Item) returns (r: Option<TinyPtr>)
      requires Valid() && TagOf(x) == N4_TAG
      modifies Repr()
      ensures Valid() && Allocated(old(store), h, x, r, store)
    {
      hide DerefTable.Valid, DerefTable.NoRoom, Resolve, AgreeAll;
      RoomInTable(h, N4_TAG);
      r := n4.Allocate(h, N4_TAG, x);
      if r.Some? {
        UpdateAll(leaf.objects, old(n4.objects), n16.objects, n256.objects, store, Locate(r.value, h), x);
        store := store[Locate(r.value, h) := x];
      }
    }

    method CreateN16(h: Hashes, x: Item) returns (r: Option<TinyPtr>)
      requires Valid() && TagOf(x) == N16_TAG
      modifies Repr()
      ensures Valid() && Allocated(old(store), h, x, r, store)
    {
      hide DerefTable.Valid, DerefTable.NoRoom, Resolve, AgreeAll;
      RoomInTable(h, N16_TAG);
      r := n16.Allocate(h, N16_TAG, x);
      if r.Some? {
        UpdateAll(leaf.objects, n4.objects, old(n16.objects), n256.objects, store, Locate(r.value, h), x);
        store := store[Locate(r.value, h) := x];
      }
    }

    method CreateN256(h: Hashes, x: Item) returns (r: Option<TinyPtr>)
      requires Valid() && TagOf(x) == N256_TAG
      modifies Repr()
      ensures Valid() && Allocated(old(store), h, x, r, store)
    {
      hide DerefTable.Valid, DerefTable.NoRoom, Resolve, AgreeAll;
      RoomInTable(h, N256_TAG);
      r := n256.Allocate(h, N256_TAG, x);
      if r.Some? {
        UpdateAll(leaf.objects, n4.objects, n16.objects, old(n256.objects), store, Locate(r.value, h), x);
        store := store[Locate(r.value, h) := x];
      }
    }

    /** Allocate a node in the table of its kind. */
    method CreateNode(h: Hashes, x: Item) returns (r: Option<TinyPtr>)
      requires Valid() && x.Inner?
      modifies Repr()
      ensures Valid() && Allocated(old(store), h, x, r, store)
    {
      if TagOf(x) == N4_TAG {
        r := CreateN4(h, x);
      } else if TagOf(x) == N16_TAG {
        r := CreateN16(h, x);
      } else {
        r := CreateN256(h, x);
      }
    }

    method FreeLeaf(p: TinyPtr, h: Hashes)
      requires Valid() && p.Ptr? && p.special == LEAF && Locate(p, h) in store
      modifies Repr()
      ensures Valid() && store == old(store) - {Locate(p, h)}
    {
      hide DerefTable.Valid, Resolve, AgreeAll;
      RemoveAll(leaf.objects, n4.objects, n16.objects, n256.objects, store, Locate(p, h));
      leaf.Free(p, h);
      store := store - {Locate(p, h)};
    }

    method FreeN4(p: TinyPtr, h: Hashes)
      requires Valid() && p.Ptr? && p.special == N4_TAG && Locate(p, h) in store
      modifies Repr()
      ensures Valid() && store == old(store) - {Locate(p, h)}
    {
      hide DerefTable.Valid, Resolve, AgreeAll;
      RemoveAll(leaf.objects, n4.objects, n16.objects, n256.objects, store, Locate(p, h));
      n4.Free(p, h);
      store := store - {Locate(p, h)};
    }

    method FreeN16(p: TinyPtr, h: Hashes)
      requires Valid() && p.Ptr? && p.special == N16_TAG && Locate(p, h) in store
      modifies Repr()
      ensures Valid() && store == old(store) - {Locate(p, h)}
    {
      hide DerefTable.Valid, Resolve, AgreeAll;
      RemoveAll(leaf.objects, n4.objects, n16.objects, n256.objects, store, Locate(p, h));
      n16.Free(p, h);
      store := store - {Locate(p, h)};
    }

    method FreeN256(p: TinyPtr, h: Hashes)
      requires Valid() && p.Ptr? && p.special == N256_TAG && Locate(p, h) in store
      modifies Repr()
      ensures Valid() && store == old(store) - {Locate(p, h)}
    {
      hide DerefTable.Valid, Resolve, AgreeAll;
      RemoveAll(leaf.objects, n4.objects, n16.objects, n256.objects, store, Locate(p, h));
      n256.Free(p, h);
      store := store - {Locate(p, h)};
    }

    /** Free a slot in the table its pointer belongs to. */
    method Free(p: TinyPtr, h: Hashes)
      requires Valid() && p.Ptr? && p.special < 4 && Locate(p, h) in store
      modifies Repr()
      ensures Valid() && store == old(store) - {Locate(p, h)}
    {
      if p.special == LEAF {
        FreeLeaf(p, h);
      } else if p.special == N4_TAG {
        FreeN4(p, h);
      } else if p.special == N16_TAG {
        FreeN16(p, h);
      } else {
        FreeN256(p, h);
      }
    }

    method Read(s: Slot) returns (x: Item)
      requires Valid() && s in store
      ensures x == store[s] && TagOf(x) == s.table
    {
      LookupAll(leaf.objects, n4.objects, n16.objects, n256.objects, store, s);
      if s.table == LEAF {
        x := leaf.Read(s);
      } else if s.table == N4_TAG {
        x := n4.Read(s);
      } else if s.table == N16_TAG {
        x := n16.Read(s);
      } else {
        x := n256.Read(s);
      }
    }

    /** Update a node in place; its kind stays. */
    method Write(s: Slot, x: Item)
      requires Valid() && s in store && TagOf(x) == s.table && x.Inner?
      modifies Repr()
      ensures Valid() && store == old(store)[s := x]
    {
      hide DerefTable.Valid, AgreeAll;
      UpdateAll(leaf.objects, n4.objects, n16.objects, n256.objects, store, s, x);
      if s.table == N4_TAG {
        n4.Write(s, x);
      } else if s.table == N16_TAG {
        n16.Write(s, x);
      } else {
        n256.Write(s, x);
      }
      store := store[s := x];
    }
  }
}
