/** The bucketed slot allocator behind tiny pointers, used by one thread. */
module DerefTables {
  import opened Wrappers
  import opened Primes
  import opened TinyPtrs

  /** A place in a table; what a tiny pointer and the hashes of its owner name together. */
  datatype Slot = Slot(table: nat, bucket: nat, index: nat)

  type Word64 = x: nat | x < TWO_64

  /** The two hash values of an edge; what computes them does not matter here. */
  datatype Hashes = Hashes(first: Word64, second: Word64)

  /** The bytes of a slot: an object, or, while the slot is free, the index of the next free slot in the bucket. */
  datatype Cell<T> = Link(next: nat) | Object(value: T)

  datatype Meta = Meta(freeCount: nat, freeHead: nat)

  /** The bucket a hash selects. */
  function BucketOf(buckets: Number, hash: Word64): (b: nat)
    requires buckets.Plausible() && buckets.Exact()
    ensures b < buckets.value && b == hash % buckets.value
  {
    ModIsExact(buckets, hash);
    buckets.Mod(hash)
  }

  /** No object is needed to follow a tiny pointer, only the hashes. */
  function Resolve(table: nat, buckets: Number, p: TinyPtr, h: Hashes): (s: Slot)
    requires buckets.Plausible() && buckets.Exact() && p.Ptr?
  {
    Slot(table, BucketOf(buckets, if p.second then h.second else h.first), p.index)
  }

  /** Every slot of bucket b is in use. */
  ghost predicate BucketFull(table: nat, b: nat, entries: nat, used: set<Slot>) {
    forall i | 0 <= i < entries :: Slot(table, b, i) in used
  }

  // ----- one bucket

  ghost predicate Distinct(s: seq<nat>) {
    forall i, j | 0 <= i < j < |s| :: s[i] != s[j]
  }

  /** The free slots of a bucket, in order, are chained through the slots themselves. */
  ghost predicate FreeList<T>(n: nat, m: Meta, row: seq<Cell<T>>, list: seq<nat>) {
    && |row| == n && m.freeCount == |list| && m.freeHead < n
    && (forall i | 0 <= i < |list| :: list[i] < n && row[list[i]].Link? && row[list[i]].next < n)
    && Distinct(list)
    && (list != [] ==> m.freeHead == list[0])
    && (forall i | 0 < i < |list| :: row[list[i - 1]].next == list[i])
  }

  /** Live and free slots of bucket b partition it. */
  ghost predicate Partition<T>(n: nat, t: nat, b: nat, row: seq<Cell<T>>, list: seq<nat>, objects: map<Slot, T>) {
    && |row| == n
    && (forall i | 0 <= i < n :: Slot(t, b, i) in objects <==> i !in list)
    && (forall i | 0 <= i < n && Slot(t, b, i) in objects :: row[i] == Object(objects[Slot(t, b, i)]))
  }

  lemma PopOk<T>(n: nat, m: Meta, row: seq<Cell<T>>, list: seq<nat>, t: nat, b: nat, objects: map<Slot, T>, v: T)
    requires FreeList(n, m, row, list) && Partition(n, t, b, row, list, objects) && list != []
    ensures var head, row', list' := m.freeHead, row[m.freeHead := Object(v)], list[1..];
            && FreeList(n, Meta(m.freeCount - 1, row[head].next), row', list')
            && Slot(t, b, head) !in objects
            && Partition(n, t, b, row', list', objects[Slot(t, b, head) := v])
  {
    var list' := list[1..];
    assert list[0] in list;
    assert list == [list[0]] + list';
    assert list[0] !in list';
  }

  lemma PushOk<T>(n: nat, m: Meta, row: seq<Cell<T>>, list: seq<nat>, t: nat, b: nat, objects: map<Slot, T>, i: nat)
    requires FreeList(n, m, row, list) && Partition(n, t, b, row, list, objects) && i < n && Slot(t, b, i) in objects
    ensures FreeList(n, Meta(m.freeCount + 1, i), row[i := Link(m.freeHead)], [i] + list)
    ensures Partition(n, t, b, row[i := Link(m.freeHead)], [i] + list, objects - {Slot(t, b, i)})
  {
    PushedList(n, m, row, list, i);
    PushedRow(n, m, row, list, t, b, objects, i);
  }

  lemma PushedRow<T>(n: nat, m: Meta, row: seq<Cell<T>>, list: seq<nat>, t: nat, b: nat, objects: map<Slot, T>, i: nat)
    requires Partition(n, t, b, row, list, objects) && i < n
    ensures Partition(n, t, b, row[i := Link(m.freeHead)], [i] + list, objects - {Slot(t, b, i)})
  {
    var list' := [i] + list;
    forall j | 0 <= j < n ensures j in list' <==> j == i || j in list {
      if j in list {
        var k :| 0 <= k < |list| && list[k] == j;
        assert list'[k + 1] == j;
      }
    }
  }

  lemma PushedList<T>(n: nat, m: Meta, row: seq<Cell<T>>, list: seq<nat>, i: nat)
    requires FreeList(n, m, row, list) && i < n && i !in list
    ensures FreeList(n, Meta(m.freeCount + 1, i), row[i := Link(m.freeHead)], [i] + list)
  {
    var row', list' := row[i := Link(m.freeHead)], [i] + list;
    assert forall j | 0 < j < |list'| :: list'[j] == list[j - 1];
    forall j | 0 < j < |list'| ensures row'[list'[j - 1]].next == list'[j] {
      if j > 1 {
        assert row[list[j - 2]].next == list[j - 1];
      }
    }
  }

  lemma OverwriteOk<T>(n: nat, m: Meta, row: seq<Cell<T>>, list: seq<nat>, t: nat, b: nat, objects: map<Slot, T>,
                       i: nat, v: T)
    requires FreeList(n, m, row, list) && Partition(n, t, b, row, list, objects) && i < n && Slot(t, b, i) in objects
    ensures FreeList(n, m, row[i := Object(v)], list)
    ensures Partition(n, t, b, row[i := Object(v)], list, objects[Slot(t, b, i) := v])
  {
    assert forall j | 0 <= j < |list| :: list[j] in list && list[j] != i;
  }

  // ----- the table

  class DerefTable<T(0)> {
    /** Tells the tables of a program apart. */
    const table: nat
    const buckets: Number
    const entries: nat
    var meta: seq<Meta>
    var data: seq<seq<Cell<T>>>
    var size: int

    /** The live objects, and per bucket its free slots in list order. */
    ghost var objects: map<Slot, T>
    ghost var free: seq<seq<nat>>

    /** The bucket count has an exact remainder, so every hash has a bucket. */
    predicate Indexed() {
      buckets.Plausible() && buckets.Exact()
    }

    ghost predicate Layout()
      reads this
    {
      && Indexed() && entries > 0
      && |meta| == |data| == |free| == buckets.value
    }

    ghost predicate BucketOk(b: nat)
      requires Layout() && b < buckets.value
      reads this
    {
      && FreeList(entries, meta[b], data[b], free[b])
      && Partition(entries, table, b, data[b], free[b], objects)
    }

    ghost predicate Valid()
      reads this
    {
      && Layout()
      && (forall b | 0 <= b < buckets.value :: BucketOk(b))
      && (forall s | s in objects :: s.table == table && s.bucket < buckets.value && s.index < entries)
      && size == |objects|
    }

    /** Every slot is free; the list of each bucket runs through it in order. */
    constructor (table: nat, buckets: Number, format: Format)
      requires buckets.Plausible() && buckets.Exact() && format.Valid()
      ensures Valid() && Indexed() && objects == map[]
      ensures this.table == table && this.buckets == buckets && entries == format.Entries()
    {
      var n := format.Entries();
      this.table, this.buckets, entries := table, buckets, n;
      meta := seq(buckets.value, _ => Meta(n, 0));
      data := [];
      size := 0;
      objects := map[];
      free := seq(buckets.value, _ => seq(n, i => i));
      new;
      LinkEveryBucket();
      forall c | 0 <= c < buckets.value ensures BucketOk(c) {
        LinkedOk(entries, table, c, data[c]);
      }
    }

    method LinkEveryBucket()
      requires entries > 0 && data == []
      modifies this`data
      ensures |data| == buckets.value && forall c | 0 <= c < buckets.value :: Linked(entries, data[c])
    {
      while |data| < buckets.value
        invariant |data| <= buckets.value
        invariant forall c | 0 <= c < |data| :: Linked(entries, data[c])
      {
        var row := LinkAll(entries);
        data := data + [row];
      }
    }

    ghost static predicate Linked(n: nat, row: seq<Cell<T>>) {
      && |row| == n
      && forall i | 0 <= i < n :: row[i] == Link(if i + 1 < n then i + 1 else 0)
    }

    static method LinkAll(n: nat) returns (row: seq<Cell<T>>)
      requires n > 0
      ensures Linked(n, row)
    {
      row := seq(n, _ => Link(0));
      var i := 0;
      while i < n - 1
        invariant i <= n - 1 && |row| == n && row[n - 1] == Link(0)
        invariant forall j | 0 <= j < i :: row[j] == Link(j + 1)
      {
        row := row[i := Link(i + 1)];
        i := i + 1;
      }
      row := row[n - 1 := Link(0)];
    }

    static lemma LinkedOk(n: nat, t: nat, b: nat, row: seq<Cell<T>>)
      requires n > 0 && Linked(n, row)
      ensures FreeList(n, Meta(n, 0), row, seq(n, i => i))
      ensures Partition(n, t, b, row, seq(n, i => i), map[])
    {
      var list := seq(n, i => i);
      forall i | 0 <= i < n ensures i in list {
        assert list[i] == i;
      }
    }

    // ----- allocating and freeing

    /** Of two candidate buckets the one with more free slots, the first on a tie. */
    ghost predicate Chosen(h: Hashes, second: bool)
      requires Layout()
      reads this
    {
      second <==> meta[BucketOf(buckets, h.second)].freeCount > meta[BucketOf(buckets, h.first)].freeCount
    }

    /** Both candidate buckets are full. */
    ghost predicate Full(h: Hashes)
      requires Layout()
      reads this
    {
      meta[BucketOf(buckets, h.first)].freeCount == 0 && meta[BucketOf(buckets, h.second)].freeCount == 0
    }

    /** Every slot an object with these hashes could have is in use. */
    ghost predicate NoRoom(h: Hashes, used: set<Slot>)
      requires Indexed()
    {
      && BucketFull(table, BucketOf(buckets, h.first), entries, used)
      && BucketFull(table, BucketOf(buckets, h.second), entries, used)
    }

    /** The counters tell. */
    lemma FullMeansNoRoom(h: Hashes)
      requires Valid()
      ensures Full(h) <==> NoRoom(h, objects.Keys)
    {
      CountTells(BucketOf(buckets, h.first));
      CountTells(BucketOf(buckets, h.second));
    }

    lemma CountTells(b: nat)
      requires Valid() && b < buckets.value
      ensures meta[b].freeCount == 0 <==> BucketFull(table, b, entries, objects.Keys)
    {
      assert BucketOk(b);
      if free[b] != [] {
        assert free[b][0] in free[b] && Slot(table, b, free[b][0]) !in objects;
      }
    }

    lemma EmptyHasRoom(h: Hashes, used: set<Slot>)
      requires Indexed() && entries > 0 && used == {}
      ensures !NoRoom(h, used)
    {
      hide BucketOf, BucketFull, Number.Exact;
      EmptyBucket(BucketOf(buckets, h.first), used);
    }

    lemma EmptyBucket(b: nat, used: set<Slot>)
      requires entries > 0 && used == {}
      ensures !BucketFull(table, b, entries, used)
    {
      assert Slot(table, b, 0) !in used;
    }

    /**
     * Take a free slot and construct an object in it, as every caller does at once; None where the source throws.
     * The slot comes from the emptier of the two candidate buckets and was not live.
     */
    method Allocate(h: Hashes, special: nat, value: T) returns (r: Option<TinyPtr>)
      requires Valid()
      modifies this
      ensures Valid()
      ensures r.None? <==> old(Full(h))
      ensures r.None? <==> old(NoRoom(h, objects.Keys))
      ensures r.None? ==> objects == old(objects)
      ensures r.Some? ==> r.value.Ptr? && r.value.special == special && old(Chosen(h, r.value.second))
      ensures r.Some? ==> r.value.index < entries && Resolve(table, buckets, r.value, h) !in old(objects)
      ensures r.Some? ==> objects == old(objects)[Resolve(table, buckets, r.value, h) := value]
    {
      var b1, b2 := BucketOf(buckets, h.first), BucketOf(buckets, h.second);
      var second := meta[b1].freeCount < meta[b2].freeCount;
      var b := if second then b2 else b1;
      assert BucketOk(b);
      var head := meta[b].freeHead;
      var next := if data[b][head].Link? then data[b][head].next else 0;
      FullMeansNoRoom(h);
      if meta[b].freeCount == 0 {
        return None;
      }
      TakeHead(b, head, next, value);
      return Some(Ptr(head, special, second));
    }

    method TakeHead(b: nat, head: nat, next: nat, value: T)
      requires Valid() && b < buckets.value && free[b] != []
      requires head == meta[b].freeHead && head < |data[b]| && data[b][head] == Link(next)
      modifies this
      ensures Valid() && Slot(table, b, head) !in old(objects) && objects == old(objects)[Slot(table, b, head) := value]
    {
      assert BucketOk(b);
      PopOk(entries, meta[b], data[b], free[b], table, b, objects, value);
      meta := meta[b := Meta(meta[b].freeCount - 1, next)];
      size := size + 1;
      data := data[b := data[b][head := Object(value)]];
      objects := objects[Slot(table, b, head) := value];
      free := free[b := free[b][1..]];
      forall c | 0 <= c < buckets.value ensures BucketOk(c) {
        assert old(BucketOk(c));
      }
    }

    /** Give a live slot back: it becomes the head of its bucket's list. */
    method Free(p: TinyPtr, h: Hashes)
      requires Valid() && p.Ptr? && Resolve(table, buckets, p, h) in objects
      modifies this
      ensures Valid() && objects == old(objects) - {Resolve(table, buckets, p, h)}
    {
      var b := BucketOf(buckets, if p.second then h.second else h.first);
      var i := p.index;
      assert BucketOk(b);
      PushOk(entries, meta[b], data[b], free[b], table, b, objects, i);
      data := data[b := data[b][i := Link(meta[b].freeHead)]];
      meta := meta[b := Meta(meta[b].freeCount + 1, i)];
      size := size - 1;
      objects := objects - {Slot(table, b, i)};
      free := free[b := [i] + free[b]];
      forall c | 0 <= c < buckets.value ensures BucketOk(c) {
        assert old(BucketOk(c));
      }
    }

    // ----- the objects

    /** Following a live pointer reaches the object constructed there. */
    method Read(s: Slot) returns (v: T)
      requires Valid() && s in objects
      ensures v == objects[s]
    {
      assert BucketOk(s.bucket);
      v := data[s.bucket][s.index].value;
    }

    /** An object is updated in place. */
    method Write(s: Slot, v: T)
      requires Valid() && s in objects
      modifies this
      ensures Valid() && objects == old(objects)[s := v]
    {
      assert BucketOk(s.bucket);
      OverwriteOk(entries, meta[s.bucket], data[s.bucket], free[s.bucket], table, s.bucket, objects, s.index, v);
      data := data[s.bucket := data[s.bucket][s.index := Object(v)]];
      objects := objects[s := v];
      assert objects.Keys == old(objects.Keys);
      assert |objects.Keys| == |objects| == |old(objects)|;
      forall c | 0 <= c < buckets.value ensures BucketOk(c) {
        assert old(BucketOk(c));
      }
    }
  }
}
