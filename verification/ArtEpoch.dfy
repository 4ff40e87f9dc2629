/** One thread's view of epoch-based reclamation: enter, mark, and on exit free what no reader can hold any more. */
module ArtEpoch {
  import opened Primes
  import opened TinyPtrs
  import opened DerefTables
  import opened ArtNodes
  import opened ArtTables
  import opened DeletionLists

  const GC_THRESHOLD: nat := 256

  /** What is needed to free a slot later: its pointer and the hashes it was allocated with. */
  datatype PendingDelete = PendingDelete(ptr: TinyPtr, hashes: Hashes)

  ghost predicate Resolvable(t: ArtDerefTables, x: PendingDelete) {
    t.Wired() && x.ptr.Ptr? && x.ptr.special < 4
  }

  ghost function SlotOf(t: ArtDerefTables, x: PendingDelete): Slot {
    if Resolvable(t, x) then t.Locate(x.ptr, x.hashes) else Slot(LEAF, 0, 0)
  }

  /** The slots of the entries, in order. */
  ghost function Slots(t: ArtDerefTables, es: seq<PendingDelete>): (r: seq<Slot>)
    ensures |r| == |es| && forall i | 0 <= i < |es| :: r[i] == SlotOf(t, es[i])
  {
    seq(|es|, i requires 0 <= i < |es| => SlotOf(t, es[i]))
  }

  ghost function SetOf(s: seq<Slot>): set<Slot> {
    set x | x in s
  }

  ghost predicate NoRepeats(s: seq<Slot>) {
    forall i, j | 0 <= i < j < |s| :: s[i] != s[j]
  }

  /** Every entry names a live slot, and no slot is entered twice. */
  ghost predicate PendingOk(t: ArtDerefTables, es: seq<PendingDelete>, store: Store) {
    && (forall x | x in es :: Resolvable(t, x))
    && var slots := Slots(t, es);
       && (forall s | s in slots :: s in store)
       && NoRepeats(slots)
  }

  /** The oldest of some epochs, the largest of all if there is none: no reader is further back. */
  ghost function Oldest(epochs: seq<nat>): (r: nat)
    ensures r <= MAX_EPOCH && (r == MAX_EPOCH || r in epochs) && forall e | e in epochs :: r <= e
  {
    if epochs == [] then MAX_EPOCH
    else
      var r, e := Oldest(epochs[..|epochs| - 1]), epochs[|epochs| - 1];
      assert epochs == epochs[..|epochs| - 1] + [e];
      if e < r then e else r
  }

  /**
   * What a cleanup does once more than 256 slots were retired since the last: exactly the entries of labels older than
   * every announced epoch are freed.
   */
  ghost predicate Cleaned(t: ArtDerefTables, before: seq<Label<PendingDelete>>, threshold: nat, others: seq<nat>,
                          after: seq<Label<PendingDelete>>, freed: set<Slot>) {
    if threshold > GC_THRESHOLD then
      && after == Staying(before, Oldest(others))
      && freed == SetOf(Slots(t, Expired(before, Oldest(others))))
    else after == before && freed == {}
  }

  /** Nothing then waits in a label that no reader can be as old as. */
  lemma NothingExpiredWaits(t: ArtDerefTables, before: seq<Label<PendingDelete>>, threshold: nat, others: seq<nat>,
                            after: seq<Label<PendingDelete>>, freed: set<Slot>, l: Label<PendingDelete>)
    requires Cleaned(t, before, threshold, others, after, freed) && threshold > GC_THRESHOLD && l in after
    ensures l in before && l.epoch >= Oldest(others)
    ensures l.epoch < MAX_EPOCH ==> exists e :: e in others && e <= l.epoch
  {
    StayingYoung(before, Oldest(others), l);
  }

  class Epoche {
    const tables: ArtDerefTables
    const list: DeletionList<PendingDelete>
    var currentEpoch: nat
    var localEpoch: nat
    var threshold: nat

    ghost function Pending(): seq<PendingDelete>
      reads this, list
    {
      Entries(list.labels)
    }

    ghost predicate Valid()
      reads this, list, tables.Repr()
    {
      && (list as object) !in tables.Repr() && (this as object) !in tables.Repr()
      && tables.Wired() && tables.Valid() && list.Valid()
      && (list.labels != [] ==> list.labels[0].epoch <= currentEpoch)
      && PendingOk(tables, Pending(), tables.store)
    }

    constructor (tables: ArtDerefTables)
      requires tables.Wired() && tables.Valid()
      ensures Valid() && this.tables == tables && Pending() == [] && fresh(list)
    {
      hide ArtDerefTables.Valid, DeletionList.Valid;
      this.tables := tables;
      list := new DeletionList<PendingDelete>();
      currentEpoch, localEpoch, threshold := 0, 0, 0;
    }

    /** A guarded operation starts. */
    method Enter()
      requires Valid()
      modifies this
      ensures Valid() && localEpoch == currentEpoch == old(currentEpoch) && threshold == old(threshold)
    {
      hide ArtDerefTables.Valid, PendingOk, DeletionList.Valid;
      localEpoch := currentEpoch;
    }

    /** Hand over an unlinked slot, with the hashes that resolve its pointer. */
    method MarkNodeForDeletion(p: TinyPtr, h: Hashes) returns (ghost at: nat)
      requires Valid() && p.Ptr? && p.special < 4
      requires tables.Locate(p, h) in tables.store && tables.Locate(p, h) !in Slots(tables, Pending())
      modifies this, list
      ensures Valid() && at <= old(|Pending()|)
      ensures Slots(tables, Pending()) == Inserted(old(Slots(tables, Pending())), at, tables.Locate(p, h))
      ensures list.labels == WithEntry(old(list.labels), PendingDelete(p, h), currentEpoch)
      ensures currentEpoch == old(currentEpoch) && localEpoch == old(localEpoch) && threshold == old(threshold) + 1
    {
      hide ArtDerefTables.Valid, DeletionList.Valid, PendingOk, Inserted, Entries, WithEntry;
      ghost var before := list.labels;
      var x := PendingDelete(p, h);
      at := list.EntryGoes(x, currentEpoch);
      PendingAdded(tables, Entries(before), at, x, tables.store);
      EntryInserted(Entries(before), at, x);
      list.Add(x, currentEpoch);
      threshold := threshold + 1;
    }

    /** The scan over the announced epochs of all threads. */
    static method OldestEpoch(epochs: seq<nat>) returns (oldest: nat)
      ensures oldest == Oldest(epochs)
    {
      oldest := MAX_EPOCH;
      for i := 0 to |epochs|
        invariant oldest == Oldest(epochs[..i])
      {
        assert epochs[..i + 1][..i] == epochs[..i];
        if epochs[i] < oldest {
          oldest := epochs[i];
        }
      }
      assert epochs[..|epochs|] == epochs;
    }

    /**
     * A guarded operation ends. Now and then the epoch advances; once enough slots are waiting, every label older
     * than the oldest local epoch of all threads is freed, slot by slot, in the table each pointer names.
     */
    method ExitAndCleanup(others: seq<nat>) returns (ghost freed: set<Slot>)
      requires Valid()
      modifies this, list, tables.Repr()
      ensures Valid()
      ensures tables.store == old(tables.store) - freed
      ensures SetOf(Slots(tables, Pending())) == old(SetOf(Slots(tables, Pending()))) - freed
      ensures freed <= old(SetOf(Slots(tables, Pending())))
      ensures Cleaned(tables, old(list.labels), old(threshold), others, list.labels, freed)
      ensures currentEpoch == old(currentEpoch) + if old(threshold) % 64 == 1 then 1 else 0
      ensures threshold == if old(threshold) > GC_THRESHOLD then 0 else old(threshold)
      ensures localEpoch == if old(threshold > GC_THRESHOLD && list.labels != []) then MAX_EPOCH else old(localEpoch)
    {
      hide ArtDerefTables.Valid, PendingOk, DeletionList.Valid, Staying, Expired;
      freed := {};
      CountedOut();
      if threshold % 64 == 1 {
        currentEpoch := currentEpoch + 1;
      }
      if threshold > GC_THRESHOLD {
        if list.count > 0 {
          localEpoch := MAX_EPOCH;
          var oldest := OldestEpoch(others + [localEpoch]);
          assert (others + [localEpoch])[..|others|] == others;
          freed := FreeOlder(oldest);
        }
        threshold := 0;
      }
    }

    /** The list counts its entries, so it is empty when it counts none. */
    lemma CountedOut()
      requires list.Valid()
      ensures list.count > 0 <==> list.labels != []
      ensures list.labels == [] ==>
                forall n: nat :: Staying(list.labels, n) == [] && SetOf(Slots(tables, Expired(list.labels, n))) == {}
    {
    }

    method FreeOlder(oldest: nat) returns (ghost freed: set<Slot>)
      requires Valid()
      modifies list, tables.Repr()
      ensures Valid()
      ensures tables.store == old(tables.store) - freed
      ensures SetOf(Slots(tables, Pending())) == old(SetOf(Slots(tables, Pending()))) - freed
      ensures list.labels == Staying(old(list.labels), oldest)
      ensures freed <= old(SetOf(Slots(tables, Pending())))
      ensures freed == SetOf(Slots(tables, Expired(old(list.labels), oldest)))
    {
      hide ArtDerefTables.Valid, PendingOk, DeletionList.Valid, Entries, SplitsAt, Staying, Expired;
      ghost var before := list.labels;
      ghost var kept;
      var es;
      es, kept := list.Cleanup(oldest);
      SplitMeans(before, oldest, kept);
      assert before == before[..kept] + before[kept..];
      EntriesConcat(before[..kept], before[kept..]);
      PendingSplit(tables, Entries(list.labels), es, tables.store);
      freed := SetOf(Slots(tables, es));
      FreeAll(es);
      PendingAfterFree(tables, Entries(list.labels), es, old(tables.store));
    }

    method FreeAll(es: seq<PendingDelete>)
      requires tables.Wired() && tables.Valid() && PendingOk(tables, es, tables.store)
      modifies tables.Repr()
      ensures tables.Valid() && tables.store == old(tables.store) - SetOf(Slots(tables, es))
    {
      hide ArtDerefTables.Valid;
      var i := 0;
      while i < |es|
        invariant i <= |es| && tables.Valid()
        invariant tables.store == old(tables.store) - SetOf(Slots(tables, es)[..i])
      {
        assert es[i] in es;
        ghost var slots := Slots(tables, es);
        assert slots[i] == SlotOf(tables, es[i]) && slots[i] in slots;
        tables.Free(es[i].ptr, es[i].hashes);
        assert SetOf(slots[..i + 1]) == SetOf(slots[..i]) + {slots[i]};
        i := i + 1;
      }
      assert Slots(tables, es)[..i] == Slots(tables, es);
    }
  }

  function Inserted<T(!new)>(s: seq<T>, at: nat, x: T): (r: seq<T>)
    requires at <= |s|
    ensures |r| == |s| + 1 && r[at] == x
    ensures forall y :: y in r <==> y == x || y in s
  {
    assert s == s[..at] + s[at..];
    s[..at] + [x] + s[at..]
  }

  lemma EntryInserted(es: seq<PendingDelete>, at: nat, x: PendingDelete)
    requires at <= |es|
    ensures Inserted(es, at, x) == es[..at] + [x] + es[at..]
  {
  }

  lemma PendingAdded(t: ArtDerefTables, es: seq<PendingDelete>, at: nat, x: PendingDelete, store: Store)
    requires PendingOk(t, es, store) && Resolvable(t, x) && SlotOf(t, x) in store && SlotOf(t, x) !in Slots(t, es)
    requires at <= |es|
    ensures PendingOk(t, Inserted(es, at, x), store)
    ensures Slots(t, Inserted(es, at, x)) == Inserted(Slots(t, es), at, SlotOf(t, x))
  {
    var es' := Inserted(es, at, x);
    assert Slots(t, es') == Inserted(Slots(t, es), at, SlotOf(t, x));
  }

  lemma PendingSplit(t: ArtDerefTables, stay: seq<PendingDelete>, go: seq<PendingDelete>, store: Store)
    requires PendingOk(t, stay + go, store)
    ensures PendingOk(t, stay, store) && PendingOk(t, go, store)
    ensures Slots(t, stay + go) == Slots(t, stay) + Slots(t, go)
  {
    assert forall x | x in stay :: x in stay + go;
    assert forall x | x in go :: x in stay + go;
    assert Slots(t, stay + go) == Slots(t, stay) + Slots(t, go);
    SplitDistinct(Slots(t, stay), Slots(t, go));
  }

  lemma SplitDistinct(a: seq<Slot>, b: seq<Slot>)
    requires NoRepeats(a + b)
    ensures NoRepeats(a) && NoRepeats(b)
    ensures forall x | x in a :: x !in b
  {
    var c := a + b;
    forall i, j | 0 <= i < j < |b| ensures b[i] != b[j] {
      assert c[|a| + i] == b[i] && c[|a| + j] == b[j];
    }
    forall i, j | 0 <= i < j < |a| ensures a[i] != a[j] {
      assert c[i] == a[i] && c[j] == a[j];
    }
    forall i, j | 0 <= i < |a| && 0 <= j < |b| ensures a[i] != b[j] {
      assert c[i] == a[i] && c[|a| + j] == b[j];
    }
  }

  /** What stays is still live after the rest is gone. */
  lemma PendingAfterFree(t: ArtDerefTables, stay: seq<PendingDelete>, go: seq<PendingDelete>, store: Store)
    requires PendingOk(t, stay + go, store) && PendingOk(t, stay, store) && PendingOk(t, go, store)
    ensures var gone := SetOf(Slots(t, go));
            && PendingOk(t, stay, store - gone)
            && SetOf(Slots(t, stay)) == SetOf(Slots(t, stay + go)) - gone
  {
    PendingSplit(t, stay, go, store);
    SplitDistinct(Slots(t, stay), Slots(t, go));
  }
}
