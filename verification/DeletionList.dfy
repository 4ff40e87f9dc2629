/** A thread's slots waiting to be freed, in a linked list of labels of up to 32 entries, newest label first. */
module DeletionLists {
  import opened Wrappers
  import opened LabelChains

  const LABEL_SIZE: nat := 32

  /** What a thread announces that is in no epoch. */
  const MAX_EPOCH: nat := 0xFFFF_FFFF_FFFF_FFFF

  /** A label: its entries in order and the epoch of the latest of them. */
  datatype Label<E> = Label(entries: seq<E>, epoch: nat)

  /** Only the newest label may have room, and labels age towards the tail. */
  ghost predicate WellAged<E>(labels: seq<Label<E>>) {
    && (forall i | 0 <= i < |labels| :: 0 < |labels[i].entries| <= LABEL_SIZE)
    && (forall i | 0 < i < |labels| :: |labels[i].entries| == LABEL_SIZE)
    && (forall i, j | 0 <= i < j < |labels| :: labels[i].epoch >= labels[j].epoch)
  }

  ghost function Entries<E>(labels: seq<Label<E>>): (r: seq<E>) {
    if labels == [] then [] else labels[0].entries + Entries(labels[1..])
  }

  lemma {:induction false} EntriesConcat<E>(a: seq<Label<E>>, b: seq<Label<E>>)
    ensures Entries(a + b) == Entries(a) + Entries(b)
  {
    if a == [] {
      assert a + b == b;
    } else {
      var c := a + b;
      assert c[0] == a[0] && c[1..] == a[1..] + b;
      EntriesConcat(a[1..], b);
      assert a[0].entries + (Entries(a[1..]) + Entries(b)) == a[0].entries + Entries(a[1..]) + Entries(b);
    }
  }

  /** The labels young enough to stay when every reader is at least in epoch oldest. */
  ghost predicate SplitsAt<E>(labels: seq<Label<E>>, oldest: nat, n: nat)
    requires n <= |labels|
  {
    && (forall i | 0 <= i < n :: labels[i].epoch >= oldest)
    && (forall i | n <= i < |labels| :: labels[i].epoch < oldest)
  }

  /** The labels that stay when every reader is at least in epoch oldest, and the entries of the others. */
  ghost function Staying<E>(labels: seq<Label<E>>, oldest: nat): seq<Label<E>> {
    if labels == [] then []
    else (if labels[0].epoch >= oldest then [labels[0]] else []) + Staying(labels[1..], oldest)
  }

  ghost function Expired<E>(labels: seq<Label<E>>, oldest: nat): seq<E> {
    if labels == [] then []
    else (if labels[0].epoch < oldest then labels[0].entries else []) + Expired(labels[1..], oldest)
  }

  /** As labels age towards the tail, the first n stay. */
  lemma {:induction false} SplitMeans<E>(labels: seq<Label<E>>, oldest: nat, n: nat)
    requires n <= |labels| && SplitsAt(labels, oldest, n)
    ensures Staying(labels, oldest) == labels[..n] && Expired(labels, oldest) == Entries(labels[n..])
  {
    if labels != [] {
      var m := if n > 0 then n - 1 else 0;
      SplitMeans(labels[1..], oldest, m);
      if n > 0 {
        assert labels[..n] == [labels[0]] + labels[1..][..m] && labels[n..] == labels[1..][m..];
      } else {
        assert labels[n..] == labels && labels[..n] == [] == labels[1..][..m] && labels[1..][m..] == labels[1..];
      }
    }
  }

  /** What stays is as young as the oldest reader. */
  lemma {:induction false} StayingYoung<E>(labels: seq<Label<E>>, oldest: nat, l: Label<E>)
    ensures l in Staying(labels, oldest) <==> l in labels && l.epoch >= oldest
  {
    if labels != [] {
      StayingYoung(labels[1..], oldest, l);
    }
  }

  /** The list after one more entry in epoch e: the newest label takes it if it has room. */
  function WithEntry<E>(labels: seq<Label<E>>, x: E, e: nat): (r: seq<Label<E>>) {
    if labels != [] && |labels[0].entries| < LABEL_SIZE then
      [Label(labels[0].entries + [x], e)] + labels[1..]
    else [Label([x], e)] + labels
  }

  /** The new entry stands behind those of its label and ahead of all older ones. */
  lemma WithEntryOk<E>(labels: seq<Label<E>>, x: E, e: nat) returns (n: nat)
    requires WellAged(labels) && (labels != [] ==> labels[0].epoch <= e)
    ensures WellAged(WithEntry(labels, x, e))
    ensures n <= |Entries(labels)|
    ensures Entries(WithEntry(labels, x, e)) == Entries(labels)[..n] + [x] + Entries(labels)[n..]
  {
    var r, es := WithEntry(labels, x, e), Entries(labels);
    if labels != [] && |labels[0].entries| < LABEL_SIZE {
      n := |labels[0].entries|;
      assert r[1..] == labels[1..];
      assert es[..n] == labels[0].entries && es[n..] == Entries(labels[1..]);
    } else {
      n := 0;
      assert r[1..] == labels;
      assert Entries(r) == [x] + es && es[..0] == [] && es[0..] == es;
    }
  }

  // ----- taking labels out

  lemma RemovedEntries<E>(labels: seq<Label<E>>, i: nat)
    requires i < |labels|
    ensures |Entries(labels)| == |Entries(Without(labels, i))| + |labels[i].entries|
  {
    assert labels == labels[..i] + ([labels[i]] + labels[i + 1..]);
    EntriesConcat(labels[..i], [labels[i]] + labels[i + 1..]);
    EntriesConcat(labels[..i], labels[i + 1..]);
    assert ([labels[i]] + labels[i + 1..])[1..] == labels[i + 1..];
  }

  lemma OneMore<E>(labels: seq<Label<E>>, i: nat, j: nat)
    requires i <= j < |labels|
    ensures Entries(labels[i..j + 1]) == Entries(labels[i..j]) + labels[j].entries
  {
    assert labels[i..j + 1] == labels[i..j] + [labels[j]];
    EntriesConcat(labels[i..j], [labels[j]]);
    assert [labels[j]][1..] == [];
    assert Entries([labels[j]]) == labels[j].entries + [];
  }

  /** The walk has kept the labels before i and taken out those from i to seen. */
  ghost predicate Swept<E>(before: seq<Label<E>>, oldest: nat, i: nat, seen: nat, labels: seq<Label<E>>) {
    && i <= seen <= |before| && labels == before[..i] + before[seen..]
    && (forall j | 0 <= j < i :: before[j].epoch >= oldest)
    && (forall j | i <= j < seen :: before[j].epoch < oldest)
  }

  lemma SweepOut<E>(before: seq<Label<E>>, oldest: nat, i: nat, seen: nat, labels: seq<Label<E>>)
    requires Swept(before, oldest, i, seen, labels) && i < |labels| && labels[i].epoch < oldest
    ensures seen < |before| && labels[i] == before[seen]
    ensures Swept(before, oldest, i, seen + 1, Without(labels, i))
  {
    assert labels[i] == before[seen];
    assert labels[i + 1..] == before[seen + 1..];
    assert labels[..i] == before[..i];
  }

  /** A young label behind an old one cannot be. */
  lemma SweepPast<E>(before: seq<Label<E>>, oldest: nat, i: nat, seen: nat, labels: seq<Label<E>>)
    requires Swept(before, oldest, i, seen, labels) && i < |labels| && labels[i].epoch >= oldest && WellAged(before)
    ensures i == seen < |before| && Swept(before, oldest, i + 1, seen + 1, labels)
    ensures before[i..seen] == before[i + 1..seen + 1] == []
  {
    assert labels[i] == before[seen];
    assert before[if i < seen then i else seen].epoch >= before[seen].epoch;
    assert before[..i] + before[i..] == before == before[..i + 1] + before[i + 1..];
  }

  lemma SweepDone<E>(before: seq<Label<E>>, oldest: nat, i: nat, seen: nat, labels: seq<Label<E>>)
    requires Swept(before, oldest, i, seen, labels) && i >= |labels| && WellAged(before)
    ensures i <= |before| && SplitsAt(before, oldest, i) && WellAged(labels)
    ensures labels == before[..i] && before[i..seen] == before[i..]
  {
    assert |labels| == i + |before| - seen;
    assert before[..i] + before[seen..] == before[..i];
  }

  /** Where a cleanup stands: what it kept, what it passed, what it has to give back, and the counters. */
  ghost predicate Sweeping<E>(before: seq<Label<E>>, oldest: nat, i: nat, seen: nat, labels: seq<Label<E>>,
                              freed: seq<E>, count: nat, gone: int) {
    && Swept(before, oldest, i, seen, labels) && freed == Entries(before[i..seen])
    && count == |Entries(labels)| && gone == |freed|
  }

  lemma SweepStart<E>(before: seq<Label<E>>, oldest: nat)
    ensures Sweeping(before, oldest, 0, 0, before, [], |Entries(before)|, 0)
  {
    assert before == before[..0] + before[0..] && before[0..0] == [];
  }

  lemma SweepOutStep<E>(before: seq<Label<E>>, oldest: nat, i: nat, seen: nat, labels: seq<Label<E>>, freed: seq<E>,
                        count: nat, gone: int)
    requires Sweeping(before, oldest, i, seen, labels, freed, count, gone) && i < |labels| && labels[i].epoch < oldest
    ensures var n := |labels[i].entries|;
            && n <= count && seen < |before|
            && Sweeping(before, oldest, i, seen + 1, Without(labels, i), freed + labels[i].entries, count - n, gone + n)
  {
    SweepOut(before, oldest, i, seen, labels);
    OneMore(before, i, seen);
    RemovedEntries(labels, i);
    hide Entries, Swept, Without;
  }

  lemma SweepPastStep<E>(before: seq<Label<E>>, oldest: nat, i: nat, seen: nat, labels: seq<Label<E>>, freed: seq<E>,
                         count: nat, gone: int)
    requires Sweeping(before, oldest, i, seen, labels, freed, count, gone)
    requires i < |labels| && labels[i].epoch >= oldest && WellAged(before)
    ensures seen < |before| && Sweeping(before, oldest, i + 1, seen + 1, labels, freed, count, gone)
  {
    SweepPast(before, oldest, i, seen, labels);
    hide Entries, Swept, WellAged;
  }

  lemma SweepEnd<E>(before: seq<Label<E>>, oldest: nat, i: nat, seen: nat, labels: seq<Label<E>>, freed: seq<E>,
                    count: nat, gone: int)
    requires Sweeping(before, oldest, i, seen, labels, freed, count, gone) && i >= |labels| && WellAged(before)
    ensures i <= |before| && SplitsAt(before, oldest, i) && WellAged(labels) && labels == before[..i]
    ensures freed == Entries(before[i..]) && count == |Entries(labels)| && gone == |freed|
  {
    SweepDone(before, oldest, i, seen, labels);
    hide Entries, WellAged, Swept;
  }

  lemma OneEntryMore<E>(labels: seq<Label<E>>, x: E, e: nat)
    requires WellAged(labels) && (labels != [] ==> labels[0].epoch <= e)
    ensures WellAged(WithEntry(labels, x, e)) && |Entries(WithEntry(labels, x, e))| == |Entries(labels)| + 1
  {
    var _ := WithEntryOk(labels, x, e);
    hide WellAged, Entries, WithEntry;
  }

  class DeletionList<E> {
    /** All labels ever made; the list, and the spare labels that wait to be used again, are linked through them. */
    var memory: seq<Node<Label<E>>>
    var head: Pointer
    var spare: Pointer
    var count: nat
    var deleted: nat
    var added: nat

    /** The labels in use, newest first; where they are; and where the spare ones are. */
    ghost var labels: seq<Label<E>>
    ghost var chain: seq<nat>
    ghost var spares: seq<nat>

    /** Both lists are well linked and share no label; everything that was added is either still here or was deleted. */
    ghost predicate Valid()
      reads this
    {
      && Lists(memory, head, chain, spare, spares, labels)
      && WellAged(labels)
      && count == |Entries(labels)| && added == deleted + count
    }

    constructor ()
      ensures Valid() && labels == [] && added == 0
    {
      memory, head, spare, count, deleted, added := [], None, None, 0, 0, 0;
      labels, chain, spares := [], [], [];
    }

    /** Where an entry recorded now will stand. */
    lemma EntryGoes(x: E, e: nat) returns (n: nat)
      requires Valid() && (labels != [] ==> labels[0].epoch <= e)
      ensures n <= |Entries(labels)|
      ensures Entries(WithEntry(labels, x, e)) == Entries(labels)[..n] + [x] + Entries(labels)[n..]
      ensures WithEntry(labels, x, e) != [] && WithEntry(labels, x, e)[0].epoch == e
    {
      n := WithEntryOk(labels, x, e);
    }

    /** A label for one more entry goes to the front: a spare one if there is one, else a new one. */
    method PushLabel()
      requires Lists(memory, head, chain, spare, spares, labels)
      modifies this`memory, this`head, this`spare, this`labels, this`chain, this`spares
      ensures Lists(memory, head, chain, spare, spares, labels) && labels == [Label([], 0)] + old(labels)
    {
      var x;
      if spare.Some? {
        SpareTaken(memory, head, chain, spare, spares, labels);
        x := spare.value;
        spare := memory[x].next;
        spares := spares[1..];
      } else {
        Grown(memory, head, chain, spare, spares, labels, Node(Label([], 0), None));
        x := |memory|;
        memory := memory + [Node(Label([], 0), None)];
      }
      Pushed(memory, head, chain, spare, spares, labels, x, Label([], 0));
      hide Lists;
      memory := memory[x := Node(Label([], 0), head)];
      head := Some(x);
      chain, labels := [x] + chain, [Label([], 0)] + labels;
    }

    /** Record one more slot to free. */
    method Add(x: E, globalEpoch: nat)
      requires Valid() && (labels != [] ==> labels[0].epoch <= globalEpoch)
      modifies this
      ensures Valid() && labels == WithEntry(old(labels), x, globalEpoch)
      ensures added == old(added) + 1 && deleted == old(deleted)
    {
      hide Entries, Lists, WellAged;
      OneEntryMore(labels, x, globalEpoch);
      NodeInPlace(memory, head, chain, spare, spares, labels, 0);
      count := count + 1;
      if head.None? || |memory[head.value].value.entries| >= LABEL_SIZE {
        PushLabel();
        assert labels[1..] == old(labels);
        NodeInPlace(memory, head, chain, spare, spares, labels, 0);
        assert memory[head.value].value.entries + [x] == [x];
      }
      var l := memory[head.value].value;
      var l' := Label(l.entries + [x], globalEpoch);
      WriteFirst(memory, head, chain, spare, spares, labels, l');
      memory := memory[head.value := memory[head.value].(value := l')];
      labels := [l'] + labels[1..];
      added := added + 1;
    }

    /** Take out the label at x, behind prev; it becomes the first spare one. */
    method Remove(x: nat, prev: Pointer, ghost i: nat)
      requires Lists(memory, head, chain, spare, spares, labels) && i < |chain| == |labels| && x == chain[i]
      requires prev == (if i == 0 then None else Some(chain[i - 1])) && |labels[i].entries| <= count
      modifies this
      ensures Lists(memory, head, chain, spare, spares, labels)
      ensures labels == Without(old(labels), i) && chain == Without(old(chain), i) && spares == [x] + old(spares)
      ensures count == old(count) - old(|labels[i].entries|)
      ensures deleted == old(deleted) + old(|labels[i].entries|) && added == old(added)
    {
      hide Lists, Without;
      NodeInPlace(memory, head, chain, spare, spares, labels, i);
      RemovedOk(memory, head, chain, spare, spares, labels, i, prev);
      if prev.None? {
        head := memory[x].next;
      } else {
        memory := memory[prev.value := memory[prev.value].(next := memory[x].next)];
      }
      count := count - |memory[x].value.entries|;
      memory := memory[x := memory[x].(next := spare)];
      spare := Some(x);
      deleted := deleted + |memory[x].value.entries|;
      chain, spares, labels := Without(chain, i), [x] + spares, Without(labels, i);
    }

    /**
     * Walk the labels from the newest and take out those older than the oldest reader; since labels age towards
     * the tail, what stays is a front part of the list, so only the newest label can have room afterwards.
     */
    method Cleanup(oldest: nat) returns (freed: seq<E>, ghost kept: nat)
      requires Valid()
      modifies this
      ensures Valid() && added == old(added) && deleted == old(deleted) + |freed|
      ensures kept <= old(|labels|) && SplitsAt(old(labels), oldest, kept)
      ensures labels == old(labels)[..kept] && freed == Entries(old(labels)[kept..])
    {
      hide WellAged, Entries, Swept, Lists, Without;
      ghost var before := labels;
      SweepStart(before, oldest);
      NodeInPlace(memory, head, chain, spare, spares, labels, 0);
      freed := [];
      var cur, prev := head, None;
      ghost var i: nat, seen: nat := 0, 0;
      while cur.Some?
        invariant Lists(memory, head, chain, spare, spares, labels) && i <= |chain| == |labels|
        invariant cur == PointerAt(chain, i) && prev == if i == 0 then None else Some(chain[i - 1])
        invariant Sweeping(before, oldest, i, seen, labels, freed, count, deleted - old(deleted)) && seen <= |before|
        invariant added == deleted + count && added == old(added)
        decreases |before| - seen
      {
        NodeInPlace(memory, head, chain, spare, spares, labels, i);
        var next := memory[cur.value].next;
        if memory[cur.value].value.epoch < oldest {
          SweepOutStep(before, oldest, i, seen, labels, freed, count, deleted - old(deleted));
          freed := freed + memory[cur.value].value.entries;
          Remove(cur.value, prev, i);
          NodeInPlace(memory, head, chain, spare, spares, labels, 0);
        } else {
          SweepPastStep(before, oldest, i, seen, labels, freed, count, deleted - old(deleted));
          prev := cur;
          i := i + 1;
        }
        cur := next;
        seen := seen + 1;
      }
      SweepEnd(before, oldest, i, seen, labels, freed, count, deleted - old(deleted));
      kept := i;
    }
  }
}
