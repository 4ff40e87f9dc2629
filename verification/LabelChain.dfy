/**
 * Singly linked lists in memory. A memory is a sequence of nodes, a pointer an index into it; nodes are never given
 * back, they move between the lists.
 */
module LabelChains {
  import opened Wrappers

  type Pointer = Option<nat>

  datatype Node<T> = Node(value: T, next: Pointer)

  /** The pointer to the i-th node of a list, or null behind its end. */
  function PointerAt(chain: seq<nat>, i: nat): Pointer {
    if i < |chain| then Some(chain[i]) else None
  }

  /** From head, the next pointers lead through the nodes of chain and end there. */
  ghost predicate Chained<T>(memory: seq<Node<T>>, head: Pointer, chain: seq<nat>) {
    && head == PointerAt(chain, 0)
    && forall i | 0 <= i < |chain| :: chain[i] < |memory| && memory[chain[i]].next == PointerAt(chain, i + 1)
  }

  /** No node is twice in a list, or in both. */
  ghost predicate Apart(chain: seq<nat>, spares: seq<nat>) {
    && (forall i, j | 0 <= i < j < |chain| :: chain[i] != chain[j])
    && (forall i, j | 0 <= i < j < |spares| :: spares[i] != spares[j])
    && (forall x | x in chain :: x !in spares)
  }

  /** What a list holds. */
  ghost function Values<T>(memory: seq<Node<T>>, chain: seq<nat>): (r: seq<T>)
    requires forall i | 0 <= i < |chain| :: chain[i] < |memory|
    ensures |r| == |chain| && forall i | 0 <= i < |chain| :: r[i] == memory[chain[i]].value
  {
    seq(|chain|, i requires 0 <= i < |chain| => memory[chain[i]].value)
  }

  /** Both lists are well linked and share no node; the first holds these values. */
  ghost predicate Lists<T>(memory: seq<Node<T>>, head: Pointer, chain: seq<nat>, spare: Pointer, spares: seq<nat>,
                           values: seq<T>) {
    && Chained(memory, head, chain) && Chained(memory, spare, spares) && Apart(chain, spares)
    && values == Values(memory, chain)
  }

  /** Writing to a node that is in none of the lists. */
  lemma WriteElsewhere<T>(memory: seq<Node<T>>, head: Pointer, chain: seq<nat>, x: nat, n: Node<T>)
    requires Chained(memory, head, chain) && x < |memory| && x !in chain
    ensures Chained(memory[x := n], head, chain) && Values(memory[x := n], chain) == Values(memory, chain)
  {
  }

  /** Writing a value to the first node. */
  lemma WriteFirst<T>(memory: seq<Node<T>>, head: Pointer, chain: seq<nat>, spare: Pointer, spares: seq<nat>,
                      values: seq<T>, v: T)
    requires Lists(memory, head, chain, spare, spares, values) && chain != []
    ensures Lists(memory[chain[0] := memory[chain[0]].(value := v)], head, chain, spare, spares, [v] + values[1..])
  {
    var memory' := memory[chain[0] := memory[chain[0]].(value := v)];
    assert chain[0] in chain;
    WriteElsewhere(memory, spare, spares, chain[0], memory[chain[0]].(value := v));
    assert Values(memory', chain) == [v] + values[1..];
  }

  /** A new node, not in any list yet. */
  lemma Grown<T>(memory: seq<Node<T>>, head: Pointer, chain: seq<nat>, spare: Pointer, spares: seq<nat>, values: seq<T>,
                 n: Node<T>)
    requires Lists(memory, head, chain, spare, spares, values)
    ensures Lists(memory + [n], head, chain, spare, spares, values) && |memory| !in chain && |memory| !in spares
  {
    assert Values(memory + [n], chain) == values;
  }

  /** Taking the first spare node out. */
  lemma SpareTaken<T>(memory: seq<Node<T>>, head: Pointer, chain: seq<nat>, spare: Pointer, spares: seq<nat>,
                      values: seq<T>)
    requires Lists(memory, head, chain, spare, spares, values) && spare.Some?
    ensures spares != [] && spares[0] == spare.value < |memory| && spare.value !in chain && spare.value !in spares[1..]
    ensures Lists(memory, head, chain, memory[spare.value].next, spares[1..], values)
  {
    var rest := spares[1..];
    assert spares[0] in spares;
    forall i | 0 <= i < |rest| ensures rest[i] < |memory| && memory[rest[i]].next == PointerAt(rest, i + 1) {
      assert rest[i] == spares[i + 1];
    }
    assert forall x | x in rest :: x in spares;
  }

  /** Linking a node that is in no list in at the front. */
  lemma Pushed<T>(memory: seq<Node<T>>, head: Pointer, chain: seq<nat>, spare: Pointer, spares: seq<nat>,
                  values: seq<T>, x: nat, v: T)
    requires Lists(memory, head, chain, spare, spares, values) && x < |memory| && x !in chain && x !in spares
    ensures Lists(memory[x := Node(v, head)], Some(x), [x] + chain, spare, spares, [v] + values)
  {
    var memory', chain' := memory[x := Node(v, head)], [x] + chain;
    WriteElsewhere(memory, head, chain, x, Node(v, head));
    WriteElsewhere(memory, spare, spares, x, Node(v, head));
    forall i | 0 <= i < |chain'| ensures chain'[i] < |memory'| && memory'[chain'[i]].next == PointerAt(chain', i + 1) {
      if i > 0 {
        assert chain'[i] == chain[i - 1] && chain[i - 1] in chain;
      }
    }
    ApartPushed(chain, spares, x);
    assert Values(memory', chain') == [v] + values;
    hide Apart;
  }

  /** A list without its i-th element. */
  function Without<T>(s: seq<T>, i: nat): (r: seq<T>)
    requires i < |s|
    ensures |r| == |s| - 1
  {
    s[..i] + s[i + 1..]
  }

  /** Memory after the predecessor of a node was made to skip it. */
  function Skipped<T>(memory: seq<Node<T>>, x: nat, prev: Pointer): seq<Node<T>>
    requires x < |memory|
  {
    if prev.None? || prev.value >= |memory| then memory
    else memory[prev.value := memory[prev.value].(next := memory[x].next)]
  }

  /** Making the predecessor of the i-th node, or the head pointer, skip it takes just that node out of the list. */
  lemma Unlinked<T>(memory: seq<Node<T>>, head: Pointer, chain: seq<nat>, spare: Pointer, spares: seq<nat>,
                    values: seq<T>, i: nat, prev: Pointer)
    requires Lists(memory, head, chain, spare, spares, values) && i < |chain|
    requires prev == if i == 0 then None else Some(chain[i - 1])
    ensures var head' := if prev.None? then memory[chain[i]].next else head;
            && Lists(Skipped(memory, chain[i], prev), head', Without(chain, i), spare, spares, Without(values, i))
            && chain[i] !in Without(chain, i) && chain[i] !in spares
            && Skipped(memory, chain[i], prev)[chain[i]] == memory[chain[i]]
  {
    assert chain[i] in chain;
    if i > 0 {
      assert chain[i - 1] in chain;
      WriteElsewhere(memory, spare, spares, chain[i - 1], memory[chain[i - 1]].(next := memory[chain[i]].next));
    }
    SkipOk(memory, head, chain, i, prev);
    ApartWithout(chain, spares, i);
    ValuesWithout(memory, chain, i, prev);
    hide Apart, Without, Skipped;
  }

  lemma ApartWithout(chain: seq<nat>, spares: seq<nat>, i: nat)
    requires Apart(chain, spares) && i < |chain|
    ensures Apart(Without(chain, i), spares) && chain[i] !in Without(chain, i) && chain[i] !in spares
  {
    var rest := Without(chain, i);
    assert forall j | 0 <= j < |rest| :: rest[j] == chain[if j < i then j else j + 1];
    assert chain[i] in chain && forall x | x in rest :: x in chain;
  }

  lemma ValuesWithout<T>(memory: seq<Node<T>>, chain: seq<nat>, i: nat, prev: Pointer)
    requires i < |chain| && forall j | 0 <= j < |chain| :: chain[j] < |memory|
    ensures var memory', rest := Skipped(memory, chain[i], prev), Without(chain, i);
            && (forall j | 0 <= j < |rest| :: rest[j] < |memory'|)
            && Values(memory', rest) == Without(Values(memory, chain), i)
            && (prev != Some(chain[i]) ==> memory'[chain[i]] == memory[chain[i]])
  {
    var rest := Without(chain, i);
    assert forall j | 0 <= j < |rest| :: rest[j] == chain[if j < i then j else j + 1];
  }

  lemma SkipOk<T>(memory: seq<Node<T>>, head: Pointer, chain: seq<nat>, i: nat, prev: Pointer)
    requires Chained(memory, head, chain) && Apart(chain, []) && i < |chain|
    requires prev == if i == 0 then None else Some(chain[i - 1])
    ensures Chained(Skipped(memory, chain[i], prev),
                    if prev.None? then memory[chain[i]].next else head, Without(chain, i))
  {
    var memory', rest := Skipped(memory, chain[i], prev), Without(chain, i);
    forall j | 0 <= j < |rest| ensures rest[j] < |memory'| && memory'[rest[j]].next == PointerAt(rest, j + 1) {
      var k := if j < i then j else j + 1;
      assert rest[j] == chain[k];
    }
  }

  /** A node taken out becomes the first spare one. */
  lemma Returned<T>(memory: seq<Node<T>>, head: Pointer, chain: seq<nat>, spare: Pointer, spares: seq<nat>,
                    values: seq<T>, x: nat)
    requires Lists(memory, head, chain, spare, spares, values) && x < |memory| && x !in chain && x !in spares
    ensures Lists(memory[x := memory[x].(next := spare)], head, chain, Some(x), [x] + spares, values)
  {
    var n := memory[x].(next := spare);
    var memory', spares' := memory[x := n], [x] + spares;
    WriteElsewhere(memory, head, chain, x, n);
    WriteElsewhere(memory, spare, spares, x, n);
    forall i | 0 <= i < |spares'|
      ensures spares'[i] < |memory'| && memory'[spares'[i]].next == PointerAt(spares', i + 1)
    {
      if i > 0 {
        assert spares'[i] == spares[i - 1] && spares[i - 1] in spares;
      }
    }
    ApartPushed(chain, spares, x);
  }

  lemma ApartPushed(chain: seq<nat>, spares: seq<nat>, x: nat)
    requires Apart(chain, spares) && x !in chain && x !in spares
    ensures Apart(chain, [x] + spares) && Apart([x] + chain, spares)
  {
    assert forall i | 0 <= i < |spares| :: ([x] + spares)[i + 1] == spares[i];
    assert forall i | 0 <= i < |chain| :: ([x] + chain)[i + 1] == chain[i];
  }

  /** The node in place i. */
  lemma NodeInPlace<T>(memory: seq<Node<T>>, head: Pointer, chain: seq<nat>, spare: Pointer, spares: seq<nat>,
                       values: seq<T>, i: nat)
    requires Lists(memory, head, chain, spare, spares, values)
    ensures |values| == |chain|
    ensures i < |chain| ==> chain[i] < |memory| && memory[chain[i]].value == values[i]
    ensures i < |chain| ==> memory[chain[i]].next == PointerAt(Without(chain, i), i) == PointerAt(chain, i + 1)
    ensures 0 < i < |chain| ==> Without(chain, i)[i - 1] == chain[i - 1]
    ensures head == PointerAt(chain, 0)
  {
  }

  /** Memory after a node was taken out of the list and made the first spare one. */
  function Removed<T>(memory: seq<Node<T>>, x: nat, prev: Pointer, spare: Pointer): seq<Node<T>>
    requires x < |memory|
  {
    var m := Skipped(memory, x, prev);
    m[x := m[x].(next := spare)]
  }

  lemma RemovedOk<T>(memory: seq<Node<T>>, head: Pointer, chain: seq<nat>, spare: Pointer, spares: seq<nat>,
                     values: seq<T>, i: nat, prev: Pointer)
    requires Lists(memory, head, chain, spare, spares, values) && i < |chain|
    requires prev == if i == 0 then None else Some(chain[i - 1])
    ensures chain[i] < |memory| && (prev.Some? ==> prev.value < |memory|)
    ensures Lists(Removed(memory, chain[i], prev, spare), if prev.None? then memory[chain[i]].next else head,
                  Without(chain, i), Some(chain[i]), [chain[i]] + spares, Without(values, i))
    ensures Skipped(memory, chain[i], prev)[chain[i]] == memory[chain[i]]
  {
    Unlinked(memory, head, chain, spare, spares, values, i, prev);
    Returned(Skipped(memory, chain[i], prev), if prev.None? then memory[chain[i]].next else head, Without(chain, i),
             spare, spares, Without(values, i), chain[i]);
  }
}
