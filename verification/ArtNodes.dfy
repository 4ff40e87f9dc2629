/** Inner nodes: the sorted arrays of N4 and N16, the direct array of N256, and the prefix a node stores. */
module ArtNodes {
  import opened Primes
  import opened TinyPtrs
  import opened Bytes
  import opened ArtShape

  const LEAF: nat := 0
  const N4_TAG: nat := 1
  const N16_TAG: nat := 2
  const N256_TAG: nat := 3

  /** The arrays have their full size; entries from count on are leftovers. N16 keeps its keys with the sign flipped. */
  datatype Body =
    | N4(count: nat, keys: seq<Byte>, kids: seq<TinyPtr>)
    | N16(count: nat, keys: seq<Byte>, kids: seq<TinyPtr>)
    | N256(count: nat, kids: seq<TinyPtr>)

  datatype Node = Node(id: nat, prefixLength: nat, prefix: seq<Byte>, body: Body)

  function Tag(b: Body): nat {
    match b case N4(_, _, _) => N4_TAG case N16(_, _, _) => N16_TAG case N256(_, _) => N256_TAG
  }

  function FlipSign(key: Byte): Byte {
    if key < 128 then key + 128 else key - 128
  }

  /** The order of a key array: bytes as they are in N4, read as signed numbers by the vector comparison of N16. */
  function Rank(signed: bool, x: Byte): int {
    if signed && x >= 128 then x - 256 else x
  }

  /** Flipping the sign turns unsigned order into signed order, and undoes itself. */
  lemma FlipKeepsOrder(a: Byte, b: Byte)
    ensures Rank(true, FlipSign(a)) < Rank(true, FlipSign(b)) <==> a < b
    ensures FlipSign(FlipSign(a)) == a
    ensures FlipSign(a) == FlipSign(b) <==> a == b
  {
  }

  predicate SortedBy(keys: seq<Byte>, n: nat, signed: bool)
    requires n <= |keys|
  {
    forall i, j | 0 <= i < j < n :: Rank(signed, keys[i]) < Rank(signed, keys[j])
  }

  predicate Live(kids: seq<TinyPtr>, n: nat)
    requires n <= |kids|
  {
    forall i | 0 <= i < n :: kids[i].Ptr?
  }

  predicate WellFormed(b: Body) {
    match b
    case N4(count, keys, kids) =>
      |keys| == |kids| == 4 && count <= 4 && SortedBy(keys, count, false) && Live(kids, count)
    case N16(count, keys, kids) =>
      |keys| == |kids| == 16 && count <= 16 && SortedBy(keys, count, true) && Live(kids, count)
    case N256(count, kids) =>
      |kids| == 256 && forall i | 0 <= i < 256 :: kids[i] != Tagged
  }

  /** The pointer stored for x among the first n entries, or null. */
  ghost function Entry(keys: seq<Byte>, kids: seq<TinyPtr>, n: nat, x: Byte): (p: TinyPtr)
    requires n <= |keys| && n <= |kids|
  {
    if exists i :: 0 <= i < n && keys[i] == x then
      var i :| 0 <= i < n && keys[i] == x;
      kids[i]
    else Null
  }

  /** What a node means: the pointer under each byte. */
  ghost function Child(b: Body, key: Byte): (p: TinyPtr)
    requires WellFormed(b)
  {
    match b
    case N4(count, keys, kids) => Entry(keys, kids, count, key)
    case N16(count, keys, kids) => Entry(keys, kids, count, FlipSign(key))
    case N256(count, kids) => kids[key]
  }

  lemma EntryAt(keys: seq<Byte>, kids: seq<TinyPtr>, n: nat, signed: bool, i: nat)
    requires n <= |keys| && n <= |kids| && SortedBy(keys, n, signed) && i < n
    ensures Entry(keys, kids, n, keys[i]) == kids[i]
  {
    var j :| 0 <= j < n && keys[j] == keys[i] && Entry(keys, kids, n, keys[i]) == kids[j];
  }

  function IsFull(b: Body): bool {
    match b case N4(count, _, _) => count == 4 case N16(count, _, _) => count == 16 case N256(_, _) => false
  }

  // ----- inserting into the sorted arrays

  /** Shift the entries from pos on by one and put the new one in the gap. */
  function Shifted<T>(s: seq<T>, pos: nat, count: nat, x: T): (r: seq<T>)
    requires pos <= count < |s|
    ensures |r| == |s|
    ensures forall i | 0 <= i < |s| ::
              r[i] == if i < pos then s[i] else if i == pos then x else if i <= count then s[i - 1] else s[i]
  {
    s[..pos] + [x] + s[pos..count] + s[count + 1..]
  }

  /** Position pos is where x belongs among the first n keys. */
  predicate Gap(keys: seq<Byte>, n: nat, signed: bool, pos: nat, x: Byte)
    requires pos <= n <= |keys|
  {
    && (forall i | 0 <= i < pos :: Rank(signed, keys[i]) < Rank(signed, x))
    && (forall i | pos <= i < n :: Rank(signed, x) < Rank(signed, keys[i]))
  }

  lemma ShiftedSorted(keys: seq<Byte>, n: nat, signed: bool, pos: nat, x: Byte)
    requires pos <= n < |keys| && SortedBy(keys, n, signed) && Gap(keys, n, signed, pos, x)
    ensures SortedBy(Shifted(keys, pos, n, x), n + 1, signed)
  {
  }

  lemma ShiftedEntry(keys: seq<Byte>, kids: seq<TinyPtr>, n: nat, signed: bool, pos: nat, x: Byte, p: TinyPtr, y: Byte)
    requires |keys| == |kids| && pos <= n < |keys| && SortedBy(keys, n, signed) && Gap(keys, n, signed, pos, x)
    ensures Entry(Shifted(keys, pos, n, x), Shifted(kids, pos, n, p), n + 1, y)
            == if y == x then p else Entry(keys, kids, n, y)
  {
    var keys', kids' := Shifted(keys, pos, n, x), Shifted(kids, pos, n, p);
    ShiftedSorted(keys, n, signed, pos, x);
    if y == x {
      EntryAt(keys', kids', n + 1, signed, pos);
    } else if i: nat :| i < n && keys[i] == y {
      ShiftedOldEntry(keys, kids, n, signed, pos, x, p, i);
    } else {
      assert forall i | 0 <= i < n + 1 :: keys'[i] != y;
    }
  }

  lemma ShiftedOldEntry(keys: seq<Byte>, kids: seq<TinyPtr>, n: nat, signed: bool, pos: nat, x: Byte, p: TinyPtr,
                        i: nat)
    requires |keys| == |kids| && pos <= n < |keys| && SortedBy(keys, n, signed) && i < n
    requires SortedBy(Shifted(keys, pos, n, x), n + 1, signed)
    ensures Entry(Shifted(keys, pos, n, x), Shifted(kids, pos, n, p), n + 1, keys[i]) == Entry(keys, kids, n, keys[i])
  {
    EntryAt(keys, kids, n, signed, i);
    EntryAt(Shifted(keys, pos, n, x), Shifted(kids, pos, n, p), n + 1, signed, if i < pos then i else i + 1);
  }

  /** Where a new key goes: behind every smaller key. */
  method FindGap(keys: seq<Byte>, n: nat, signed: bool, x: Byte) returns (pos: nat)
    requires n <= |keys| && SortedBy(keys, n, signed) && forall i | 0 <= i < n :: keys[i] != x
    ensures pos <= n && Gap(keys, n, signed, pos, x)
  {
    pos := 0;
    while pos < n && Rank(signed, keys[pos]) < Rank(signed, x)
      invariant pos <= n
      invariant forall i | 0 <= i < pos :: Rank(signed, keys[i]) < Rank(signed, x)
    {
      pos := pos + 1;
    }
    if pos < n {
      assert Rank(signed, x) < Rank(signed, keys[pos]);
    }
  }

  /** b' is b with the pointer under one byte replaced. */
  ghost predicate ChildSet(b: Body, b': Body, key: Byte, p: TinyPtr) {
    && WellFormed(b) && WellFormed(b') && Tag(b') == Tag(b)
    && forall y :: Child(b', y) == if y == key then p else Child(b, y)
  }

  /** Add a child under a byte that has none; the order of the arrays is kept and no other child moves. */
  method Insert(b: Body, key: Byte, p: TinyPtr) returns (b': Body)
    requires WellFormed(b) && !IsFull(b) && p.Ptr? && Child(b, key) == Null
    ensures ChildSet(b, b', key, p) && b'.count == (b.count + 1) % 256
  {
    match b
    case N4(count, keys, kids) =>
      NullMeansAbsent(keys, kids, count, false, key);
      var pos := FindGap(keys, count, false, key);
      b' := N4(count + 1, Shifted(keys, pos, count, key), Shifted(kids, pos, count, p));
      InsertedN4(b, pos, key, p, b');
    case N16(count, keys, kids) =>
      var x := FlipSign(key);
      NullMeansAbsent(keys, kids, count, true, x);
      var pos := FindGap(keys, count, true, x);
      b' := N16(count + 1, Shifted(keys, pos, count, x), Shifted(kids, pos, count, p));
      InsertedN16(b, pos, key, p, b');
    case N256(count, kids) =>
      b' := N256((count + 1) % 256, kids[key := p]);
  }

  lemma InsertedN4(b: Body, pos: nat, key: Byte, p: TinyPtr, b': Body)
    requires WellFormed(b) && b.N4? && !IsFull(b) && p.Ptr? && pos <= b.count && Gap(b.keys, b.count, false, pos, key)
    requires b' == N4(b.count + 1, Shifted(b.keys, pos, b.count, key), Shifted(b.kids, pos, b.count, p))
    ensures ChildSet(b, b', key, p)
  {
    ShiftedSorted(b.keys, b.count, false, pos, key);
    forall y ensures Child(b', y) == if y == key then p else Child(b, y) {
      ShiftedEntry(b.keys, b.kids, b.count, false, pos, key, p, y);
    }
  }

  lemma InsertedN16(b: Body, pos: nat, key: Byte, p: TinyPtr, b': Body)
    requires WellFormed(b) && b.N16? && !IsFull(b) && p.Ptr? && pos <= b.count
    requires Gap(b.keys, b.count, true, pos, FlipSign(key))
    requires b' == N16(b.count + 1, Shifted(b.keys, pos, b.count, FlipSign(key)), Shifted(b.kids, pos, b.count, p))
    ensures ChildSet(b, b', key, p)
  {
    ShiftedSorted(b.keys, b.count, true, pos, FlipSign(key));
    forall y ensures Child(b', y) == if y == key then p else Child(b, y) {
      FlipKeepsOrder(y, key);
      ShiftedEntry(b.keys, b.kids, b.count, true, pos, FlipSign(key), p, FlipSign(y));
    }
  }

  lemma NullMeansAbsent(keys: seq<Byte>, kids: seq<TinyPtr>, n: nat, signed: bool, x: Byte)
    requires n <= |keys| && n <= |kids| && SortedBy(keys, n, signed) && Live(kids, n)
    ensures Entry(keys, kids, n, x) == Null <==> forall i | 0 <= i < n :: keys[i] != x
  {
    if i: nat :| i < n && keys[i] == x {
      EntryAt(keys, kids, n, signed, i);
    }
  }

  method FindEntry(keys: seq<Byte>, kids: seq<TinyPtr>, n: nat, ghost signed: bool, x: Byte)
    returns (found: bool, pos: nat)
    requires n <= |keys| && n <= |kids| && SortedBy(keys, n, signed) && Live(kids, n)
    ensures found ==> pos < n && keys[pos] == x && kids[pos] == Entry(keys, kids, n, x)
    ensures !found ==> Entry(keys, kids, n, x) == Null && forall i | 0 <= i < n :: keys[i] != x
  {
    pos := 0;
    while pos < n
      invariant pos <= n
      invariant forall i | 0 <= i < pos :: keys[i] != x
    {
      if keys[pos] == x {
        EntryAt(keys, kids, n, signed, pos);
        return true, pos;
      }
      pos := pos + 1;
    }
    return false, pos;
  }

  method GetChild(b: Body, key: Byte) returns (p: TinyPtr)
    requires WellFormed(b)
    ensures p == Child(b, key)
  {
    match b
    case N4(count, keys, kids) =>
      var found, pos := FindEntry(keys, kids, count, false, key);
      p := if found then kids[pos] else Null;
    case N16(count, keys, kids) =>
      var found, pos := FindEntry(keys, kids, count, true, FlipSign(key));
      p := if found then kids[pos] else Null;
    case N256(count, kids) =>
      p := kids[key];
  }

  lemma ReplacedEntry(keys: seq<Byte>, kids: seq<TinyPtr>, n: nat, signed: bool, pos: nat, p: TinyPtr, y: Byte)
    requires n <= |keys| && n <= |kids| && SortedBy(keys, n, signed) && pos < n
    ensures Entry(keys, kids[pos := p], n, y) == if y == keys[pos] then p else Entry(keys, kids, n, y)
  {
    if i: nat :| i < n && keys[i] == y {
      EntryAt(keys, kids, n, signed, i);
      EntryAt(keys, kids[pos := p], n, signed, i);
    }
  }

  /** Redirect the edge under a byte. */
  method Change(b: Body, key: Byte, p: TinyPtr) returns (b': Body)
    requires WellFormed(b) && p.Ptr? && Child(b, key) != Null
    ensures ChildSet(b, b', key, p) && b'.count == b.count
  {
    match b
    case N4(count, keys, kids) =>
      var _, pos := FindEntry(keys, kids, count, false, key);
      b' := N4(count, keys, kids[pos := p]);
      forall y ensures Child(b', y) == if y == key then p else Child(b, y) {
        ReplacedEntry(keys, kids, count, false, pos, p, y);
      }
    case N16(count, keys, kids) =>
      var _, pos := FindEntry(keys, kids, count, true, FlipSign(key));
      b' := N16(count, keys, kids[pos := p]);
      forall y ensures Child(b', y) == if y == key then p else Child(b, y) {
        FlipKeepsOrder(y, key);
        ReplacedEntry(keys, kids, count, true, pos, p, FlipSign(y));
      }
    case N256(count, kids) =>
      b' := N256(count, kids[key := p]);
  }

  function Zeros<T>(n: nat, x: T): (s: seq<T>)
    ensures |s| == n && forall i | 0 <= i < n :: s[i] == x
  {
    seq(n, _ => x)
  }

  /** What a freshly constructed node of each kind holds. */
  function EmptyN4(): (b: Body)
    ensures WellFormed(b) && forall y :: Child(b, y) == Null
  {
    N4(0, Zeros(4, 0), Zeros(4, Null))
  }

  function EmptyN16(): (b: Body)
    ensures WellFormed(b) && forall y :: Child(b, y) == Null
  {
    N16(0, Zeros(16, 0), Zeros(16, Null))
  }

  function EmptyN256(): (b: Body)
    ensures WellFormed(b) && forall y :: Child(b, y) == Null
  {
    N256(0, Zeros(256, Null))
  }

  // ----- growing

  /** The next bigger node, empty; N256 never fills up. */
  function Bigger(b: Body): (r: Body)
    requires !b.N256?
    ensures WellFormed(r) && (forall y :: Child(r, y) == Null) && r.count == 0 && Tag(r) == Tag(b) + 1
  {
    if b.N4? then EmptyN16() else EmptyN256()
  }

  /** The first i entries of b have been copied to r. */
  ghost predicate Copied(b: Body, i: nat, r: Body) {
    && !b.N256? && i <= b.count && i <= |b.keys| && i <= |b.kids|
    && WellFormed(r) && Tag(r) == Tag(b) + 1 && r.count == i
    && forall y :: Child(r, y) == Entry(b.keys, b.kids, i, StoredKey(b, y))
  }

  /** Copy every entry of a full node into the next bigger kind. */
  method CopyToBigger(b: Body) returns (r: Body)
    requires WellFormed(b) && IsFull(b)
    ensures WellFormed(r) && Tag(r) == Tag(b) + 1 && r.count == b.count && !IsFull(r)
    ensures forall y :: Child(r, y) == Child(b, y)
  {
    r := Bigger(b);
    var i := 0;
    assert Copied(b, 0, r);
    while i < b.count
      invariant Copied(b, i, r)
    {
      r := CopyEntry(b, i, r);
      i := i + 1;
    }
  }

  method CopyEntry(b: Body, i: nat, r: Body) returns (r': Body)
    requires WellFormed(b) && i < b.count && Copied(b, i, r)
    ensures Copied(b, i + 1, r')
  {
    var key := StoredKey(b, b.keys[i]);
    FlipKeepsOrder(b.keys[i], b.keys[i]);
    assert StoredKey(b, key) == b.keys[i];
    NullMeansAbsent(b.keys, b.kids, i, b.N16?, b.keys[i]);
    assert Child(r, key) == Null;
    r' := Insert(r, key, b.kids[i]);
    forall y ensures Child(r', y) == Entry(b.keys, b.kids, i + 1, StoredKey(b, y)) {
      hide WellFormed, Child, Entry;
      FlipKeepsOrder(y, key);
      OneMoreEntry(b.keys, b.kids, i, b.N16?, StoredKey(b, y));
      assert Child(r', y) == if y == key then b.kids[i] else Child(r, y);
    }
  }

  /** How a byte is written in the key array; reading it back is the same function. */
  function StoredKey(b: Body, key: Byte): Byte {
    if b.N16? then FlipSign(key) else key
  }

  lemma OneMoreEntry(keys: seq<Byte>, kids: seq<TinyPtr>, i: nat, signed: bool, x: Byte)
    requires i < |keys| && i < |kids| && SortedBy(keys, i + 1, signed)
    ensures Entry(keys, kids, i + 1, x) == if x == keys[i] then kids[i] else Entry(keys, kids, i, x)
  {
    EntryAt(keys, kids, i + 1, signed, i);
    if j: nat :| j < i && keys[j] == x {
      EntryAt(keys, kids, i, signed, j);
      EntryAt(keys, kids, i + 1, signed, j);
    }
  }

  // ----- any child, a leaf if there is one

  method GetAnyChild(b: Body) returns (p: TinyPtr, key: Byte)
    requires WellFormed(b) && exists y :: Child(b, y) != Null
    ensures p != Null && p == Child(b, key)
    ensures forall y :: Child(b, y) != Null && Child(b, y).special == LEAF ==> p.special == LEAF
  {
    match b
    case N4(count, keys, kids) =>
      NonEmpty(b);
      p, key := AnyEntry(keys, kids, count, false);
      forall y | Child(b, y) != Null && Child(b, y).special == LEAF ensures p.special == LEAF {
        PresentEntry(keys, kids, count, false, y);
      }
    case N16(count, keys, kids) =>
      NonEmpty(b);
      var x;
      p, x := AnyEntry(keys, kids, count, true);
      key := FlipSign(x);
      FlipKeepsOrder(x, x);
      forall y | Child(b, y) != Null && Child(b, y).special == LEAF ensures p.special == LEAF {
        PresentEntry(keys, kids, count, true, FlipSign(y));
      }
    case N256(count, kids) =>
      p, key := Null, 0;
      var i := 0;
      while i < 256
        invariant i <= 256
        invariant p == Null ==> forall j | 0 <= j < i :: kids[j] == Null
        invariant p != Null ==> p == kids[key]
        invariant forall j | 0 <= j < i && kids[j] != Null :: kids[j].special != LEAF
      {
        if kids[i] != Null {
          p, key := kids[i], i;
          if kids[i].special == LEAF {
            return;
          }
        }
        i := i + 1;
      }
  }

  lemma NonEmpty(b: Body)
    requires WellFormed(b) && !b.N256? && exists y :: Child(b, y) != Null
    ensures b.count > 0
  {
  }

  lemma PresentEntry(keys: seq<Byte>, kids: seq<TinyPtr>, n: nat, signed: bool, x: Byte)
    requires n <= |keys| && n <= |kids| && Entry(keys, kids, n, x) != Null
    ensures exists i :: 0 <= i < n && Entry(keys, kids, n, x) == kids[i]
  {
  }

  /** N4 falls back to its last child and N16 to its first; both prefer the first leaf. */
  method AnyEntry(keys: seq<Byte>, kids: seq<TinyPtr>, n: nat, n16: bool) returns (p: TinyPtr, x: Byte)
    requires 0 < n <= |keys| && n <= |kids| && SortedBy(keys, n, n16) && Live(kids, n)
    ensures p != Null && p == Entry(keys, kids, n, x)
    ensures forall i | 0 <= i < n && kids[i].special == LEAF :: p.special == LEAF
  {
    var i := 0;
    while i < n
      invariant i <= n
      invariant forall j | 0 <= j < i :: kids[j].special != LEAF
    {
      if kids[i].special == LEAF {
        EntryAt(keys, kids, n, n16, i);
        return kids[i], keys[i];
      }
      i := i + 1;
    }
    var at := if n16 then 0 else n - 1;
    EntryAt(keys, kids, n, n16, at);
    return kids[at], keys[at];
  }
}
