/** How many buckets a table of a wanted capacity gets. */
module TableSizing {
  import opened Wrappers
  import opened Primes
  import opened PrimeTable
  import opened TinyPtrs
  import opened DerefTables

  /** The share of slots that can be filled before an allocation is likely to fail, by slots per bucket. */
  function LoadFactor(entries: nat): (f: real)
    requires entries >= 7
    ensures 0.0 < f <= 1.0
  {
    if entries >= 255 then 1.0
    else if entries >= 127 then 0.95
    else if entries >= 63 then 0.90
    else if entries >= 31 then 0.82
    else if entries >= 15 then 0.70
    else 0.45
  }

  /** The buckets that have the slots; their number has 32 bits. */
  function Buckets(capacity: nat, entries: nat): (n: nat)
    requires entries > 0
  {
    (capacity + entries - 1) % TWO_64 / entries % TWO_32
  }

  /** The number of buckets asked for: more by the load factor. */
  function Requested(capacity: nat, entries: nat): (n: nat)
    requires entries >= 7
  {
    (Buckets(capacity, entries) as real / LoadFactor(entries)).Floor
  }

  /** The least number of buckets that have the slots. */
  predicate Fewest(capacity: nat, entries: nat, n: nat) {
    capacity <= n * entries < capacity + entries
  }

  /** r is n divided by the load factor, in percent, and rounded down. */
  predicate ByLoadFactor(entries: nat, n: nat, r: nat) {
    var percent := if entries >= 255 then 100 else if entries >= 127 then 95 else if entries >= 63 then 90
                   else if entries >= 31 then 82 else if entries >= 15 then 70 else 45;
    percent * r <= 100 * n < percent * (r + 1)
  }

  /** What is asked for are the fewest buckets that have the slots, and more by the load factor. */
  lemma BucketsAskedFor(capacity: nat, entries: nat, n: nat)
    requires 7 <= entries && capacity + entries <= TWO_64 && n < TWO_32 && Fewest(capacity, entries, n)
    ensures ByLoadFactor(entries, n, Requested(capacity, entries))
  {
    hide Fewest, ByLoadFactor, LoadFactor;
    RoundedUp(capacity, entries);
    OnlyOne(capacity, entries, n, (capacity + entries - 1) / entries);
    NoWrap(capacity, entries);
    hide Buckets;
    Enlarged(n, entries);
  }

  lemma OnlyOne(capacity: nat, entries: nat, m: nat, n: nat)
    requires Fewest(capacity, entries, m) && Fewest(capacity, entries, n) && entries > 0
    ensures m == n
  {
    if m < n {
      MulMono(m + 1, n, entries);
    } else if n < m {
      MulMono(n + 1, m, entries);
    }
  }

  lemma Enlarged(n: nat, entries: nat)
    requires entries >= 7
    ensures n <= (n as real / LoadFactor(entries)).Floor
    ensures ByLoadFactor(entries, n, (n as real / LoadFactor(entries)).Floor)
  {
    var f := LoadFactor(entries);
    if entries < 15 {
      Share(n, f, 45);
    } else if entries < 31 {
      Share(n, f, 70);
    } else if entries < 63 {
      Share(n, f, 82);
    } else if entries < 127 {
      Share(n, f, 90);
    } else if entries < 255 {
      Share(n, f, 95);
    }
  }

  lemma NoWrap(capacity: nat, entries: nat)
    requires 0 < entries && capacity + entries <= TWO_64 && (capacity + entries - 1) / entries < TWO_32
    ensures Buckets(capacity, entries) == (capacity + entries - 1) / entries
  {
  }

  lemma Share(n: nat, f: real, percent: nat)
    requires f == percent as real / 100.0 && 0 < percent <= 100
    ensures var r := (n as real / f).Floor; n <= r && percent * r <= 100 * n < percent * (r + 1)
  {
    var x := n as real / f;
    Divided(n as real, f);
    var r := x.Floor;
    Rounded(n, x, f, r as real, (r + 1) as real);
    Compared(r, r as real, n, percent, f);
    Compared(r + 1, (r + 1) as real, n, percent, f);
  }

  lemma Rounded(n: nat, x: real, f: real, lower: real, upper: real)
    requires 0.0 < f <= 1.0 && x >= 0.0 && x * f == n as real && lower <= x < upper
    ensures n as real <= x && lower * f <= n as real < upper * f
  {
    Shrunk(x, f);
    Stretched(lower, x, f);
    Above(x, upper, f, n as real);
  }

  lemma Compared(r: nat, x: real, n: nat, percent: nat, f: real)
    requires f == percent as real / 100.0 && x == r as real
    ensures x * f <= n as real <==> percent * r <= 100 * n
  {
    assert 100.0 * (r as real * f) == (percent * r) as real;
    assert 100.0 * n as real == (100 * n) as real;
  }

  /** The buckets asked for have room for the capacity, the load factor being at most one. */
  lemma EnoughBuckets(capacity: nat, entries: nat)
    requires 7 <= entries < TWO_32 && (capacity + entries - 1) / entries < TWO_32
    ensures capacity <= Requested(capacity, entries) * entries
  {
    BucketsHold(capacity, entries);
    hide LoadFactor, Buckets;
    Enlarged(Buckets(capacity, entries), entries);
    MulMono(Buckets(capacity, entries), Requested(capacity, entries), entries);
  }

  lemma BucketsHold(capacity: nat, entries: nat)
    requires 7 <= entries < TWO_32 && (capacity + entries - 1) / entries < TWO_32
    ensures capacity <= Buckets(capacity, entries) * entries
  {
    hide Fewest;
    RoundedUp(capacity, entries);
    Below(capacity + entries - 1, entries);
    assert Fewest(capacity, entries, Buckets(capacity, entries));
    FewestHold(capacity, entries, Buckets(capacity, entries));
  }

  lemma FewestHold(capacity: nat, entries: nat, n: nat)
    requires Fewest(capacity, entries, n)
    ensures capacity <= n * entries
  {
  }

  lemma Divided(b: real, f: real)
    requires f > 0.0 && b >= 0.0
    ensures b / f * f == b && f * (b / f) == b && b / f >= 0.0
  {
  }

  lemma Shrunk(x: real, f: real)
    requires 0.0 <= f <= 1.0 && x >= 0.0
    ensures x * f <= x
  {
  }

  lemma Stretched(a: real, b: real, c: real)
    requires a <= b && c >= 0.0
    ensures a * c <= b * c
  {
  }

  lemma Above(a: real, b: real, c: real, p: real)
    requires a < b && c > 0.0 && a * c == p
    ensures p < b * c
  {
    assert (b - a) * c > 0.0;
  }

  lemma RoundedUp(c: nat, n: nat)
    requires n > 0
    ensures Fewest(c, n, (c + n - 1) / n)
  {
  }

  lemma Below(x: nat, n: nat)
    requires 0 < n < TWO_32 && x / n < TWO_32
    ensures x % TWO_64 == x
  {
    assert x == x / n * n + x % n;
    MulMono(x / n + 1, TWO_32, n);
    MulMono(n, TWO_32, TWO_32);
  }

  /** A table of rows to pick from. */
  ghost predicate GoodTable(primes: seq<Number>) {
    primes != [] && Sorted(primes) && AllOk(primes)
  }

  /** The prime picked for a capacity. */
  ghost predicate RowOf(primes: seq<Number>, capacity: nat, entries: nat, n: Number)
    requires entries >= 7
  {
    Picked(primes, Requested(capacity, entries), n)
  }

  /** The prime picked fits the 32 bits a bucket count has; otherwise hashes would select buckets that are not there. */
  ghost predicate Indexable(primes: seq<Number>, capacity: nat, entries: nat)
    requires entries >= 7
  {
    exists n :: RowOf(primes, capacity, entries, n) && n.value < TWO_32
  }

  lemma OneRow(primes: seq<Number>, capacity: nat, entries: nat, m: Number, n: Number)
    requires GoodTable(primes) && entries >= 7 && RowOf(primes, capacity, entries, m)
    requires RowOf(primes, capacity, entries, n)
    ensures m == n
  {
    hide AllOk, Requested;
    var i :| 0 <= i < |primes| && primes[i] == m;
    var j :| 0 <= j < |primes| && primes[j] == n;
  }

  /** The row for a table; None where its prime has more than 32 bits. */
  method RowFor(primes: seq<Number>, capacity: nat, entries: nat) returns (r: Option<Number>)
    requires GoodTable(primes) && entries >= 7
    ensures r.Some? <==> Indexable(primes, capacity, entries)
    ensures r.Some? ==> RowOf(primes, capacity, entries, r.value) && r.value.Plausible() && r.value.Exact()
  {
    hide Sorted, Picked, Requested;
    var n := Pick(primes, Requested(capacity, entries));
    assert RowOf(primes, capacity, entries, n);
    if n.value >= TWO_32 {
      forall m | RowOf(primes, capacity, entries, m) ensures m == n {
        OneRow(primes, capacity, entries, m, n);
      }
      return None;
    }
    PickedRow(primes, Requested(capacity, entries), n);
    return Some(n);
  }

  lemma PickedRow(primes: seq<Number>, requested: nat, n: Number)
    requires AllOk(primes) && Picked(primes, requested, n)
    ensures n.Plausible() && n.Exact()
  {
    assert RowOk(n);
  }

  /** A table for some capacity. */
  method NewTable<T(0)>(primes: seq<Number>, table: nat, capacity: nat, format: Format)
    returns (r: Option<DerefTable<T>>)
    requires GoodTable(primes) && format.Valid() && format.Entries() >= 7
    ensures r.Some? <==> Indexable(primes, capacity, format.Entries())
    ensures r.Some? ==>
              && fresh(r.value) && r.value.Valid() && r.value.Indexed() && r.value.objects == map[]
              && r.value.table == table && r.value.entries == format.Entries()
              && RowOf(primes, capacity, format.Entries(), r.value.buckets)
  {
    hide DerefTable.Valid, RowOf, Indexable, GoodTable;
    var row := RowFor(primes, capacity, format.Entries());
    if row.None? {
      return None;
    }
    var t := new DerefTable<T>(table, row.value, format);
    return Some(t);
  }

  // ----- the table there is

  /**
   * Its rows are good ones, and its picks fit 32 bits exactly as long as at most 4226643191 buckets are asked for.
   */
  lemma ShippedTable(capacity: nat, entries: nat)
    requires entries >= 7
    ensures GoodTable(Table())
    ensures Indexable(Table(), capacity, entries) <==> Requested(capacity, entries) <= LARGEST_SMALL
  {
    hide Table, Sorted, AllOk, Even, Picked, Requested;
    TableOk();
    forall n | RowOf(Table(), capacity, entries, n)
      ensures n.value < TWO_32 <==> Requested(capacity, entries) <= LARGEST_SMALL
    {
      FitsWord(Requested(capacity, entries), n);
    }
    var _ := SomeRow(Table(), capacity, entries);
  }

  lemma SomeRow(primes: seq<Number>, capacity: nat, entries: nat) returns (n: Number)
    requires GoodTable(primes) && entries >= 7
    ensures RowOf(primes, capacity, entries, n)
  {
    hide AllOk, Requested;
    var i := Least(primes, Requested(capacity, entries));
    n := primes[i];
  }

  lemma {:induction false} Least(primes: seq<Number>, requested: nat) returns (i: nat)
    requires primes != [] && Sorted(primes)
    ensures i < |primes| && (primes[i].value >= requested || i == |primes| - 1)
    ensures forall j | 0 <= j < i :: primes[j].value < requested
  {
    i := 0;
    while i < |primes| - 1 && primes[i].value < requested
      invariant i < |primes| && forall j | 0 <= j < i :: primes[j].value < requested
    {
      i := i + 1;
    }
  }

  /** A table made for a capacity has at least as many slots. */
  lemma BigEnough(capacity: nat, entries: nat, n: Number)
    requires 7 <= entries < TWO_32 && (capacity + entries - 1) / entries < TWO_32
    requires Indexable(Table(), capacity, entries) && RowOf(Table(), capacity, entries, n)
    ensures capacity <= n.value * entries
  {
    hide Table, Requested, Picked;
    ShippedTable(capacity, entries);
    EnoughBuckets(capacity, entries);
    LastLarge(Requested(capacity, entries), n);
    MulMono(Requested(capacity, entries), n.value, entries);
  }
}
