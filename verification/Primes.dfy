/** Multiply-shift division by a fixed prime, as used to turn a 64-bit hash into a bucket index. */
module Primes {
  const TWO_64: nat := 0x1_0000_0000_0000_0000
  const TWO_128: nat := 0x1_0000_0000_0000_0000_0000_0000_0000_0000

  function Pow2(s: nat): (r: nat)
    ensures r >= 1
  {
    if s == 0 then 1 else 2 * Pow2(s - 1)
  }

  /** The upper 64 bits of a 128-bit product. */
  function HighHalf(x: nat, y: nat): (h: nat) {
    Truncate64(x * y % TWO_128 / TWO_64)
  }

  function Quotient(x: nat, d: nat): (r: nat)
    requires d > 0
  {
    x / d
  }

  function Truncate64(x: nat): (r: nat) {
    x % TWO_64
  }

  /** One row of the prime table: the prime, its magic multiplier and the shift. */
  datatype Number = Number(value: nat, magic: nat, shift: nat) {

    /** 2^(64 + shift): the power of two that value * magic approximates from above. */
    function Scale(): (t: nat)
      ensures t >= TWO_64
    {
      TWO_64 * Pow2(shift)
    }

    /** How far value * magic lies above the scale. */
    function Excess(): int {
      value * magic - Scale()
    }

    /** Multiply, keep the upper half, shift right. */
    function Div(x: nat): (q: nat) {
      Quotient(HighHalf(x, magic), Pow2(shift))
    }

    /** Unsigned 64-bit multiplication and subtraction wrap around. */
    function Mod(x: nat): (r: nat) {
      (x - Div(x) * value % TWO_64) % TWO_64
    }

    /** What every row has to satisfy before exactness can be discussed. */
    predicate Plausible() {
      && 2 <= value < TWO_64 && magic < TWO_64
      && 0 < Excess() <= 2 * Pow2(shift)
    }

    /** The largest 64-bit number that leaves the remainder value - 1. */
    function WorstCase(): int
      requires value > 0
    {
      TWO_64 / value * value - 1
    }

    predicate Exact()
      requires value > 0
    {
      WorstCase() * Excess() < Scale()
    }
  }

  // ----- arithmetic on unnamed numbers

  lemma MulMono(a: int, b: int, d: nat)
    requires a <= b
    ensures a * d <= b * d
  {
    if d > 0 {
      MulMono(a, b, d - 1);
      assert a * d == a * (d - 1) + a && b * d == b * (d - 1) + b;
    }
  }

  lemma MulStrict(a: int, b: int, d: nat)
    requires a < b && d > 0
    ensures a * d < b * d
  {
    MulMono(a, b, d - 1);
    assert a * d == a * (d - 1) + a && b * d == b * (d - 1) + b;
  }

  lemma MulCancel(a: int, b: int, d: nat)
    requires d > 0 && a * d < b * d
    ensures a < b
  {
    if b <= a { MulMono(b, a, d); }
  }

  lemma FloorIsUnique(n: nat, d: nat, q: int)
    requires d > 0 && q * d <= n < q * d + d
    ensures n / d == q
  {
    var k := n / d;
    assert n == k * d + n % d;
    MulCancel(q, k + 1, d);
    MulCancel(k, q + 1, d);
  }

  /** Dividing twice is dividing by the product. */
  lemma DivDiv(n: nat, a: nat, b: nat)
    requires a > 0 && b > 0
    ensures a * b > 0 && n / a / b == n / (a * b)
  {
    var m, r := n / a, n % a;
    FloorSplit(n, a);
    FloorSplit(m, b);
    DivDivSplit(n, a, b, m, r, m / b, m % b);
  }

  lemma DivDivSplit(n: nat, a: nat, b: nat, m: nat, r: nat, q: nat, s: nat)
    requires n == m * a + r && r < a && m == q * b + s && s < b
    ensures a * b > 0 && n / (a * b) == q
  {
    Distribute(q, b, s, a);
    MulMono(s, b - 1, a);
    MulMono(0, s, a);
    MulStrict(0, a, b);
    assert (b - 1) * a == a * b - a;
    FloorIsUnique(n, a * b, q);
  }

  lemma FloorSplit(n: nat, d: nat)
    requires d > 0
    ensures n == n / d * d + n % d && n % d < d
  {
  }

  lemma Distribute(q: int, b: int, r: int, a: int)
    ensures (q * b + r) * a == q * (a * b) + r * a
  {
    assert (q * b) * a == q * (a * b) by { Assoc(q, b, a); }
  }

  lemma Assoc(a: int, b: int, c: int)
    ensures (a * b) * c == a * (b * c) == a * (c * b)
  {
  }

  /** The product of two numbers below a bound stays below the square of the bound. */
  lemma ProductBound(x: nat, y: nat, b: nat)
    requires x < b && y < b
    ensures x * y < b * b
  {
    MulMono(x, b, y);
    MulStrict(y, b, b);
  }

  // ----- exactness of the division

  /** The machine-width formula never overflows: it is one division by 2^(64 + shift). */
  lemma DivIsOneDivision(n: Number, x: nat)
    requires n.magic < TWO_64 && x < TWO_64
    ensures n.Div(x) == x * n.magic / n.Scale()
  {
    var prod := x * n.magic;
    ProductBound(x, n.magic, TWO_64);
    NoTruncation(prod);
    DivDiv(prod, TWO_64, Pow2(n.shift));
  }

  lemma NoTruncation(prod: nat)
    requires prod < TWO_128
    ensures Truncate64(prod % TWO_128 / TWO_64) == prod / TWO_64
  {
    assert prod / TWO_64 < TWO_64;
  }

  /** With p * m = t + e, the quotient x * m / t is x / p as long as the error x * e stays in the gap. */
  lemma ScaledQuotient(x: nat, p: nat, m: nat, t: nat, e: nat)
    requires p > 0 && t > 0 && p * m == t + e
    ensures x * m / t == x / p <==> x * e < (p - x % p) * t
  {
    var q, r := x / p, x % p;
    assert x == q * p + r;
    ScaledProduct(x, p, m, t, e, q, r);
    MulMono(0, x, e);
    MulMono(0, r, t);
    MulMono(0, x, m);
    assert (p - r) * t == p * t - r * t;
    assert (q * t + t) * p == q * t * p + p * t;
    assert q * t <= x * m by {
      if x * m < q * t { MulStrict(x * m, q * t, p); }
    }
    if x * e < (p - r) * t {
      MulCancel(x * m, q * t + t, p);
      FloorIsUnique(x * m, t, q);
    } else {
      if x * m < q * t + t { MulStrict(x * m, q * t + t, p); }
      FloorUpper(x * m, t);
    }
  }

  lemma FloorUpper(n: nat, d: nat)
    requires d > 0
    ensures n < n / d * d + d
  {
    assert n == n / d * d + n % d;
  }

  lemma ScaledProduct(x: nat, p: nat, m: nat, t: nat, e: nat, q: nat, r: nat)
    requires p * m == t + e && x == q * p + r
    ensures x * m * p == q * t * p + r * t + x * e
  {
    Assoc(x, m, p);
    assert x * (t + e) == x * t + x * e;
    Distribute(q, p, r, t);
    Assoc(q, t, p);
  }

  lemma WorstCaseIsWorst(n: Number, x: nat)
    requires n.value > 0 && x < TWO_64 && x % n.value == n.value - 1
    ensures x <= n.WorstCase()
  {
    LargestMultiple(x, n.value, TWO_64);
  }

  lemma LargestMultiple(x: nat, p: nat, bound: nat)
    requires p > 0 && x < bound && x % p == p - 1
    ensures x <= bound / p * p - 1
  {
    var q, k := x / p, bound / p;
    assert x == q * p + p - 1 && bound == k * p + bound % p;
    if k <= q { MulMono(k, q, p); }
    MulMono(q + 1, k, p);
  }

  /** Multiply-shift is true division on all 64-bit numbers if and only if the one worst number passes. */
  lemma DivIsExact(n: Number)
    requires n.Plausible()
    ensures (forall x: nat | x < TWO_64 :: n.Div(x) == x / n.value) <==> n.Exact()
  {
    if n.Exact() {
      forall x: nat | x < TWO_64 ensures n.Div(x) == x / n.value {
        QuotientExact(n, x);
      }
    } else {
      WorstCaseFails(n);
    }
  }

  lemma QuotientExact(n: Number, x: nat)
    requires n.Plausible() && n.Exact() && x < TWO_64
    ensures n.Div(x) == x / n.value
  {
    DivIsOneDivision(n, x);
    ScaledQuotient(x, n.value, n.magic, n.Scale(), n.Excess());
    ErrorBelowGap(n, x, x % n.value);
  }

  lemma ErrorBelowGap(n: Number, x: nat, r: nat)
    requires n.Plausible() && n.Exact() && x < TWO_64 && r == x % n.value
    ensures x * n.Excess() < (n.value - r) * n.Scale()
  {
    if r == n.value - 1 {
      WorstCaseIsWorst(n, x);
      MulMono(x, n.WorstCase(), n.Excess());
    } else {
      ErrorBelowTwice(x, n.Excess(), n.shift);
      MulMono(2, n.value - r, n.Scale());
    }
  }

  /** Away from the worst remainder the gap is at least twice the scale, which no error reaches. */
  lemma ErrorBelowTwice(x: nat, e: nat, shift: nat)
    requires x < TWO_64 && 0 < e <= 2 * Pow2(shift)
    ensures x * e < 2 * (TWO_64 * Pow2(shift))
  {
    MulStrict(x, TWO_64, e);
    MulMono(e, 2 * Pow2(shift), TWO_64);
  }

  lemma WorstCaseFails(n: Number)
    requires n.Plausible() && !n.Exact()
    ensures 0 <= n.WorstCase() < TWO_64 && n.Div(n.WorstCase()) != n.WorstCase() / n.value
  {
    var p, w, k := n.value, n.WorstCase(), TWO_64 / n.value;
    FloorBelow(TWO_64, p);
    assert w == (k - 1) * p + p - 1;
    MulMono(0, k - 1, p);
    FloorIsUnique(w, p, k - 1);
    assert w % p == w - w / p * p;
    DivIsOneDivision(n, w);
    ScaledQuotient(w, p, n.magic, n.Scale(), n.Excess());
  }

  lemma FloorBelow(n: nat, d: nat)
    requires 0 < d <= n
    ensures n / d >= 1 && n / d * d <= n
  {
  }

  /** Mod computes the remainder, without wrapping, for every row whose division is exact. */
  lemma ModIsExact(n: Number, x: nat)
    requires n.Plausible() && n.Exact() && x < TWO_64
    ensures n.Mod(x) == x % n.value
  {
    QuotientExact(n, x);
    NoWrapAround(x, n.value, x / n.value);
  }

  /** The product and the difference stay within 64 bits. */
  lemma NoWrapAround(x: nat, p: nat, q: nat)
    requires 0 < p && x < TWO_64 && q == x / p
    ensures (x - q * p % TWO_64) % TWO_64 == x % p
  {
    var y := q * p;
    assert x == y + x % p;
    MulMono(0, q, p);
    SmallMod(y);
    SmallMod(x - y);
  }

  lemma SmallMod(y: nat)
    requires y < TWO_64
    ensures y % TWO_64 == y
  {
  }

  /**
   * The usual sufficient condition, excess at most 2^shift, is not met by every row of the table: it fails for
   * this one. The exact criterion still holds, so its division and remainder are right all the same.
   */
  lemma RowBeyondUsualBound(x: nat)
    requires x < TWO_64
    ensures var n := Number(411491998127418553, 12921058021384126589, 58);
            n.Excess() > Pow2(n.shift) && n.Div(x) == x / n.value && n.Mod(x) == x % n.value
  {
    var n := Number(411491998127418553, 12921058021384126589, 58);
    Pow2Of58();
    RowIsExact(411491998127418553, 12921058021384126589, 58, 0x400_0000_0000_0000);
    QuotientExact(n, x);
    ModIsExact(n, x);
  }

  lemma {:induction false} Pow2Sum(a: nat, b: nat)
    ensures Pow2(a + b) == Pow2(a) * Pow2(b)
  {
    if a > 0 {
      Pow2Sum(a - 1, b);
      Assoc(2, Pow2(a - 1), Pow2(b));
    }
  }

  lemma Pow2Of58()
    ensures Pow2(58) == 0x400_0000_0000_0000
  {
    assert Pow2(10) == 1024;
    assert Pow2(14) == 16384 by { assert Pow2(12) == 4096; }
    assert Pow2(20) == 1024 * 1024 by { Pow2Sum(10, 10); }
    assert Pow2(24) == 16384 * 1024 by { Pow2Sum(14, 10); }
    Pow2Sum(24, 20);
    Pow2Sum(44, 14);
  }

  lemma RowIsExact(v: nat, m: nat, s: nat, p: nat)
    requires Pow2(s) == p && 2 <= v < TWO_64 && m < TWO_64 && 0 < v * m - TWO_64 * p <= 2 * p
    requires (TWO_64 / v * v - 1) * (v * m - TWO_64 * p) < TWO_64 * p
    ensures Number(v, m, s).Plausible() && Number(v, m, s).Exact()
  {
  }

  // ----- picking a prime

  predicate Sorted(table: seq<Number>) {
    forall i, j | 0 <= i < j < |table| :: table[i].value < table[j].value
  }

  /** The least prime that is not below the request, or the last one if there is none. */
  predicate Picked(table: seq<Number>, desired: nat, n: Number) {
    && n in table
    && (forall m | m in table && m.value >= desired :: desired <= n.value <= m.value)
    && (n.value < desired ==> forall m | m in table :: m.value <= n.value)
  }

  method Pick(table: seq<Number>, desired: nat) returns (n: Number)
    requires |table| > 0 && Sorted(table)
    ensures Picked(table, desired, n)
  {
    if desired >= table[|table| - 1].value {
      return table[|table| - 1];
    }
    var lower, upper := 0, |table| - 1;
    while lower != upper
      invariant 0 <= lower <= upper < |table|
      invariant forall j | 0 <= j < lower :: table[j].value < desired
      invariant table[upper].value >= desired
      decreases upper - lower
    {
      var middle := lower + (upper - lower) / 2;
      if table[middle].value < desired {
        lower := middle + 1;
      } else if table[middle].value > desired {
        upper := middle;
      } else {
        return table[middle];
      }
    }
    return table[lower];
  }
}
