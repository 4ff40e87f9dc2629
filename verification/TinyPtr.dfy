/** Tiny pointers: a slot index, a few special bits and the choice of hash, packed into one small word. */
module TinyPtrs {
  import opened Primes

  /** What a tiny pointer says; Null and Tagged are the two reserved words. */
  datatype TinyPtr = Null | Tagged | Ptr(index: nat, special: nat, second: bool)

  /** A word of the given width, with the given number of special bits. */
  datatype Format = Format(width: nat, special: nat) {

    predicate Valid() {
      width > special + 1
    }

    /** Slots per bucket: every index the word can hold, save one that keeps the reserved words apart. */
    function Entries(): (n: nat)
      requires Valid()
      ensures n > 0
    {
      Pow2Doubles(width - 1 - special);
      Pow2(width - 1 - special) - 1
    }

    /** The pointers that fit the format. */
    predicate Fits(p: TinyPtr)
      requires Valid()
    {
      p.Ptr? ==> p.index < Entries() && p.special < Pow2(special)
    }

    /** The fields do not overlap, so or-ing the shifted fields is adding them. */
    function Encode(p: TinyPtr): (word: nat) {
      match p
      case Null => 0
      case Tagged => 1
      case Ptr(index, sp, second) => (index + 1) * Pow2(1 + special) + 2 * sp + (if second then 1 else 0)
    }

    function Decode(word: nat): (p: TinyPtr) {
      if word == 0 then Null
      else if word == 1 then Tagged
      else
        var index := word / Pow2(1 + special) - 1;
        Ptr(if index < 0 then 0 else index, word / 2 % Pow2(special), word % 2 == 1)
    }
  }

  lemma Pow2Doubles(s: nat)
    ensures s > 0 ==> Pow2(s) == 2 * Pow2(s - 1) && Pow2(s) >= 2
  {
  }

  /** Packing loses nothing, stays inside the word, and never produces a reserved word for a real slot. */
  lemma EncodeDecode(f: Format, p: TinyPtr)
    requires f.Valid() && f.Fits(p)
    ensures f.Decode(f.Encode(p)) == p
    ensures f.Encode(p) < Pow2(f.width)
    ensures f.Encode(p) == 0 <==> p == Null
    ensures f.Encode(p) == 1 <==> p == Tagged
  {
    Pow2Doubles(f.width);
    if p.Ptr? {
      var b := Pow2(f.special);
      Pow2Sum(1 + f.special, f.width - 1 - f.special);
      Pow2Doubles(1 + f.special);
      FieldsApart(p.index, p.special, if p.second then 1 else 0, b, Pow2(f.width - 1 - f.special));
    } else {
      Pow2Doubles(f.width - 1);
    }
  }

  lemma FieldsApart(index: nat, sp: nat, bit: nat, b: nat, n: nat)
    requires sp < b && bit < 2 && index + 1 < n
    ensures var word := (index + 1) * (2 * b) + 2 * sp + bit;
            && word / (2 * b) == index + 1 && word / 2 % b == sp && word % 2 == bit
            && 2 <= word < (2 * b) * n
  {
    var k := index + 1;
    var top := k * (2 * b);
    MulMono(k + 1, n, 2 * b);
    MulMono(1, k, 2 * b);
    assert (k + 1) * (2 * b) == top + 2 * b by { Distribute(1, k, 1, 2 * b); }
    FloorIsUnique(top + 2 * sp + bit, 2 * b, k);
    Assoc(k, b, 2);
    RemainderOf(k * b + sp, b, k, sp);
    LowBit(k * b + sp, bit);
  }

  lemma LowBit(half: nat, bit: nat)
    requires bit < 2
    ensures (2 * half + bit) / 2 == half && (2 * half + bit) % 2 == bit
  {
  }

  lemma RemainderOf(x: nat, p: nat, q: nat, r: nat)
    requires r < p && x == q * p + r
    ensures x % p == r && x / p == q
  {
    FloorIsUnique(x, p, q);
  }

  /** Different pointers are different words, so comparing words is comparing pointers. */
  lemma EncodeInjective(f: Format, p: TinyPtr, q: TinyPtr)
    requires f.Valid() && f.Fits(p) && f.Fits(q)
    ensures f.Encode(p) == f.Encode(q) <==> p == q
  {
    EncodeDecode(f, p);
    EncodeDecode(f, q);
  }
}
