/** Strings of bytes, and sets of them closed under dropping the last byte. */
module Bytes {
  type Byte = b: nat | b < 256
  type Word = seq<Byte>

  function Min(a: nat, b: nat): nat {
    if a < b then a else b
  }

  /** The same as p <= k; quantifiers over keys hang on the name, and proofs use the slice. */
  predicate Prefix(p: Word, k: Word) {
    |p| <= |k| && k[..|p|] == p
  }

  lemma PrefixTrans(p: Word, q: Word, k: Word)
    requires Prefix(p, q) && Prefix(q, k)
    ensures Prefix(p, k)
  {
    assert k[..|p|] == q[..|p|];
  }

  function Parent(q: Word): Word
    requires q != []
  {
    q[..|q| - 1]
  }

  ghost predicate PrefixClosed(paths: set<Word>) {
    [] in paths && forall p | p in paths && p != [] :: Parent(p) in paths
  }

  lemma LastByte(p: Word, c: Byte, q: Word, d: Byte)
    ensures p + [c] == q + [d] <==> p == q && c == d
  {
    if p + [c] == q + [d] {
      assert p == (p + [c])[..|p|] && q == (q + [d])[..|q|];
      assert (p + [c])[|p|] == c && (q + [d])[|q|] == d;
    }
  }

  lemma ParentOfChild(p: Word, c: Byte)
    ensures Parent(p + [c]) == p
  {
  }

  lemma ClosedMore(paths: set<Word>, p: Word, c: Byte)
    requires PrefixClosed(paths) && p in paths
    ensures PrefixClosed(paths + {p + [c]})
  {
    ParentOfChild(p, c);
  }
}
