/** Counting, without building it, the nodes of a trie over sorted words by how many children they have. */
module NodeCounts {
  import opened Bytes

  // ----- what is counted

  /** The distinct prefixes of the words from q on. */
  ghost function PathsFrom(words: set<Word>, q: Word): set<Word> {
    set w, i | w in words && |q| <= i <= |w| :: w[..i]
  }

  /** The distinct bytes that follow p in the words. */
  ghost function NextBytes(words: set<Word>, p: Word): set<Byte> {
    set w | w in words && p < w :: w[|p|]
  }

  /** The prefixes with exactly j distinct next bytes. */
  ghost function WithKids(words: set<Word>, q: Word, j: nat): set<Word> {
    set p | p in PathsFrom(words, q) && |NextBytes(words, p)| == j
  }

  ghost predicate AllFrom(words: set<Word>, q: Word) {
    forall w | w in words :: q <= w
  }

  /** The words of a range. */
  ghost function Range(words: seq<Word>, start: nat, end: nat): set<Word>
    requires end <= |words|
  {
    set i | start <= i < end :: words[i]
  }

  lemma InPaths(words: set<Word>, q: Word, p: Word)
    requires AllFrom(words, q)
    ensures p in PathsFrom(words, q) <==> q <= p && exists w :: w in words && p <= w
  {
    if p in PathsFrom(words, q) {
      var w, i :| w in words && |q| <= i <= |w| && p == w[..i];
      assert p <= w && q == w[..|q|] == p[..|q|];
    }
    if q <= p {
      forall w | w in words && p <= w ensures p in PathsFrom(words, q) {
        assert p == w[..|p|];
      }
    }
  }

  lemma InNext(words: set<Word>, p: Word, c: Byte)
    ensures c in NextBytes(words, p) <==> exists w :: w in words && p + [c] <= w
  {
    if c in NextBytes(words, p) {
      var w :| w in words && p < w && w[|p|] == c;
      assert p + [c] == w[..|p| + 1];
    }
    forall w | w in words && p + [c] <= w ensures c in NextBytes(words, p) {
      assert p == (p + [c])[..|p|] == w[..|p|];
      assert (p + [c])[|p|] == w[|p|];
    }
  }

  // ----- one more group of words with the same next byte

  /** Words below q that do not go on with c, and words that do. */
  ghost predicate Groups(t: set<Word>, g: set<Word>, q: Word, c: Byte) {
    && AllFrom(t, q) && AllFrom(g, q + [c]) && g != {}
    && forall w | w in t :: !(q + [c] <= w)
  }

  lemma PrefixOfBoth(a: Word, b: Word, w: Word)
    requires a <= w && b <= w
    ensures |a| <= |b| ==> a <= b
  {
    if |a| <= |b| {
      assert b[..|a|] == w[..|b|][..|a|] == w[..|a|];
    }
  }

  /** Beyond q, the two groups have no prefix in common, and neither adds to the other's next bytes. */
  lemma GroupsApart(t: set<Word>, g: set<Word>, q: Word, c: Byte, p: Word)
    requires Groups(t, g, q, c)
    ensures AllFrom(t + g, q)
    ensures q < p ==> !(p in PathsFrom(t, q) && p in PathsFrom(g, q + [c]))
    ensures q < p ==> (p in PathsFrom(t + g, q) <==> p in PathsFrom(t, q) || p in PathsFrom(g, q + [c]))
    ensures q < p && p in PathsFrom(t, q) ==> NextBytes(t + g, p) == NextBytes(t, p)
    ensures p in PathsFrom(g, q + [c]) ==> q < p && NextBytes(t + g, p) == NextBytes(g, p)
  {
    forall w | w in g ensures q <= w {
      PrefixTrans(q, q + [c], w);
    }
    InPaths(t, q, p);
    InPaths(g, q + [c], p);
    InPaths(t + g, q, p);
    if q < p {
      Side(t, g, q, c, p);
    }
    if q + [c] <= p {
      PrefixTrans(q, q + [c], p);
    }
    hide PathsFrom, NextBytes;
    if q < p && p in PathsFrom(t, q) {
      SameNext(t, g, p);
    }
    if p in PathsFrom(g, q + [c]) {
      SameNext(g, t, p);
      assert t + g == g + t;
    }
  }

  /** A path beyond q goes on with c or it does not, and only one group can extend it. */
  lemma Side(t: set<Word>, g: set<Word>, q: Word, c: Byte, p: Word)
    requires Groups(t, g, q, c) && q < p
    ensures q + [c] <= p ==> forall w | w in t :: !(p <= w)
    ensures !(q + [c] <= p) ==> forall w | w in g :: !(p <= w)
  {
    forall w | w in t && p <= w ensures !(q + [c] <= p) {
      if q + [c] <= p {
        PrefixTrans(q + [c], p, w);
      }
    }
    forall w | w in g && p <= w ensures q + [c] <= p {
      PrefixOfBoth(q + [c], p, w);
    }
  }

  lemma SameNext(a: set<Word>, b: set<Word>, p: Word)
    requires forall w | w in b :: !(p <= w)
    ensures NextBytes(a + b, p) == NextBytes(a, p)
  {
    forall w | w in b ensures !(p < w) {
      assert p < w ==> p <= w;
    }
  }

  lemma GroupAdded(t: set<Word>, g: set<Word>, q: Word, c: Byte, j: nat)
    requires Groups(t, g, q, c)
    ensures |WithKids(t + g, q, j) - {q}| == |WithKids(t, q, j) - {q}| + |WithKids(g, q + [c], j)|
  {
    var a, b := WithKids(t, q, j) - {q}, WithKids(g, q + [c], j);
    forall p ensures (p in WithKids(t + g, q, j) - {q} <==> p in a || p in b) && !(p in a && p in b) {
      GroupsApart(t, g, q, c, p);
      Beyond(t, q, p);
      Beyond(g, q + [c], p);
      Beyond(t + g, q, p);
      hide PathsFrom, NextBytes;
    }
    assert WithKids(t + g, q, j) - {q} == a + b && a !! b;
  }

  lemma Beyond(words: set<Word>, q: Word, p: Word)
    requires AllFrom(words, q)
    ensures p in PathsFrom(words, q) ==> q <= p && (p != q ==> q < p)
  {
    InPaths(words, q, p);
  }

  lemma PathsAdded(t: set<Word>, g: set<Word>, q: Word, c: Byte)
    requires Groups(t, g, q, c)
    ensures |PathsFrom(t + g, q) - {q}| == |PathsFrom(t, q) - {q}| + |PathsFrom(g, q + [c])|
  {
    var a, b := PathsFrom(t, q) - {q}, PathsFrom(g, q + [c]);
    forall p ensures (p in PathsFrom(t + g, q) - {q} <==> p in a || p in b) && !(p in a && p in b) {
      GroupsApart(t, g, q, c, p);
      Beyond(t, q, p);
      Beyond(g, q + [c], p);
      Beyond(t + g, q, p);
      hide PathsFrom;
    }
    assert PathsFrom(t + g, q) - {q} == a + b && a !! b;
  }

  lemma NextAdded(t: set<Word>, g: set<Word>, q: Word, c: Byte)
    requires Groups(t, g, q, c)
    ensures c !in NextBytes(t, q) && NextBytes(t + g, q) == NextBytes(t, q) + {c}
  {
    forall d: Byte ensures d in NextBytes(t + g, q) <==> d in NextBytes(t, q) || d == c {
      InNext(t, q, d);
      InNext(t + g, q, d);
      var w :| w in g;
      if d in NextBytes(t + g, q) && d !in NextBytes(t, q) {
        var x :| x in t + g && q + [d] <= x;
        PrefixOfBoth(q + [c], q + [d], x);
        LastByte(q, c, q, d);
      }
    }
    InNext(t, q, c);
  }

  // ----- histograms

  const SIZE: nat := 257

  ghost function Total(h: seq<nat>): nat {
    if h == [] then 0 else Total(h[..|h| - 1]) + h[|h| - 1]
  }

  /** Entry j counts j times. */
  ghost function Weighted(h: seq<nat>): nat {
    if h == [] then 0 else Weighted(h[..|h| - 1]) + (|h| - 1) * h[|h| - 1]
  }

  lemma {:induction false} Zeros(h: seq<nat>)
    requires forall j | 0 <= j < |h| :: h[j] == 0
    ensures Total(h) == 0 && Weighted(h) == 0
  {
    if h != [] {
      Zeros(h[..|h| - 1]);
    }
  }

  lemma Times(n: nat, a: nat, b: nat)
    ensures n * (a + b) == n * a + n * b
  {
  }

  lemma {:induction false} SumOfTwo(a: seq<nat>, b: seq<nat>, h: seq<nat>)
    requires |a| == |b| == |h| && forall j | 0 <= j < |h| :: h[j] == a[j] + b[j]
    ensures Total(h) == Total(a) + Total(b) && Weighted(h) == Weighted(a) + Weighted(b)
  {
    if h != [] {
      var n := |h| - 1;
      SumOfTwo(a[..n], b[..n], h[..n]);
      Times(n, a[n], b[n]);
    }
  }

  lemma {:induction false} OneMore(h: seq<nat>, k: nat)
    requires k < |h|
    ensures Total(h[k := h[k] + 1]) == Total(h) + 1 && Weighted(h[k := h[k] + 1]) == Weighted(h) + k
  {
    var n, h' := |h| - 1, h[k := h[k] + 1];
    if k == n {
      assert h'[..n] == h[..n];
      Times(n, h[n], 1);
    } else {
      OneMore(h[..n], k);
      assert h'[..n] == h[..n][k := h[k] + 1];
    }
  }

  /** The histogram of the prefixes from q on. */
  ghost predicate Counts(h: seq<nat>, words: set<Word>, q: Word) {
    && |h| == SIZE && (forall j | 0 <= j < SIZE :: h[j] == |WithKids(words, q, j)|)
    && Total(h) == |PathsFrom(words, q)|
    && (words != {} ==> Total(h) == Weighted(h) + 1)
  }

  /** The same without q itself, which has this many children. */
  ghost predicate Partial(h: seq<nat>, words: set<Word>, q: Word, children: nat) {
    && |h| == SIZE && (forall j | 0 <= j < SIZE :: h[j] == |WithKids(words, q, j) - {q}|)
    && Total(h) == |PathsFrom(words, q) - {q}| && Total(h) == Weighted(h) + children
    && |NextBytes(words, q)| == children
  }

  lemma OnlyQ(words: set<Word>, q: Word)
    requires words <= {q}
    ensures PathsFrom(words, q) == words && NextBytes(words, q) == {}
    ensures forall j :: WithKids(words, q, j) == if j == 0 then words else {}
  {
    forall p ensures p in PathsFrom(words, q) <==> p in words {
      if p in PathsFrom(words, q) {
        var w, i :| w in words && |q| <= i <= |w| && p == w[..i];
        assert p == w;
      }
      if p in words {
        assert p == p[..|p|];
      }
    }
  }

  lemma PartialStart(h: seq<nat>, words: set<Word>, q: Word)
    requires |h| == SIZE && (forall j | 0 <= j < SIZE :: h[j] == 0) && words <= {q}
    ensures Partial(h, words, q, 0)
    ensures words == {} ==> Counts(h, words, q)
  {
    OnlyQ(words, q);
    Zeros(h);
    assert words - {q} == {};
    assert forall j :: WithKids(words, q, j) - {q} == {};
    hide WithKids, PathsFrom, NextBytes;
  }

  lemma PartialStep(h: seq<nat>, sub: seq<nat>, sum: seq<nat>, t: set<Word>, g: set<Word>, q: Word, c: Byte,
                    children: nat)
    requires Partial(h, t, q, children) && Counts(sub, g, q + [c]) && Groups(t, g, q, c)
    requires |sum| == SIZE && forall j | 0 <= j < SIZE :: sum[j] == h[j] + sub[j]
    ensures Partial(sum, t + g, q, children + 1)
  {
    hide WithKids, PathsFrom, NextBytes, Total, Weighted;
    forall j | 0 <= j < SIZE ensures sum[j] == |WithKids(t + g, q, j) - {q}| {
      GroupAdded(t, g, q, c, j);
    }
    SumOfTwo(h, sub, sum);
    PathsAdded(t, g, q, c);
    NextAdded(t, g, q, c);
  }

  lemma {:induction false} FewBytes(s: set<Byte>, n: nat)
    requires forall b | b in s :: b < n
    ensures |s| <= n
  {
    if n > 0 {
      if n - 1 in s {
        var top: Byte := n - 1;
        FewBytes(s - {top}, n - 1);
      } else {
        FewBytes(s, n - 1);
      }
    } else {
      assert s == {};
    }
  }

  lemma QItself(words: set<Word>, q: Word, j: nat)
    requires AllFrom(words, q) && words != {}
    ensures q in PathsFrom(words, q) && (q in WithKids(words, q, j) <==> j == |NextBytes(words, q)|)
  {
    var w :| w in words;
    InPaths(words, q, q);
  }

  lemma PartialEnd(h: seq<nat>, words: set<Word>, q: Word, children: nat)
    requires Partial(h, words, q, children) && AllFrom(words, q) && words != {}
    ensures children < SIZE && Counts(h[children := h[children] + 1], words, q)
  {
    hide WithKids, PathsFrom, NextBytes, Total, Weighted;
    FewBytes(NextBytes(words, q), 256);
    var h' := h[children := h[children] + 1];
    forall j | 0 <= j < SIZE ensures h'[j] == |WithKids(words, q, j)| {
      QItself(words, q, j);
      Without(WithKids(words, q, j), q);
    }
    QItself(words, q, 0);
    Without(PathsFrom(words, q), q);
    OneMore(h, children);
  }

  lemma Without(s: set<Word>, q: Word)
    ensures |s - {q}| == if q in s then |s| - 1 else |s|
  {
    if q !in s {
      assert s - {q} == s;
    }
  }

  // ----- ranges of sorted words

  /** Alphabetical order. */
  ghost predicate LexLeq(a: Word, b: Word) {
    a <= b || exists n: nat :: n < |a| && n < |b| && a[..n] == b[..n] && a[n] < b[n]
  }

  ghost predicate Sorted(words: seq<Word>) {
    forall i, j | 0 <= i < j < |words| :: LexLeq(words[i], words[j])
  }

  /** The words of a range all start with q. */
  ghost predicate Below(words: seq<Word>, start: nat, end: nat, q: Word) {
    end <= |words| && forall i | start <= i < end :: q <= words[i]
  }

  lemma NextLeq(a: Word, b: Word, q: Word)
    requires LexLeq(a, b) && q <= a && q <= b && |q| < |a|
    ensures |q| < |b| && a[|q|] <= b[|q|]
  {
    if a <= b {
      assert b[..|a|][|q|] == a[|q|];
    } else {
      var n: nat :| n < |a| && n < |b| && a[..n] == b[..n] && a[n] < b[n];
      forall k | 0 <= k < |q| ensures a[k] == b[k] {
        assert a[..|q|][k] == b[..|q|][k];
      }
      if n > |q| {
        assert a[..n][|q|] == b[..n][|q|];
      }
    }
  }

  /** In a sorted range, words that go on stand behind those that do not, by next byte. */
  lemma RangeOrder(words: seq<Word>, start: nat, end: nat, q: Word, i: nat, j: nat)
    requires Sorted(words) && Below(words, start, end, q) && start <= i <= j < end && |q| < |words[i]|
    ensures |q| < |words[j]| && words[i][|q|] <= words[j][|q|]
  {
    if i < j {
      NextLeq(words[i], words[j], q);
    }
  }

  lemma GoesOn(w: Word, q: Word, c: Byte)
    requires q <= w && |q| < |w|
    ensures q + [c] <= w <==> w[|q|] == c
  {
    assert w[..|q| + 1] == q + [w[|q|]];
    LastByte(q, c, q, w[|q|]);
  }

  lemma RangeConcat(words: seq<Word>, start: nat, mid: nat, end: nat)
    requires start <= mid <= end <= |words|
    ensures Range(words, start, end) == Range(words, start, mid) + Range(words, mid, end)
  {
  }

  ghost function MaxLength(words: seq<Word>): (n: nat)
    ensures forall w | w in words :: |w| <= n
  {
    if words == [] then 0 else
      var m := MaxLength(words[1..]);
      assert forall w | w in words :: w == words[0] || w in words[1..];
      if |words[0]| < m then m else |words[0]|
  }

  // ----- the count

  method FirstLonger(words: seq<Word>, start: nat, end: nat, depth: nat) returns (first: nat)
    requires start < end <= |words|
    ensures start <= first <= end && forall i | start <= i < first :: |words[i]| <= depth
    ensures first < end ==> depth < |words[first]|
  {
    first := end;
    var i := start;
    while i < end
      invariant start <= i <= end && first == end
      invariant forall k | start <= k < i :: |words[k]| <= depth
    {
      if depth < |words[i]| {
        first := i;
        break;
      }
      i := i + 1;
    }
  }

  method LastLonger(words: seq<Word>, first: nat, end: nat, depth: nat) returns (last: nat)
    requires first < end <= |words| && depth < |words[first]|
    ensures first <= last < end && depth < |words[last]|
    ensures forall i | last < i < end :: |words[i]| <= depth
  {
    last := end - 1;
    while last > first
      invariant first <= last < end && forall i | last < i < end :: |words[i]| <= depth
    {
      if depth < |words[last]| {
        break;
      }
      last := last - 1;
    }
  }

  method AddTo(a: seq<nat>, b: seq<nat>) returns (sum: seq<nat>)
    requires |a| == |b| == SIZE
    ensures |sum| == SIZE && forall j | 0 <= j < SIZE :: sum[j] == a[j] + b[j]
  {
    sum := a;
    var j := 0;
    while j < SIZE
      invariant j <= SIZE && |sum| == SIZE
      invariant forall k | 0 <= k < SIZE :: sum[k] == if k < j then a[k] + b[k] else a[k]
    {
      sum := sum[j := sum[j] + b[j]];
      j := j + 1;
    }
  }

  /** The words from start to from are counted, those from there to upTo all go on with c. */
  ghost predicate Counting(words: seq<Word>, start: nat, from: nat, upTo: nat, end: nat, q: Word, c: Byte,
                           h: seq<nat>, children: nat) {
    && Sorted(words) && Below(words, start, end, q) && start <= from < upTo <= end
    && Partial(h, Range(words, start, from), q, children)
    && (forall i | start <= i < from :: !(q + [c] <= words[i]))
    && (forall i | from <= i < upTo :: q + [c] <= words[i])
  }

  lemma RangeBelow(words: seq<Word>, start: nat, end: nat, q: Word)
    requires Below(words, start, end, q)
    ensures AllFrom(Range(words, start, end), q)
    ensures start < end ==> Range(words, start, end) != {}
  {
    if start < end {
      assert words[start] in Range(words, start, end);
    }
  }

  lemma RangeWithout(words: seq<Word>, start: nat, end: nat, q: Word)
    requires end <= |words| && forall i | start <= i < end :: !(q <= words[i])
    ensures forall w | w in Range(words, start, end) :: !(q <= w)
  {
  }

  lemma CountedGroups(words: seq<Word>, start: nat, from: nat, upTo: nat, end: nat, q: Word, c: Byte, h: seq<nat>,
                      children: nat)
    requires Counting(words, start, from, upTo, end, q, c, h, children)
    ensures Below(words, from, upTo, q + [c])
    ensures Groups(Range(words, start, from), Range(words, from, upTo), q, c)
    ensures Range(words, start, upTo) == Range(words, start, from) + Range(words, from, upTo)
  {
    hide Partial, Sorted, Range, AllFrom;
    RangeConcat(words, start, from, upTo);
    RangeBelow(words, start, from, q);
    RangeBelow(words, from, upTo, q + [c]);
    RangeWithout(words, start, from, q + [c]);
  }

  /** The next word starts another group. */
  lemma NextGroup(words: seq<Word>, start: nat, from: nat, i: nat, end: nat, q: Word, c: Byte, h: seq<nat>,
                  children: nat, h': seq<nat>, d: Byte)
    requires Counting(words, start, from, i, end, q, c, h, children) && i < end && |q| < |words[i]|
    requires d == words[i][|q|] != c && Partial(h', Range(words, start, i), q, children + 1)
    ensures Counting(words, start, i, i + 1, end, q, d, h', children + 1)
  {
    hide Partial, Sorted;
    GoesOn(words[i], q, d);
    forall k | start <= k < i ensures !(q + [d] <= words[k]) {
      if |q| < |words[k]| {
        EarlierGroup(words, start, end, q, k, i - 1, i, c);
      }
    }
  }

  /** Bytes never come back: with another byte behind it, a group is over. */
  lemma EarlierGroup(words: seq<Word>, start: nat, end: nat, q: Word, k: nat, last: nat, i: nat, c: Byte)
    requires Sorted(words) && Below(words, start, end, q) && start <= k <= last < i < end && |q| < |words[k]|
    requires q + [c] <= words[last] && |q| < |words[i]| && words[i][|q|] != c
    ensures !(q + [words[i][|q|]] <= words[k])
  {
    RangeOrder(words, start, end, q, k, last);
    RangeOrder(words, start, end, q, last, i);
    hide Sorted;
    GoesOn(words[last], q, c);
    GoesOn(words[k], q, words[i][|q|]);
  }

  // ----- the steps of the count

  lemma EmptyRange(words: seq<Word>, start: nat, h: seq<nat>, q: Word)
    requires start <= |words| && |h| == SIZE && forall j | 0 <= j < SIZE :: h[j] == 0
    ensures Counts(h, Range(words, start, start), q)
  {
    assert Range(words, start, start) == {};
    PartialStart(h, {}, q);
  }

  lemma ShortWords(words: seq<Word>, start: nat, first: nat, end: nat, h: seq<nat>, q: Word)
    requires Below(words, start, end, q) && start <= first <= end && forall i | start <= i < first :: |words[i]| <= |q|
    requires |h| == SIZE && forall j | 0 <= j < SIZE :: h[j] == 0
    ensures Partial(h, Range(words, start, first), q, 0)
    ensures start < first ==> Counts(h[0 := 1], Range(words, start, first), q)
  {
    var short := Range(words, start, first);
    forall i | start <= i < first ensures words[i] == q {
      assert words[i][..|q|] == words[i];
    }
    PartialStart(h, short, q);
    if start < first {
      RangeBelow(words, start, first, q);
      PartialEnd(h, short, q, 0);
    }
  }

  lemma GoOn(words: seq<Word>, start: nat, first: nat, end: nat, q: Word)
    requires Below(words, start, end, q) && start <= first < end && |q| < |words[first]|
    ensures |q| < MaxLength(words)
  {
    assert words[first] in words;
  }

  lemma LongEnough(words: seq<Word>, start: nat, first: nat, i: nat, end: nat, q: Word)
    requires Sorted(words) && Below(words, start, end, q) && start <= first <= i < end && |q| < |words[first]|
    ensures |q| < |words[i]|
  {
    RangeOrder(words, start, end, q, first, i);
  }

  lemma StartCounting(words: seq<Word>, start: nat, first: nat, end: nat, q: Word, h: seq<nat>)
    requires Sorted(words) && Below(words, start, end, q) && start <= first < end && |q| < |words[first]|
    requires (forall i | start <= i < first :: |words[i]| <= |q|) && Partial(h, Range(words, start, first), q, 0)
    ensures Counting(words, start, first, first + 1, end, q, words[first][|q|], h, 0)
  {
    hide Partial, Sorted;
    GoesOn(words[first], q, words[first][|q|]);
  }

  lemma SameGroup(words: seq<Word>, start: nat, from: nat, i: nat, end: nat, q: Word, c: Byte, h: seq<nat>,
                  children: nat)
    requires Counting(words, start, from, i, end, q, c, h, children) && i < end && |q| < |words[i]|
    requires words[i][|q|] == c
    ensures Counting(words, start, from, i + 1, end, q, c, h, children)
  {
    hide Partial, Sorted;
    GoesOn(words[i], q, c);
  }

  /** If the last word goes on with the byte of the first, so do all between. */
  lemma OneGroup(words: seq<Word>, start: nat, first: nat, end: nat, q: Word, c: Byte, h: seq<nat>, children: nat)
    requires Counting(words, start, first, first + 1, end, q, c, h, children) && |q| < |words[first]|
    requires |q| < |words[end - 1]|
    requires words[first][|q|] == c == words[end - 1][|q|]
    ensures Counting(words, start, first, end, end, q, c, h, children)
  {
    hide Partial;
    forall i | first <= i < end ensures q + [c] <= words[i] {
      RangeOrder(words, start, end, q, first, i);
      RangeOrder(words, start, end, q, i, end - 1);
      GoesOn(words[i], q, c);
    }
  }

  lemma StepCounted(words: seq<Word>, start: nat, from: nat, i: nat, end: nat, q: Word, c: Byte, h: seq<nat>,
                    children: nat, sub: seq<nat>, sum: seq<nat>)
    requires Counting(words, start, from, i, end, q, c, h, children) && Counts(sub, Range(words, from, i), q + [c])
    requires |h| == |sub| == |sum| == SIZE && forall j | 0 <= j < SIZE :: sum[j] == h[j] + sub[j]
    ensures Partial(sum, Range(words, start, i), q, children + 1)
  {
    CountedGroups(words, start, from, i, end, q, c, h, children);
    hide Partial, Counts, Groups;
    PartialStep(h, sub, sum, Range(words, start, from), Range(words, from, i), q, c, children);
  }

  lemma WholeRange(words: seq<Word>, start: nat, end: nat, q: Word, h: seq<nat>, children: nat)
    requires start < end && Below(words, start, end, q) && Partial(h, Range(words, start, end), q, children)
    ensures |h| == SIZE && children < SIZE && Counts(h[children := h[children] + 1], Range(words, start, end), q)
  {
    RangeBelow(words, start, end, q);
    PartialEnd(h, Range(words, start, end), q, children);
  }

  /**
   * Entry j counts the prefixes of the words from start to end, at least as long as depth, with j distinct next bytes.
   * The words share their first depth bytes, q.
   */
  method ComputeForDepth(words: seq<Word>, start: nat, end: nat, depth: nat, ghost q: Word) returns (res: seq<nat>)
    requires Sorted(words) && start <= end <= |words| && Below(words, start, end, q) && |q| == depth
    ensures |res| == SIZE && Counts(res, Range(words, start, end), q)
    decreases MaxLength(words) - depth, 1
  {
    hide Partial, MaxLength, Sorted, Counting, Below, Counts;
    res := seq(SIZE, _ => 0);
    if start >= end {
      EmptyRange(words, start, res, q);
      return;
    }
    var first := FirstLonger(words, start, end, depth);
    ShortWords(words, start, first, end, res, q);
    if first == end {
      res := res[0 := 1];
      return;
    }
    GoOn(words, start, first, end, q);
    var last := LastLonger(words, first, end, depth);
    LongEnough(words, start, first, end - 1, end, q);
    var children := 1;
    var from := first;
    var c := words[first][depth];
    StartCounting(words, start, first, end, q, res);
    if last > first && words[last][depth] != c {
      children, from, c, res := ScanGroups(words, start, first, last, end, depth, q, res);
    } else {
      OneGroup(words, start, first, end, q, c, res, 0);
    }
    CountedGroups(words, start, from, end, end, q, c, res, children - 1);
    var sub := ComputeForDepth(words, from, end, depth + 1, q + [c]);
    ghost var before := res;
    res := AddTo(res, sub);
    StepCounted(words, start, from, end, end, q, c, before, children - 1, sub, res);
    WholeRange(words, start, end, q, res, children);
    res := res[children := res[children] + 1];
  }

  /** At least two different next bytes: count one group after the other, all but the last. */
  method ScanGroups(words: seq<Word>, start: nat, first: nat, last: nat, end: nat, depth: nat, ghost q: Word,
                    zeros: seq<nat>)
    returns (children: nat, from: nat, c: Byte, res: seq<nat>)
    requires Sorted(words) && Below(words, start, end, q) && |q| == depth && start <= first < last == end - 1
    requires depth < |words[first]| && depth < MaxLength(words) && |zeros| == SIZE
    requires Counting(words, start, first, first + 1, end, q, words[first][depth], zeros, 0)
    ensures children > 0 && |res| == SIZE && from < end
    ensures Counting(words, start, from, end, end, q, c, res, children - 1)
    decreases MaxLength(words) - depth, 0
  {
    hide Partial, MaxLength, Sorted, Counting;
    children, from, c, res := 1, first, words[first][depth], zeros;
    var i := first + 1;
    while i <= last
      invariant first < i <= end && children > 0 && from < i && |res| == SIZE
      invariant Counting(words, start, from, i, end, q, c, res, children - 1)
      decreases end - i
    {
      LongEnough(words, start, first, i, end, q);
      if words[i][depth] != c {
        children := children + 1;
        ghost var before := res;
        CountedGroups(words, start, from, i, end, q, c, res, children - 2);
        var sub := ComputeForDepth(words, from, i, depth + 1, q + [c]);
        res := AddTo(res, sub);
        StepCounted(words, start, from, i, end, q, c, before, children - 2, sub, res);
        NextGroup(words, start, from, i, end, q, c, before, children - 2, res, words[i][depth]);
        from, c := i, words[i][depth];
      } else {
        SameGroup(words, start, from, i, end, q, c, res, children - 1);
      }
      i := i + 1;
    }
  }

  /** The histogram of all distinct prefixes of the words, by how many distinct bytes follow each. */
  method ComputeNodeCounts(words: seq<Word>) returns (res: seq<nat>)
    requires Sorted(words)
    ensures |res| == SIZE
    ensures forall j | 0 <= j < SIZE :: res[j] == |WithKids(Range(words, 0, |words|), [], j)|
    ensures Total(res) == |PathsFrom(Range(words, 0, |words|), [])|
    ensures words != [] ==> Weighted(res) == Total(res) - 1
  {
    res := ComputeForDepth(words, 0, |words|, 0, []);
    if words != [] {
      assert words[0] in Range(words, 0, |words|);
    }
  }
}
