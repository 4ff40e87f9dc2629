/**
 * What an Aho-Corasick automaton is for: the dictionary words a text ends with, and the suffixes its links stand for.
 */
module AhoSpec {
  import opened Bytes
  import opened Wrappers

  predicate Suffix(w: Word, t: Word) {
    |w| <= |t| && t[|t| - |w|..] == w
  }

  lemma SuffixOfTail(w: Word, t: Word)
    requires t != []
    ensures Suffix(w, t) <==> w == t || Suffix(w, t[1..])
  {
    if |w| < |t| {
      assert t[1..][|t| - 1 - |w|..] == t[|t| - |w|..];
    }
  }

  // ----- the dictionary words a text ends with

  /** Longest first, each once. */
  function WordsEnding(words: set<Word>, t: Word): (r: seq<Word>) {
    (if t in words then [t] else []) + if t == [] then [] else WordsEnding(words, t[1..])
  }

  lemma {:induction false} WordsEndingIsNaive(words: set<Word>, t: Word)
    ensures forall w :: w in WordsEnding(words, t) <==> w in words && Suffix(w, t)
    ensures forall i, j | 0 <= i < j < |WordsEnding(words, t)| ::
              |WordsEnding(words, t)[i]| > |WordsEnding(words, t)[j]|
  {
    if t == [] {
      assert forall w :: Suffix(w, t) <==> w == [];
    } else {
      WordsEndingIsNaive(words, t[1..]);
      forall w ensures Suffix(w, t) <==> w == t || Suffix(w, t[1..]) {
        SuffixOfTail(w, t);
      }
      var rest := WordsEnding(words, t[1..]);
      assert forall j | 0 <= j < |rest| :: rest[j] in rest;
    }
  }

  datatype Match = Match(start: nat, end: nat, word: Word)

  /** The words found at one position of the text, with where they start and end. */
  function MatchesAt(found: seq<Word>, i: nat): (r: seq<Match>)
    requires forall w | w in found :: |w| <= i + 1
    ensures |r| == |found| && forall j | 0 <= j < |r| :: r[j] == Match(i + 1 - |found[j]|, i, found[j])
  {
    if found == [] then [] else [Match(i + 1 - |found[0]|, i, found[0])] + MatchesAt(found[1..], i)
  }

  lemma {:induction false} WordsEndingFit(words: set<Word>, t: Word)
    ensures forall w | w in WordsEnding(words, t) :: |w| <= |t|
  {
    WordsEndingIsNaive(words, t);
  }

  /** Position by position, all words that end there. */
  function AllMatches(words: set<Word>, text: Word): (r: seq<Match>) {
    if text == [] then []
    else
      var n := |text| - 1;
      WordsEndingFit(words, text);
      AllMatches(words, text[..n]) + MatchesAt(WordsEnding(words, text), n)
  }

  ghost predicate Stands(words: set<Word>, text: Word, m: Match) {
    m.start <= m.end + 1 && m.end < |text| && m.word == text[m.start..m.end + 1] && m.word in words
  }

  lemma StandsLast(words: set<Word>, text: Word, m: Match)
    requires text != [] && (forall w | w in WordsEnding(words, text) :: |w| <= |text|)
    ensures m in MatchesAt(WordsEnding(words, text), |text| - 1) <==> Stands(words, text, m) && m.end == |text| - 1
  {
    var n, found := |text| - 1, WordsEnding(words, text);
    WordsEndingIsNaive(words, text);
    hide WordsEnding;
    FoundAt(found, n, m);
    if m.end == n && m.start <= n + 1 {
      assert text[m.start..m.end + 1] == text[m.start..];
    }
  }

  lemma FoundAt(found: seq<Word>, n: nat, m: Match)
    requires forall w | w in found :: |w| <= n + 1
    ensures m in MatchesAt(found, n) <==> m.word in found && m == Match(n + 1 - |m.word|, n, m.word)
  {
    var r := MatchesAt(found, n);
    if m.word in found {
      var j :| 0 <= j < |found| && found[j] == m.word;
      assert r[j] == Match(n + 1 - |m.word|, n, m.word);
    }
  }

  lemma StandsEarlier(words: set<Word>, text: Word, n: nat, m: Match)
    requires n <= |text|
    ensures Stands(words, text[..n], m) <==> Stands(words, text, m) && m.end < n
  {
    if m.start <= m.end + 1 && m.end < n {
      assert text[..n][m.start..m.end + 1] == text[m.start..m.end + 1];
    }
  }

  /** What that means: a match is a dictionary word standing in the text where it says. */
  lemma {:induction false} AllMatchesIsNaive(words: set<Word>, text: Word, m: Match)
    ensures m in AllMatches(words, text) <==> Stands(words, text, m)
  {
    hide Stands;
    if text != [] {
      var n := |text| - 1;
      AllMatchesIsNaive(words, text[..n], m);
      WordsEndingFit(words, text);
      StandsLast(words, text, m);
      StandsEarlier(words, text, n, m);
      StandsEarlier(words, text, |text|, m);
      assert text[..|text|] == text;
    } else {
      StandsEarlier(words, text, 0, m);
      assert text[..0] == text;
    }
  }

  /** Matches come by end position, and longest first among those that end together; so none comes twice. */
  predicate Before(a: Match, b: Match) {
    a.end < b.end || (a.end == b.end && a.start < b.start)
  }

  lemma {:induction false} AllMatchesOrdered(words: set<Word>, text: Word)
    ensures forall m | m in AllMatches(words, text) :: m.end < |text|
    ensures forall i, j | 0 <= i < j < |AllMatches(words, text)| ::
              Before(AllMatches(words, text)[i], AllMatches(words, text)[j])
  {
    if text != [] {
      var n := |text| - 1;
      AllMatchesOrdered(words, text[..n]);
      WordsEndingFit(words, text);
      WordsEndingIsNaive(words, text);
      var a, b := AllMatches(words, text[..n]), MatchesAt(WordsEnding(words, text), n);
      forall i, j | 0 <= i < j < |a + b| ensures Before((a + b)[i], (a + b)[j]) {
        if i < |a| {
          assert a[i] in a;
        }
      }
    }
  }

  // ----- the trie paths a text ends with

  /** The longest suffix that is a path of the trie: the state the automaton is in after the text. */
  ghost function Longest(paths: set<Word>, t: Word): (r: Word)
    requires [] in paths
    ensures r in paths && |r| <= |t|
  {
    if t in paths then t else Longest(paths, t[1..])
  }

  lemma {:induction false} LongestIsLongest(paths: set<Word>, t: Word, q: Word)
    requires [] in paths && q in paths && Suffix(q, t)
    ensures Suffix(Longest(paths, t), t) && Suffix(q, Longest(paths, t))
  {
    if t !in paths {
      SuffixOfTail(q, t);
      LongestIsLongest(paths, t[1..], q);
      SuffixOfTail(Longest(paths, t), t);
    }
  }

  /** One more byte: only the state matters, not the text that led to it. */
  lemma {:induction false} LongestStep(paths: set<Word>, t: Word, c: Byte)
    requires PrefixClosed(paths)
    ensures Longest(paths, t + [c]) == Longest(paths, Longest(paths, t) + [c])
  {
    if t !in paths {
      assert t + [c] !in paths by {
        ParentOfChild(t, c);
      }
      assert (t + [c])[1..] == t[1..] + [c];
      LongestStep(paths, t[1..], c);
    }
  }

  /** The suffix link of a path. */
  ghost function Link(paths: set<Word>, p: Word): (r: Word)
    requires [] in paths && p != []
    ensures r in paths && |r| < |p|
  {
    Longest(paths, p[1..])
  }

  /** The links followed from a path to one with an edge for the byte, or to the root. */
  ghost function Hops(paths: set<Word>, p: Word, c: Byte): nat
    requires [] in paths
    decreases |p|
  {
    if p == [] || p + [c] in paths then 0 else 1 + Hops(paths, Link(paths, p), c)
  }

  /** The links followed in a search: for each byte, those from the state before it. */
  ghost function SearchHops(paths: set<Word>, t: Word): nat
    requires [] in paths
  {
    if t == [] then 0
    else
      var s := t[..|t| - 1];
      SearchHops(paths, s) + Hops(paths, Longest(paths, s), t[|t| - 1])
  }

  /** The links followed to find the link of a path: from its parent's link, if there is one. */
  ghost function LinkHops(paths: set<Word>, p: Word): nat
    requires [] in paths && p != []
  {
    if |p| == 1 then 0 else Hops(paths, Link(paths, Parent(p)), p[|p| - 1])
  }

  /** Without an edge for the byte, the state to continue from is the suffix link. */
  lemma FallBack(paths: set<Word>, q: Word, c: Byte)
    requires PrefixClosed(paths) && q in paths && q + [c] !in paths
    ensures q != [] ==> Longest(paths, q + [c]) == Longest(paths, Link(paths, q) + [c])
    ensures q == [] ==> Longest(paths, q + [c]) == []
  {
    if q != [] {
      assert (q + [c])[1..] == q[1..] + [c];
      LongestStep(paths, q[1..], c);
    } else {
      assert ([] + [c])[1..] == [];
    }
  }

  /** The suffix link of a child, from the suffix link of its parent. */
  lemma LinkOfChild(paths: set<Word>, p: Word, c: Byte)
    requires PrefixClosed(paths) && p in paths
    ensures p != [] ==> Link(paths, p + [c]) == Longest(paths, Link(paths, p) + [c])
    ensures p == [] ==> Link(paths, p + [c]) == []
  {
    if p != [] {
      assert (p + [c])[1..] == p[1..] + [c];
      LongestStep(paths, p[1..], c);
    } else {
      assert ([] + [c])[1..] == [];
    }
  }

  // ----- the words on the way down the suffixes

  ghost function NextWord(words: set<Word>, t: Word): (r: Option<Word>)
    ensures r.Some? ==> r.value in words && |r.value| <= |t|
  {
    if t in words then Some(t) else if t == [] then None else NextWord(words, t[1..])
  }

  /** The terminal link of a path: the longest proper suffix that is a word. */
  ghost function Terminal(words: set<Word>, p: Word): (r: Option<Word>)
    ensures r.Some? ==> r.value in words && |r.value| < |p|
  {
    if p == [] then None else NextWord(words, p[1..])
  }

  lemma {:induction false} TerminalIsLongest(words: set<Word>, p: Word, w: Word)
    requires w in words && Suffix(w, p) && |w| < |p|
    ensures Terminal(words, p).Some? && Suffix(Terminal(words, p).value, p) && |w| <= |Terminal(words, p).value|
  {
    SuffixOfTail(w, p);
    NextWordIsLongest(words, p[1..], w);
    SuffixOfTail(Terminal(words, p).value, p);
  }

  lemma {:induction false} NextWordIsLongest(words: set<Word>, t: Word, w: Word)
    requires w in words && Suffix(w, t)
    ensures NextWord(words, t).Some? && Suffix(NextWord(words, t).value, t) && |w| <= |NextWord(words, t).value|
  {
    if t !in words {
      SuffixOfTail(w, t);
      NextWordIsLongest(words, t[1..], w);
      SuffixOfTail(NextWord(words, t).value, t);
    }
  }

  lemma {:induction false} SkipToWord(words: set<Word>, t: Word)
    ensures WordsEnding(words, t) == match NextWord(words, t) case None => [] case Some(w) => WordsEnding(words, w)
  {
    if t !in words && t != [] {
      SkipToWord(words, t[1..]);
    }
  }

  /** A node and then the words along the terminal links. */
  lemma WordsFromNode(words: set<Word>, p: Word)
    ensures WordsEnding(words, p) == (if p in words then [p] else [])
                                     + match Terminal(words, p) case None => [] case Some(w) => WordsEnding(words, w)
  {
    if p != [] {
      SkipToWord(words, p[1..]);
    }
  }

  /** Every word is a path, so no word is missed by looking at the state only. */
  lemma {:induction false} WordsOfState(words: set<Word>, paths: set<Word>, t: Word)
    requires [] in paths && words <= paths
    ensures WordsEnding(words, t) == WordsEnding(words, Longest(paths, t))
    ensures NextWord(words, t) == NextWord(words, Longest(paths, t))
  {
    if t !in paths {
      WordsOfState(words, paths, t[1..]);
    }
  }

  /** The terminal link, from the suffix link. */
  lemma TerminalFromLink(words: set<Word>, paths: set<Word>, p: Word)
    requires [] in paths && words <= paths && p != []
    ensures var f := Link(paths, p); Terminal(words, p) == if f in words then Some(f) else Terminal(words, f)
  {
    WordsOfState(words, paths, p[1..]);
  }
}
