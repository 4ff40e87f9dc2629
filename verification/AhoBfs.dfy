/** Breadth-first order over a trie's paths, and what following suffix links costs along it. */
module AhoBfs {
  import opened Bytes
  import opened AhoSpec

  /** Parents of seen paths are expanded; the node cur is being expanded and its bytes below upTo have been visited. */
  ghost predicate Seen(paths: set<Word>, done: set<Word>, cur: Word, upTo: nat, q: Word) {
    q in paths && (q == [] || (Parent(q) in done && (Parent(q) == cur ==> q[|q| - 1] < upTo)))
  }

  /** The queue of a breadth-first walk: what is seen but not yet done, in order of depth. */
  ghost predicate Bfs(paths: set<Word>, queue: seq<Word>, done: set<Word>, cur: Word, upTo: nat) {
    && PrefixClosed(paths) && cur in done && [] in done && done <= paths && upTo <= 256
    && (forall i, j | 0 <= i < j < |queue| :: queue[i] != queue[j] && |queue[i]| <= |queue[j]|)
    && (forall q | q in queue :: q in paths && q !in done && |cur| <= |q| <= |cur| + 1)
    && (forall q | q in done :: |q| <= |cur|)
    && (forall q | q in paths :: Seen(paths, done, cur, upTo, q) <==> q in done || q in queue)
  }

  lemma BfsStart(paths: set<Word>)
    requires PrefixClosed(paths)
    ensures Bfs(paths, [], {[]}, [], 0)
  {
  }

  lemma SeenPop(paths: set<Word>, done: set<Word>, cur: Word, p: Word, q: Word)
    requires p !in done && [] in done && cur in done
    ensures Seen(paths, done + {p}, p, 0, q) <==> Seen(paths, done, cur, 256, q)
  {
  }

  /** What the queue holds besides its first word. */
  lemma Dequeued(queue: seq<Word>)
    requires queue != [] && forall i, j | 0 <= i < j < |queue| :: queue[i] != queue[j] && |queue[i]| <= |queue[j]|
    ensures forall q :: q in queue <==> q == queue[0] || q in queue[1..]
    ensures forall q | q in queue[1..] :: q != queue[0] && |queue[0]| <= |q|
    ensures forall i, j | 0 <= i < j < |queue[1..]| ::
              queue[1..][i] != queue[1..][j] && |queue[1..][i]| <= |queue[1..][j]|
  {
    assert queue == [queue[0]] + queue[1..];
  }

  lemma BfsPop(paths: set<Word>, queue: seq<Word>, done: set<Word>, cur: Word)
    requires Bfs(paths, queue, done, cur, 256) && queue != []
    ensures Bfs(paths, queue[1..], done + {queue[0]}, queue[0], 0)
    ensures queue[0] in paths && queue[0] !in done && queue[0] != []
  {
    hide Seen, PrefixClosed;
    var p := queue[0];
    Dequeued(queue);
    forall q | q in paths ensures Seen(paths, done + {p}, p, 0, q) <==> Seen(paths, done, cur, 256, q) {
      SeenPop(paths, done, cur, p, q);
    }
  }

  lemma SeenSkip(paths: set<Word>, done: set<Word>, cur: Word, c: Byte, q: Word)
    requires cur + [c] !in paths
    ensures Seen(paths, done, cur, c + 1, q) <==> Seen(paths, done, cur, c, q)
  {
    if q != [] {
      assert q == Parent(q) + [q[|q| - 1]];
    }
  }

  lemma BfsSkip(paths: set<Word>, queue: seq<Word>, done: set<Word>, cur: Word, c: Byte)
    requires Bfs(paths, queue, done, cur, c) && cur + [c] !in paths
    ensures Bfs(paths, queue, done, cur, c + 1)
  {
    hide Seen, PrefixClosed;
    forall q | q in paths ensures Seen(paths, done, cur, c + 1, q) <==> Seen(paths, done, cur, c, q) {
      SeenSkip(paths, done, cur, c, q);
    }
  }

  lemma SeenChild(paths: set<Word>, done: set<Word>, cur: Word, c: Byte, q: Word)
    requires cur in done && cur + [c] in paths && [] in paths
    ensures !Seen(paths, done, cur, c, cur + [c])
    ensures Seen(paths, done, cur, c + 1, q) <==> Seen(paths, done, cur, c, q) || q == cur + [c]
  {
    var child := cur + [c];
    assert Parent(child) == cur && child[|child| - 1] == c;
    if q != [] {
      assert q == Parent(q) + [q[|q| - 1]];
    }
  }

  lemma RootIn(paths: set<Word>)
    requires PrefixClosed(paths)
    ensures [] in paths
  {
  }

  lemma BfsPush(paths: set<Word>, queue: seq<Word>, done: set<Word>, cur: Word, c: Byte)
    requires Bfs(paths, queue, done, cur, c) && cur + [c] in paths
    ensures Bfs(paths, queue + [cur + [c]], done, cur, c + 1)
    ensures cur + [c] !in done && cur + [c] !in queue
  {
    hide Seen, PrefixClosed;
    RootIn(paths);
    var child := cur + [c];
    SeenChild(paths, done, cur, c, child);
    var queue' := queue + [child];
    forall q | q in paths ensures Seen(paths, done, cur, c + 1, q) <==> q in done || q in queue' {
      SeenChild(paths, done, cur, c, q);
    }
    forall i | 0 <= i < |queue| ensures queue[i] != child && |queue[i]| <= |child| {
      assert queue[i] in queue;
    }
  }

  /** Everything above the node being expanded is done, and everything on its level is at least seen. */
  lemma {:induction false} Shallow(paths: set<Word>, queue: seq<Word>, done: set<Word>, cur: Word, upTo: nat, q: Word)
    requires Bfs(paths, queue, done, cur, upTo) && q in paths && |q| <= |cur|
    ensures q in done || q in queue
    ensures |q| < |cur| ==> q in done
    decreases |q|
  {
    if q != [] {
      Shallow(paths, queue, done, cur, upTo, Parent(q));
      assert Seen(paths, done, cur, upTo, q);
    }
  }

  lemma {:induction false} AllDone(paths: set<Word>, done: set<Word>, cur: Word, q: Word)
    requires Bfs(paths, [], done, cur, 256) && q in paths
    ensures q in done
    decreases |q|
  {
    if q != [] {
      AllDone(paths, done, cur, Parent(q));
      assert Seen(paths, done, cur, 256, q);
    }
  }

  // ----- cost

  function At(m: map<Word, nat>, w: Word): nat {
    if w in m then m[w] else 0
  }

  ghost function SumOver(m: map<Word, nat>, s: set<Word>): nat {
    if s == {} then 0 else
      var w :| w in s;
      At(m, w) + SumOver(m, s - {w})
  }

  lemma {:induction false} SumOverTake(m: map<Word, nat>, s: set<Word>, w: Word)
    requires w in s
    ensures SumOver(m, s) == At(m, w) + SumOver(m, s - {w})
    decreases |s|
  {
    var x :| x in s && SumOver(m, s) == At(m, x) + SumOver(m, s - {x});
    if x != w {
      SumOverTake(m, s - {x}, w);
      SumOverTake(m, s - {w}, x);
      assert s - {x} - {w} == s - {w} - {x};
    }
  }

  lemma {:induction false} SumOverSame(m: map<Word, nat>, m': map<Word, nat>, s: set<Word>)
    requires forall w | w in s :: At(m, w) == At(m', w)
    ensures SumOver(m, s) == SumOver(m', s)
    decreases |s|
  {
    if s != {} {
      var w :| w in s;
      SumOverTake(m, s, w);
      SumOverTake(m', s, w);
      SumOverSame(m, m', s - {w});
    }
  }

  lemma SumOverMore(m: map<Word, nat>, w: Word, n: nat)
    requires w !in m
    ensures SumOver(m[w := n], m.Keys + {w}) == SumOver(m, m.Keys) + n
  {
    SumOverTake(m[w := n], m.Keys + {w}, w);
    assert m.Keys + {w} - {w} == m.Keys;
    SumOverSame(m, m[w := n], m.Keys);
  }

  lemma {:induction false} SumOverUnion(m: map<Word, nat>, a: set<Word>, b: set<Word>)
    ensures SumOver(m, a + b) <= SumOver(m, a) + SumOver(m, b)
    decreases |b|
  {
    if b == {} {
      assert a + b == a;
    } else {
      var w :| w in b;
      SumOverTake(m, b, w);
      SumOverUnion(m, a, b - {w});
      if w in a {
        assert a + b == a + (b - {w});
      } else {
        SumOverTake(m, a + b, w);
        assert a + b - {w} == a + (b - {w});
      }
    }
  }

  ghost function Prefixes(w: Word): (r: set<Word>)
    ensures forall p | p in r :: |p| <= |w|
  {
    if w == [] then {[]} else Prefixes(w[..|w| - 1]) + {w}
  }

  /** The paths of a trie over these words. */
  ghost function Paths(ws: seq<Word>): (r: set<Word>)
    ensures [] in r
  {
    if ws == [] then {[]} else Paths(ws[..|ws| - 1]) + Prefixes(ws[|ws| - 1])
  }

  lemma {:induction false} PrefixesArePrefixes(w: Word, p: Word)
    ensures p in Prefixes(w) <==> p <= w
  {
    if w == [] {
      assert p <= w ==> |p| == 0;
    } else {
      var v := Parent(w);
      PrefixesArePrefixes(v, p);
      if |p| < |w| {
        assert v[..|p|] == w[..|p|];
      } else if p <= w {
        assert p == w;
      }
    }
  }

  /** What a trie over the words contains: their prefixes, and the root. */
  lemma {:induction false} PathsArePrefixes(ws: seq<Word>, p: Word)
    ensures p in Paths(ws) <==> p == [] || exists w :: w in ws && p <= w
  {
    if ws != [] {
      var n := |ws| - 1;
      PathsArePrefixes(ws[..n], p);
      PrefixesArePrefixes(ws[n], p);
      forall w ensures w in ws <==> w in ws[..n] || w == ws[n] {
        assert ws == ws[..n] + [ws[n]];
      }
      if p in Paths(ws) && p != [] && p !in Paths(ws[..n]) {
        assert ws[n] in ws && p <= ws[n];
      }
    }
  }

  ghost function TotalLength(ws: seq<Word>): nat {
    if ws == [] then 0 else TotalLength(ws[..|ws| - 1]) + |ws[|ws| - 1]|
  }

  /** Links followed while linking a node are paid for by the depth its link falls short of its parent's. */
  ghost predicate Paid(paths: set<Word>, cost: map<Word, nat>) {
    && [] in paths && [] !in cost
    && forall q | q in cost ::
         && At(cost, q) == LinkHops(paths, q)
         && At(cost, q) + |Link(paths, q)| <= if |q| == 1 then 0 else |Link(paths, Parent(q))| + 1
  }

  /** The links followed in building: for each path but the root, those to find its link. */
  ghost function BuildHops(paths: set<Word>): nat
    requires [] in paths
  {
    SumOver(map q | q in paths && q != [] :: LinkHops(paths, q), paths - {[]})
  }

  lemma {:induction false} PathCost(paths: set<Word>, cost: map<Word, nat>, w: Word)
    requires Paid(paths, cost) && Prefixes(w) <= cost.Keys + {[]}
    ensures SumOver(cost, Prefixes(w)) + (if w == [] then 0 else |Link(paths, w)|) <= |w|
    decreases |w|
  {
    if w == [] {
      SumOverTake(cost, Prefixes(w), []);
      var none: set<Word> := {};
      assert Prefixes(w) - {[]} == none;
    } else {
      var v := Parent(w);
      PathCost(paths, cost, v);
      assert Prefixes(w) == Prefixes(v) + {w} && w in cost;
      SumOverTake(cost, Prefixes(w), w);
      assert Prefixes(w) - {w} == Prefixes(v);
    }
  }

  lemma {:induction false} TotalCost(paths: set<Word>, cost: map<Word, nat>, ws: seq<Word>)
    requires Paid(paths, cost) && Paths(ws) <= cost.Keys + {[]}
    ensures SumOver(cost, Paths(ws)) <= TotalLength(ws)
  {
    if ws == [] {
      PathCost(paths, cost, []);
    } else {
      var n := |ws| - 1;
      TotalCost(paths, cost, ws[..n]);
      PathCost(paths, cost, ws[n]);
      SumOverUnion(cost, Paths(ws[..n]), Prefixes(ws[n]));
    }
  }

  lemma WholeCost(paths: set<Word>, cost: map<Word, nat>, ws: seq<Word>)
    requires Paid(paths, cost) && Paths(ws) == cost.Keys + {[]}
    requires paths == Paths(ws)
    ensures SumOver(cost, cost.Keys) == BuildHops(paths) <= TotalLength(ws)
  {
    assert cost == map q | q in paths && q != [] :: LinkHops(paths, q);
    assert cost.Keys == paths - {[]};
    TotalCost(paths, cost, ws);
    SumOverTake(cost, Paths(ws), []);
    assert Paths(ws) - {[]} == cost.Keys;
  }
}
